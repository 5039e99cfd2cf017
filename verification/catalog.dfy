/**
 * The fixed table of garment types offered by the selector, each with the
 * reference weight of one piece in grams, and the exact-name lookup over it.
 */
module Catalog {
  import opened Wrappers

  /** One selectable garment type and the weight of a single piece, in grams. */
  datatype Entry = Entry(name: string, grams: int)

  /** The options in display order. */
  const Options: seq<Entry> := [
    Entry("Camiseta", 150),
    Entry("Camisa", 250),
    Entry("Calça de brim/jeans", 800),
    Entry("Calça infantil", 400),
    Entry("Moletom adulto", 700),
    Entry("Moletom infantil", 500),
    Entry("Pijama", 400),
    Entry("Fronha", 120),
    Entry("Lençol solteiro", 500),
    Entry("Lençol casal", 800),
    Entry("Colcha solteiro", 1000),
    Entry("Colcha casal", 1300),
    Entry("Toalha de rosto", 200),
    Entry("Toalha de banho", 500),
    Entry("Toalha de mesa", 500),
    Entry("Pano de prato", 80),
    Entry("Edredom solteiro", 900),
    Entry("Edredom casal", 1800)
  ]

  /** No two entries of `s` share a name, so a name identifies at most one entry. */
  predicate NamesDistinct(s: seq<Entry>) {
    forall i, j :: 0 <= i < j < |s| ==> s[i].name != s[j].name
  }

  /** Every entry of `s` weighs something. */
  predicate WeightsPositive(s: seq<Entry>) {
    forall i :: 0 <= i < |s| ==> s[i].grams > 0
  }

  /** `name` is one of the options. */
  ghost predicate Offered(name: string) {
    exists i :: 0 <= i < |Options| && Options[i].name == name
  }

  /** The option table has 18 entries, no two with the same name, each weighing something. */
  lemma OptionsWellFormed()
    ensures |Options| == 18
    ensures NamesDistinct(Options)
    ensures WeightsPositive(Options)
  {
    forall i, j | 0 <= i < j < |Options|
      ensures Options[i].name != Options[j].name
    {
      NameDiffersFromLater(i, j);
    }
  }

  /** Any option, however it was found, weighs something. */
  lemma OptionWeightPositive(i: int)
    requires 0 <= i < |Options|
    ensures Options[i].grams > 0
  {
    OptionsWellFormed();
  }

  /**
   * A row index is one of the 18 positions. Taking the rows one at a time
   * lets the solver compare literal names instead of searching the table.
   */
  lemma RowIndex(i: int)
    requires 0 <= i < |Options|
    ensures || i == 0 || i == 1 || i == 2 || i == 3 || i == 4 || i == 5
            || i == 6 || i == 7 || i == 8 || i == 9 || i == 10 || i == 11
            || i == 12 || i == 13 || i == 14 || i == 15 || i == 16 || i == 17
  {
  }

  /** Each row's name differs from the name of every later row. */
  lemma NameDiffersFromLater(i: int, j: int)
    requires 0 <= i < j < |Options|
    ensures Options[i].name != Options[j].name
  {
    RowIndex(i);
  }

  /** "Calça casal" is not among the options (the jeans entry is "Calça de brim/jeans"). */
  lemma CalcaCasalNotOffered()
    ensures !Offered("Calça casal")
  {
    forall i | 0 <= i < |Options| ensures Options[i].name != "Calça casal" {
      RowIndex(i);
    }
  }

  /**
   * `opcoes.find(o => o.nome === tipo)`: the first entry of `s` named exactly
   * `name` (no case folding, no trimming), or None when there is none.
   */
  function FindIn(s: seq<Entry>, name: string): (r: Option<Entry>)
    ensures r.None? <==> forall k :: 0 <= k < |s| ==> s[k].name != name
    ensures r.Some? ==> exists k :: 0 <= k < |s| && s[k] == r.value && r.value.name == name
                                    && forall m :: 0 <= m < k ==> s[m].name != name
  {
    if |s| == 0 then None
    else if s[0].name == name then Some(s[0])
    else
      var r := FindIn(s[1..], name);
      assert forall k :: 1 <= k < |s| ==> s[k] == s[1..][k - 1];
      if r.Some? then
        var k :| 0 <= k < |s[1..]| && s[1..][k] == r.value && r.value.name == name
                 && forall m :: 0 <= m < k ==> s[1..][m].name != name;
        assert s[k + 1] == r.value;
        r
      else r
  }

  /** The lookup `adicionar` performs on the option table. */
  function Find(name: string): (r: Option<Entry>)
    ensures r.Some? ==> r.value.name == name && exists i :: 0 <= i < |Options| && Options[i] == r.value
    ensures r.None? <==> !Offered(name)
  {
    FindIn(Options, name)
  }

  /** In a table with distinct names, the lookup returns exactly the row carrying the name. */
  lemma FindInExact(s: seq<Entry>, name: string, i: int)
    requires NamesDistinct(s)
    requires 0 <= i < |s|
    ensures FindIn(s, name) == Some(s[i]) <==> s[i].name == name
  {
    if s[i].name == name {
      var r := FindIn(s, name);
      var j :| 0 <= j < |s| && s[j] == r.value;
      assert i == j;
    }
  }

  /** The option table's lookup finds row `i` exactly when that row carries the name asked for. */
  lemma FindExact(name: string, i: int)
    requires 0 <= i < |Options|
    ensures Find(name) == Some(Options[i]) <==> Options[i].name == name
  {
    OptionsWellFormed();
    FindInExact(Options, name, i);
  }
}
