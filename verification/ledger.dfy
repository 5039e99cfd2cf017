/**
 * The list of pieces added so far and the three handlers that change it
 * (add a piece, remove a line, clear the list), plus the running total.
 * Every handler is a pure function from the current list to the next one.
 */
module Ledger {
  import opened Wrappers
  import Catalog

  /** One line of the list: the garment name, how many pieces, and their weight in grams. */
  datatype Item = Item(name: string, qty: int, grams: int)

  /** The two alerts the add handler can raise instead of changing the list. */
  datatype Alert =
    | InvalidSelection  // no type chosen, or a quantity below one
    | UnknownType       // a type that is not one of the options

  /** The text shown to the user for each alert. */
  function Message(a: Alert): string {
    match a
    case InvalidSelection => "Selecione tipo e quantidade válida."
    case UnknownType => "Tipo de roupa inválido."
  }

  /** The two alerts show different texts, so the user can tell which check failed. */
  lemma MessagesDiffer()
    ensures Message(InvalidSelection) != Message(UnknownType)
    ensures Message(InvalidSelection) == "Selecione tipo e quantidade válida."
    ensures Message(UnknownType) == "Tipo de roupa inválido."
  {
  }

  /** The list after a handler ran, and the alert it raised, if any. */
  datatype Update = Update(items: seq<Item>, alert: Option<Alert>)

  /** The weight a line ought to carry: the unit weight of its type times its quantity. */
  ghost predicate Priced(it: Item) {
    && it.qty >= 1
    && exists i :: 0 <= i < |Catalog.Options| && Catalog.Options[i].name == it.name
                   && it.grams == Catalog.Options[i].grams * it.qty
  }

  /** Every line of the list is priced from the option table. */
  ghost predicate Consistent(items: seq<Item>) {
    forall k :: 0 <= k < |items| ==> Priced(items[k])
  }

  /**
   * The add handler: reject an empty type or a quantity below one, then
   * reject a type missing from the options, and otherwise append one line
   * weighing the unit weight times the quantity. Repeated types are not merged.
   */
  function Add(items: seq<Item>, tipo: string, qtd: int): (r: Update)
    ensures r.alert == Some(InvalidSelection) <==> tipo == "" || qtd < 1
    ensures r.alert == Some(UnknownType) <==> tipo != "" && qtd >= 1 && !Catalog.Offered(tipo)
    ensures r.alert.None? <==> tipo != "" && qtd >= 1 && Catalog.Offered(tipo)
    ensures r.alert.Some? ==> r.items == items
    ensures r.alert.None? ==>
              && |r.items| == |items| + 1
              && r.items[..|items|] == items
              && r.items[|items|].name == tipo
              && r.items[|items|].qty == qtd
              && forall i :: 0 <= i < |Catalog.Options| && Catalog.Options[i].name == tipo ==>
                   r.items[|items|].grams == Catalog.Options[i].grams * qtd
  {
    if tipo == "" || qtd < 1 then Update(items, Some(InvalidSelection))
    else match Catalog.Find(tipo)
      case None => Update(items, Some(UnknownType))
      case Some(opc) =>
        assert forall i :: 0 <= i < |Catalog.Options| && Catalog.Options[i].name == tipo ==> Catalog.Options[i] == opc by {
          forall i | 0 <= i < |Catalog.Options| && Catalog.Options[i].name == tipo ensures Catalog.Options[i] == opc {
            Catalog.FindExact(tipo, i);
          }
        }
        Update(items + [Item(tipo, qtd, opc.grams * qtd)], None)
  }

  /**
   * The filter behind the remove handler: keeps every line whose position,
   * counting the first line of `items` as `offset`, differs from `index`.
   */
  function KeepOthers(items: seq<Item>, index: int, offset: int): (r: seq<Item>)
    ensures offset <= index < offset + |items| ==> r == items[..index - offset] + items[index - offset + 1..]
    ensures !(offset <= index < offset + |items|) ==> r == items
    decreases |items|
  {
    if |items| == 0 then []
    else
      var rest := KeepOthers(items[1..], index, offset + 1);
      if offset == index then
        assert rest == items[1..];
        rest
      else
        assert [items[0]] + items[1..] == items;
        assert offset + 1 <= index < offset + |items| ==>
                 [items[0]] + (items[1..][..index - offset - 1] + items[1..][index - offset..])
                 == items[..index - offset] + items[index - offset + 1..];
        [items[0]] + rest
  }

  /**
   * The remove handler: drops the line at `index` and keeps the others in
   * order; an index outside the list matches no line and changes nothing.
   */
  function Remove(items: seq<Item>, index: int): (r: seq<Item>)
    ensures 0 <= index < |items| ==> |r| == |items| - 1
    ensures 0 <= index < |items| ==> r == items[..index] + items[index + 1..]
    ensures !(0 <= index < |items|) ==> r == items
  {
    KeepOthers(items, index, 0)
  }

  /** The clear handler: the list becomes empty whatever it held. */
  function Clear(items: seq<Item>): (r: seq<Item>)
    ensures |r| == 0
  {
    []
  }

  /** `itens.reduce((sum, i) => sum + i.peso, 0)`: a left fold adding each line's weight. */
  function Total(items: seq<Item>): int
  {
    if |items| == 0 then 0 else Total(items[..|items| - 1]) + items[|items| - 1].grams
  }

  /** An independent reading of the total: the weights summed from the front. */
  ghost function Sum(items: seq<Item>): int
  {
    if |items| == 0 then 0 else items[0].grams + Sum(items[1..])
  }

  /** The total of two lists placed end to end is the sum of their totals. */
  lemma {:induction false} TotalConcat(a: seq<Item>, b: seq<Item>)
    ensures Total(a + b) == Total(a) + Total(b)
    decreases |b|
  {
    if |b| == 0 {
      assert a + b == a;
    } else {
      var b' := b[..|b| - 1];
      assert (a + b)[..|a + b| - 1] == a + b';
      TotalConcat(a, b');
    }
  }

  /** The fold the source performs agrees with the sum taken from the front. */
  lemma {:induction false} TotalIsSum(items: seq<Item>)
    ensures Total(items) == Sum(items)
    decreases |items|
  {
    if |items| > 0 {
      assert items == [items[0]] + items[1..];
      TotalConcat([items[0]], items[1..]);
      assert [items[0]][..0] == [];
      TotalIsSum(items[1..]);
    }
  }

  /** An accepted add raises the total by exactly the new line's weight; a rejected one leaves it. */
  lemma TotalAfterAdd(items: seq<Item>, tipo: string, qtd: int)
    ensures var r := Add(items, tipo, qtd);
            r.alert.None? ==> Total(r.items) == Total(items) + r.items[|items|].grams
    ensures var r := Add(items, tipo, qtd);
            r.alert.Some? ==> Total(r.items) == Total(items)
  {
    var r := Add(items, tipo, qtd);
    if r.alert.None? {
      assert r.items[..|r.items| - 1] == items;
    }
  }

  /** Removing an existing line lowers the total by that line's weight; any other index leaves it. */
  lemma TotalAfterRemove(items: seq<Item>, index: int)
    ensures 0 <= index < |items| ==> Total(Remove(items, index)) == Total(items) - items[index].grams
    ensures !(0 <= index < |items|) ==> Total(Remove(items, index)) == Total(items)
  {
    if 0 <= index < |items| {
      var front, back := items[..index], items[index + 1..];
      SplitAt(items, index);
      TotalConcat(front + [items[index]], back);
      TotalConcat(front, back);
      TotalSnoc(front, items[index]);
    }
  }

  /** A list is the lines before a position, the line there, and the lines after it. */
  lemma SplitAt(items: seq<Item>, index: int)
    requires 0 <= index < |items|
    ensures items == items[..index] + [items[index]] + items[index + 1..]
  {
  }

  /** Appending one line adds its weight to the total. */
  lemma TotalSnoc(items: seq<Item>, it: Item)
    ensures Total(items + [it]) == Total(items) + it.grams
  {
    assert (items + [it])[..|items|] == items;
  }

  /** After clearing, the list is empty and its total is zero. */
  lemma TotalAfterClear(items: seq<Item>)
    ensures Clear(items) == [] && Total(Clear(items)) == 0
  {
  }

  /** An accepted add keeps every line priced; a rejected add leaves the list as it was. */
  lemma AddKeepsConsistent(items: seq<Item>, tipo: string, qtd: int)
    requires Consistent(items)
    ensures Consistent(Add(items, tipo, qtd).items)
  {
    var r := Add(items, tipo, qtd);
    if r.alert.None? {
      var added := r.items[|items|];
      assert r.items == items + [added];
      AddedLinePriced(items, tipo, qtd);
      AppendKeepsConsistent(items, added);
    }
  }

  /** The line an accepted add appends is priced from the option table. */
  lemma AddedLinePriced(items: seq<Item>, tipo: string, qtd: int)
    requires tipo != "" && qtd >= 1 && Catalog.Offered(tipo)
    ensures Priced(Add(items, tipo, qtd).items[|items|])
  {
    var added := Add(items, tipo, qtd).items[|items|];
    var i :| 0 <= i < |Catalog.Options| && Catalog.Options[i].name == tipo;
    assert added.grams == Catalog.Options[i].grams * added.qty;
  }

  /** Appending a priced line to a priced list gives a priced list. */
  lemma AppendKeepsConsistent(items: seq<Item>, it: Item)
    requires Consistent(items) && Priced(it)
    ensures Consistent(items + [it])
  {
    forall k | 0 <= k < |items| + 1 ensures Priced((items + [it])[k]) {
      if k < |items| {
        assert (items + [it])[k] == items[k];
      }
    }
  }

  /** Removing a line keeps every remaining line priced. */
  lemma RemoveKeepsConsistent(items: seq<Item>, index: int)
    requires Consistent(items)
    ensures Consistent(Remove(items, index))
  {
    var r := Remove(items, index);
    if 0 <= index < |items| {
      forall k | 0 <= k < |r| ensures Priced(r[k]) {
        if k < index {
          assert r[k] == items[k];
        } else {
          assert r[k] == items[k + 1];
        }
      }
    }
  }

  /** A priced line weighs at least one gram per piece. */
  lemma PricedWeighsSomething(it: Item)
    requires Priced(it)
    ensures it.grams >= it.qty >= 1
  {
    var i :| 0 <= i < |Catalog.Options| && Catalog.Options[i].name == it.name
             && it.grams == Catalog.Options[i].grams * it.qty;
    Catalog.OptionWeightPositive(i);
    MulMonotone(Catalog.Options[i].grams, it.qty);
  }

  /** A positive factor does not shrink a positive quantity. */
  lemma MulMonotone(unit: int, qty: int)
    requires unit >= 1 && qty >= 1
    ensures unit * qty >= qty
  {
  }

  /** A list of priced lines weighs at least as many grams as it has lines, so a non-empty one is never weightless. */
  lemma {:induction false} ConsistentTotalPositive(items: seq<Item>)
    requires Consistent(items)
    ensures Total(items) >= |items|
    decreases |items|
  {
    if |items| > 0 {
      PricedWeighsSomething(items[|items| - 1]);
      var front := items[..|items| - 1];
      assert forall k | 0 <= k < |front| :: front[k] == items[k];
      ConsistentTotalPositive(front);
    }
  }
}
