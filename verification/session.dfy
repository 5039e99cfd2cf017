/**
 * A session on the screen: the user's actions on the list, applied one
 * after another from the current list, and worked scenarios.
 */
module Session {
  import opened Wrappers
  import Catalog
  import Ledger
  import Units

  /** What the user can do to the list. */
  datatype Action =
    | AddPiece(tipo: string, qtd: int)  // the "Adicionar Peça" button
    | RemoveLine(index: int)            // the cross beside a line
    | ClearList                         // the "Limpar Lista" button

  /** The list after one action; alerts leave it unchanged. */
  function Step(items: seq<Ledger.Item>, a: Action): seq<Ledger.Item>
  {
    match a
    case AddPiece(tipo, qtd) => Ledger.Add(items, tipo, qtd).items
    case RemoveLine(index) => Ledger.Remove(items, index)
    case ClearList => Ledger.Clear(items)
  }

  /** The list after a series of actions, applied in order. */
  function Run(items: seq<Ledger.Item>, actions: seq<Action>): seq<Ledger.Item>
    decreases |actions|
  {
    if |actions| == 0 then items else Run(Step(items, actions[0]), actions[1..])
  }

  /** Whatever the user does, starting from a priced list, every line stays priced. */
  lemma {:induction false} RunKeepsConsistent(items: seq<Ledger.Item>, actions: seq<Action>)
    requires Ledger.Consistent(items)
    ensures Ledger.Consistent(Run(items, actions))
    decreases |actions|
  {
    if |actions| > 0 {
      match actions[0] {
        case AddPiece(tipo, qtd) => Ledger.AddKeepsConsistent(items, tipo, qtd);
        case RemoveLine(index) => Ledger.RemoveKeepsConsistent(items, index);
        case ClearList =>
      }
      RunKeepsConsistent(Step(items, actions[0]), actions[1..]);
    }
  }

  /** Every list reachable from the empty one has a total of at least one gram per line. */
  lemma ReachableTotal(actions: seq<Action>)
    ensures Ledger.Total(Run([], actions)) >= |Run([], actions)|
  {
    RunKeepsConsistent([], actions);
    Ledger.ConsistentTotalPositive(Run([], actions));
  }

  /** Clearing after any series of actions leaves an empty list weighing nothing. */
  lemma ClearAfterAnything(items: seq<Ledger.Item>, actions: seq<Action>)
    ensures Run(items, actions + [ClearList]) == []
    ensures Ledger.Total(Run(items, actions + [ClearList])) == 0
    decreases |actions|
  {
    if |actions| > 0 {
      assert (actions + [ClearList])[1..] == actions[1..] + [ClearList];
      ClearAfterAnything(Step(items, actions[0]), actions[1..]);
    }
  }

  /** Two T-shirts and then one pair of jeans give two lines, in that order, of 300 g and 800 g. */
  lemma ShirtsAndJeans()
    ensures Run([], [AddPiece("Camiseta", 2), AddPiece("Calça de brim/jeans", 1)])
            == [Ledger.Item("Camiseta", 2, 300), Ledger.Item("Calça de brim/jeans", 1, 800)]
  {
    var shirts := [Ledger.Item("Camiseta", 2, 300)];
    var both := shirts + [Ledger.Item("Calça de brim/jeans", 1, 800)];
    var actions := [AddPiece("Camiseta", 2), AddPiece("Calça de brim/jeans", 1)];
    AddOffered([], "Camiseta", 2, 0);
    AddOffered(shirts, "Calça de brim/jeans", 1, 2);
    calc {
      Run([], actions);
      Run(Step([], actions[0]), actions[1..]);
      Run(shirts, actions[1..]);
      Run(Step(shirts, actions[1]), actions[1..][1..]);
      Run(both, []);
    }
  }

  /** Those two lines weigh 1100 g together, which is shown as 1.1 kg. */
  lemma ShirtsAndJeansTotal()
    ensures Ledger.Total([Ledger.Item("Camiseta", 2, 300), Ledger.Item("Calça de brim/jeans", 1, 800)]) == 1100
    ensures Units.ShowWeight(1100) == Units.Reading(1.1, Units.Kilogram)
  {
    var lines := [Ledger.Item("Camiseta", 2, 300), Ledger.Item("Calça de brim/jeans", 1, 800)];
    assert lines[..1][..0] == [];
  }

  /** Adding a positive quantity of the option at row `i` appends its line, priced from that row. */
  lemma AddOffered(items: seq<Ledger.Item>, tipo: string, qtd: int, i: int)
    requires 0 <= i < |Catalog.Options| && Catalog.Options[i].name == tipo && tipo != "" && qtd >= 1
    ensures Ledger.Add(items, tipo, qtd)
            == Ledger.Update(items + [Ledger.Item(tipo, qtd, Catalog.Options[i].grams * qtd)], None)
  {
    var e := Catalog.Options[i];
    var r := Ledger.Add(items, tipo, qtd);
    assert Catalog.Offered(tipo);
    assert r.items == items + [r.items[|items|]];
  }

  /** A name that is not among the options raises the unknown-type alert and keeps the list. */
  lemma UnknownNameRejected(items: seq<Ledger.Item>)
    ensures Ledger.Add(items, "Calça casal", 1) == Ledger.Update(items, Some(Ledger.UnknownType))
  {
    Catalog.CalcaCasalNotOffered();
  }

  /** Removing from an empty list, or past the end, changes nothing. */
  lemma RemoveOutOfRange(items: seq<Ledger.Item>)
    ensures Step([], RemoveLine(0)) == []
    ensures Step(items, RemoveLine(|items|)) == items
    ensures Step(items, RemoveLine(-1)) == items
  {
  }
}
