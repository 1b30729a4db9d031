/** The renderer's shared ledger object `financas` (dataService.js): realised incomes and
    expenses, and the planned incomes and expenses under `planejamento`. Every service
    reads and reassigns these four lists in place. */
module Ledger {
  import opened Wrappers
  import opened JsValues

  /** The contents of the ledger at one moment. */
  datatype Lists = Lists(receitas: seq<Item>, despesas: seq<Item>,
                         planReceitas: seq<Item>, planDespesas: seq<Item>)

  class Financas {
    var receitas: seq<Item>
    var despesas: seq<Item>
    var planReceitas: seq<Item>
    var planDespesas: seq<Item>

    /** The ledger the renderer starts with, before anything is loaded. */
    constructor ()
      ensures receitas == [] && despesas == [] && planReceitas == [] && planDespesas == []
    {
      receitas, despesas, planReceitas, planDespesas := [], [], [], [];
    }

    function Snapshot(): Lists
      reads this
    {
      Lists(receitas, despesas, planReceitas, planDespesas)
    }
  }

  /** The index of the first record whose id is strictly equal (`===`) to the argument:
      what `find` and `findIndex` locate. */
  function FindById(xs: seq<Item>, id: Id): (r: Option<nat>)
    ensures r.Some? ==> r.value < |xs| && xs[r.value].id == Some(id)
                        && forall j :: 0 <= j < r.value ==> xs[j].id != Some(id)
    ensures r.None? ==> forall j :: 0 <= j < |xs| ==> xs[j].id != Some(id)
  {
    if xs == [] then None
    else if xs[0].id == Some(id) then Some(0)
    else match FindById(xs[1..], id)
      case None => None
      case Some(k) => Some(k + 1)
  }

  /** The ledger with one record pushed onto the income list. */
  function WithReceita(l: Lists, item: Item): (r: Lists)
    ensures |r.receitas| == |l.receitas| + 1 && r.receitas[|l.receitas|] == item
    ensures r.receitas[..|l.receitas|] == l.receitas
    ensures r.despesas == l.despesas && r.planReceitas == l.planReceitas && r.planDespesas == l.planDespesas
  {
    l.(receitas := l.receitas + [item])
  }

  /** The ledger with one record pushed onto the expense list. */
  function WithDespesa(l: Lists, item: Item): (r: Lists)
    ensures |r.despesas| == |l.despesas| + 1 && r.despesas[|l.despesas|] == item
    ensures r.despesas[..|l.despesas|] == l.despesas
    ensures r.receitas == l.receitas && r.planReceitas == l.planReceitas && r.planDespesas == l.planDespesas
  {
    l.(despesas := l.despesas + [item])
  }

  /** The ledger with one record pushed onto the planned incomes. */
  function WithPlanReceita(l: Lists, item: Item): (r: Lists)
    ensures |r.planReceitas| == |l.planReceitas| + 1 && r.planReceitas[|l.planReceitas|] == item
    ensures r.planReceitas[..|l.planReceitas|] == l.planReceitas
    ensures r.receitas == l.receitas && r.despesas == l.despesas && r.planDespesas == l.planDespesas
  {
    l.(planReceitas := l.planReceitas + [item])
  }

  /** The ledger with one record pushed onto the planned expenses. */
  function WithPlanDespesa(l: Lists, item: Item): (r: Lists)
    ensures |r.planDespesas| == |l.planDespesas| + 1 && r.planDespesas[|l.planDespesas|] == item
    ensures r.planDespesas[..|l.planDespesas|] == l.planDespesas
    ensures r.receitas == l.receitas && r.despesas == l.despesas && r.planReceitas == l.planReceitas
  {
    l.(planDespesas := l.planDespesas + [item])
  }
}
