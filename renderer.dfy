/** The deletion handlers renderer.js exposes to the report pages: the first record whose
    id is strictly equal to the argument is spliced out of the chosen list. */
module Renderer {
  import opened Wrappers
  import opened JsValues
  import opened Ledger
  import opened Subsequences
  import UiManager
  import DataService

  /** `lista.splice(lista.findIndex(item => item.id === id), 1)` when some record matches;
      the list itself otherwise. */
  function Spliced(xs: seq<Item>, id: Id): (r: seq<Item>)
    ensures FindById(xs, id).None? ==> r == xs
    ensures FindById(xs, id).Some? ==>
              var k := FindById(xs, id).value;
              |r| == |xs| - 1 && r[..k] == xs[..k] && r[k..] == xs[k + 1..]
  {
    match FindById(xs, id)
    case None => xs
    case Some(k) => xs[..k] + xs[k + 1..]
  }

  /** Splicing drops exactly one record carrying the id, and only when there is one: the
      remaining records are the original ones in their order, and the multiset of records
      loses exactly the first match. */
  lemma SplicedEffect(xs: seq<Item>, id: Id)
    ensures SubseqOf(Spliced(xs, id), xs)
    ensures |Spliced(xs, id)| == |xs| - 1 <==> exists j :: 0 <= j < |xs| && xs[j].id == Some(id)
    ensures FindById(xs, id).Some? ==>
              multiset(Spliced(xs, id)) + multiset{xs[FindById(xs, id).value]} == multiset(xs)
  {
    match FindById(xs, id)
    case None => SubseqRefl(xs);
    case Some(k) =>
      assert xs == xs[..k] + [xs[k]] + xs[k + 1..];
      DropOneSubseq(xs, k);
  }

  /** Removing one position leaves a subsequence. */
  lemma {:induction false} DropOneSubseq<T>(xs: seq<T>, k: nat)
    requires k < |xs|
    ensures SubseqOf(xs[..k] + xs[k + 1..], xs)
    decreases |xs|
  {
    var n := |xs| - 1;
    if k == n {
      assert xs[..k] + xs[k + 1..] == xs[..n];
      SubseqRefl(xs[..n]);
      SubseqExtend(xs[..n], xs[..n], xs[n]);
      assert xs[..n] + [xs[n]] == xs;
    } else {
      var init := xs[..n];
      DropOneSubseq(init, k);
      SubseqBoth(init[..k] + init[k + 1..], init, xs[n]);
      assert init + [xs[n]] == xs;
      DropOneSnoc(init, xs[n], k);
    }
  }

  /** Only the first match goes: a later record with the same id is still there. */
  lemma LaterDuplicateSurvives(xs: seq<Item>, id: Id, i: nat, j: nat)
    requires i < j < |xs| && xs[i].id == Some(id) && xs[j].id == Some(id)
    ensures exists y :: y in Spliced(xs, id) && y.id == Some(id)
  {
    var k := FindById(xs, id).value;
    assert k <= i;
    assert Spliced(xs, id)[j - 1] == xs[j];
  }

  /** The two deletions agree on a string id that exactly one record carries and that no
      other record's id loosely equals: filtering every loose match removes the same record
      as splicing the first strict match. */
  lemma {:induction false} DeletionsAgree(xs: seq<Item>, s: string, k: nat)
    requires k < |xs| && xs[k].id == Some(StrId(s))
    requires forall j :: 0 <= j < |xs| && j != k ==> !LooseEqualsText(xs[j].id, s)
    ensures UiManager.Filtered(xs, s) == Spliced(xs, StrId(s))
  {
    var r := Spliced(xs, StrId(s));
    assert FindById(xs, StrId(s)) == Some(k) by {
      forall j | 0 <= j < k ensures xs[j].id != Some(StrId(s)) {
        assert !LooseEqualsText(xs[j].id, s);
      }
      FirstAt(xs, StrId(s), k);
    }
    FilteredDrops(xs, s, k);
  }

  /** FindById finds the position when no earlier record matches. */
  lemma {:induction false} FirstAt(xs: seq<Item>, id: Id, k: nat)
    requires k < |xs| && xs[k].id == Some(id)
    requires forall j :: 0 <= j < k ==> xs[j].id != Some(id)
    ensures FindById(xs, id) == Some(k)
    decreases k
  {
    if k > 0 {
      FirstAt(xs[1..], id, k - 1);
    }
  }

  /** Filtering a list with one loose match at k removes exactly position k. */
  lemma {:induction false} FilteredDrops(xs: seq<Item>, s: string, k: nat)
    requires k < |xs| && LooseEqualsText(xs[k].id, s)
    requires forall j :: 0 <= j < |xs| && j != k ==> !LooseEqualsText(xs[j].id, s)
    ensures UiManager.Filtered(xs, s) == xs[..k] + xs[k + 1..]
    decreases |xs|
  {
    var n := |xs| - 1;
    var init, x := xs[..n], xs[n];
    assert xs == init + [x];
    if k == n {
      FilteredDropsLast(init, x, s);
      assert xs[..k] + xs[k + 1..] == init;
    } else {
      assert UiManager.Filtered(init, s) == init[..k] + init[k + 1..] by {
        assert forall j :: 0 <= j < |init| && j != k ==> !LooseEqualsText(init[j].id, s);
        FilteredDrops(init, s, k);
      }
      UiManager.FilteredSnoc(init, x, s);
      DropOneSnoc(init, x, k);
    }
  }

  /** The only match is the last record: filtering drops it alone. */
  lemma FilteredDropsLast(init: seq<Item>, x: Item, s: string)
    requires LooseEqualsText(x.id, s)
    requires forall j :: 0 <= j < |init| ==> !LooseEqualsText(init[j].id, s)
    ensures UiManager.Filtered(init + [x], s) == init
  {
    UiManager.FilteredNoMatch(init, s);
    UiManager.FilteredSnoc(init, x, s);
  }

  /** Dropping position k commutes with appending after it. */
  lemma DropOneSnoc<T>(init: seq<T>, x: T, k: nat)
    requires k < |init|
    ensures init[..k] + init[k + 1..] + [x] == (init + [x])[..k] + (init + [x])[k + 1..]
  {
    var xs := init + [x];
    assert init[..k] == xs[..k];
    assert init[k + 1..] + [x] == xs[k + 1..];
  }

  /** The ledger after window.excluirItem once confirmed: `tipo === 'receita'` picks the
      incomes, any other value the expenses. */
  function RemovedItem(l: Lists, tipo: string, id: Id): (r: Lists)
    ensures r.planReceitas == l.planReceitas && r.planDespesas == l.planDespesas
    ensures tipo == "receita" ==> r.receitas == Spliced(l.receitas, id) && r.despesas == l.despesas
    ensures tipo != "receita" ==> r.despesas == Spliced(l.despesas, id) && r.receitas == l.receitas
  {
    if tipo == "receita" then l.(receitas := Spliced(l.receitas, id))
    else l.(despesas := Spliced(l.despesas, id))
  }

  /** The ledger after window.excluirItemPlanejamento once confirmed, on the planned lists. */
  function RemovedPlanned(l: Lists, tipo: string, id: Id): (r: Lists)
    ensures r.receitas == l.receitas && r.despesas == l.despesas
    ensures tipo == "receita" ==> r.planReceitas == Spliced(l.planReceitas, id) && r.planDespesas == l.planDespesas
    ensures tipo != "receita" ==> r.planDespesas == Spliced(l.planDespesas, id) && r.planReceitas == l.planReceitas
  {
    if tipo == "receita" then l.(planReceitas := Spliced(l.planReceitas, id))
    else l.(planDespesas := Spliced(l.planDespesas, id))
  }

  /** window.excluirItem: returns whether a record was removed (and the ledger saved). */
  method ExcluirItem(f: Financas, tipo: string, id: Id, confirmado: bool) returns (salvo: bool)
    modifies f
    ensures f.Snapshot() == if confirmado then RemovedItem(old(f.Snapshot()), tipo, id) else old(f.Snapshot())
    ensures salvo <==> confirmado && FindById(if tipo == "receita" then old(f.receitas) else old(f.despesas), id).Some?
  {
    if !confirmado {
      return false;
    }
    var lista := if tipo == "receita" then f.receitas else f.despesas;
    var index := FindById(lista, id);
    salvo := index.Some?;
    if salvo {
      lista := lista[..index.value] + lista[index.value + 1..];
      if tipo == "receita" {
        f.receitas := lista;
      } else {
        f.despesas := lista;
      }
      var _ := DataService.SalvarDados(f);
    }
  }

  /** window.excluirItemPlanejamento: the same on the planned lists. */
  method ExcluirItemPlanejamento(f: Financas, tipo: string, id: Id, confirmado: bool) returns (salvo: bool)
    modifies f
    ensures f.Snapshot() == if confirmado then RemovedPlanned(old(f.Snapshot()), tipo, id) else old(f.Snapshot())
    ensures salvo <==> confirmado && FindById(if tipo == "receita" then old(f.planReceitas) else old(f.planDespesas), id).Some?
  {
    if !confirmado {
      return false;
    }
    var lista := if tipo == "receita" then f.planReceitas else f.planDespesas;
    var index := FindById(lista, id);
    salvo := index.Some?;
    if salvo {
      lista := lista[..index.value] + lista[index.value + 1..];
      if tipo == "receita" {
        f.planReceitas := lista;
      } else {
        f.planDespesas := lista;
      }
      var _ := DataService.SalvarDados(f);
    }
  }
}
