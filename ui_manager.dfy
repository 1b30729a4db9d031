/** The list screens of uiManager.js: deleting by id with the page's string id, and the
    two helpers that append a new income or expense. */
module UiManager {
  import opened Wrappers
  import opened JsValues
  import opened Ledger
  import opened Subsequences
  import DataService

  /** `xs.filter(item => item.id != id)` for an id read from a `data-id` attribute: every
      record whose id is loosely equal to the text is dropped, the others keep their order. */
  function Filtered(xs: seq<Item>, id: string): (r: seq<Item>)
    ensures |r| <= |xs|
    ensures forall x :: x in r <==> x in xs && !LooseEqualsText(x.id, id)
  {
    if xs == [] then []
    else
      var rest := Filtered(xs[..|xs| - 1], id);
      var x := xs[|xs| - 1];
      assert xs == xs[..|xs| - 1] + [x];
      if LooseEqualsText(x.id, id) then rest else rest + [x]
  }

  /** Filtering a list extended by one record. */
  lemma FilteredSnoc(init: seq<Item>, x: Item, id: string)
    ensures Filtered(init + [x], id) == if LooseEqualsText(x.id, id) then Filtered(init, id)
                                        else Filtered(init, id) + [x]
  {
    assert (init + [x])[..|init|] == init;
  }

  /** The survivors are the original records in their original order. */
  lemma {:induction false} FilteredSubseq(xs: seq<Item>, id: string)
    ensures SubseqOf(Filtered(xs, id), xs)
    decreases |xs|
  {
    if xs != [] {
      var init, x := xs[..|xs| - 1], xs[|xs| - 1];
      assert xs == init + [x];
      FilteredSubseq(init, id);
      if LooseEqualsText(x.id, id) {
        SubseqExtend(Filtered(init, id), init, x);
      } else {
        SubseqBoth(Filtered(init, id), init, x);
      }
    }
  }

  /** Filtering by the same id a second time removes nothing more. */
  lemma {:induction false} FilteredIdempotent(xs: seq<Item>, id: string)
    ensures Filtered(Filtered(xs, id), id) == Filtered(xs, id)
    decreases |xs|
  {
    if xs != [] {
      var init, x := xs[..|xs| - 1], xs[|xs| - 1];
      FilteredIdempotent(init, id);
      var r := Filtered(init, id);
      if !LooseEqualsText(x.id, id) {
        assert (r + [x])[..|r + [x]| - 1] == r;
      }
    }
  }

  /** A list with no record loosely equal to the id is left as it is. */
  lemma {:induction false} FilteredNoMatch(xs: seq<Item>, id: string)
    requires forall j :: 0 <= j < |xs| ==> !LooseEqualsText(xs[j].id, id)
    ensures Filtered(xs, id) == xs
    decreases |xs|
  {
    if xs != [] {
      var init := xs[..|xs| - 1];
      FilteredNoMatch(init, id);
      assert init + [xs[|xs| - 1]] == xs;
    }
  }

  /** The ledger after excluirItem once the user has confirmed: the lists are created if
      missing (they always exist here), then the list `tipo` names is filtered; any other
      `tipo` removes nothing. */
  function Excluded(l: Lists, tipo: string, id: string): (r: Lists)
    ensures r.planReceitas == l.planReceitas && r.planDespesas == l.planDespesas
    ensures r.receitas == if tipo == "receita" then Filtered(l.receitas, id) else l.receitas
    ensures r.despesas == if tipo == "despesa" then Filtered(l.despesas, id) else l.despesas
  {
    if tipo == "receita" then l.(receitas := Filtered(l.receitas, id))
    else if tipo == "despesa" then l.(despesas := Filtered(l.despesas, id))
    else l
  }

  /** excluirItem: nothing changes unless the user confirms. */
  method ExcluirItem(f: Financas, tipo: string, id: string, confirmado: bool)
    modifies f
    ensures f.Snapshot() == if confirmado then Excluded(old(f.Snapshot()), tipo, id) else old(f.Snapshot())
  {
    if confirmado {
      if tipo == "receita" {
        f.receitas := Filtered(f.receitas, id);
      } else if tipo == "despesa" {
        f.despesas := Filtered(f.despesas, id);
      }
      var _ := DataService.SalvarDados(f);
    }
  }

  /** Deleting keeps the survivors in their order and touches only the list `tipo`
      names. */
  lemma ExcludedKeepsOrder(l: Lists, tipo: string, id: string)
    ensures var r := Excluded(l, tipo, id);
            SubseqOf(r.receitas, l.receitas) && SubseqOf(r.despesas, l.despesas)
  {
    FilteredSubseq(l.receitas, id);
    FilteredSubseq(l.despesas, id);
    SubseqRefl(l.receitas);
    SubseqRefl(l.despesas);
  }

  /** A second deletion with the same id changes nothing. */
  lemma ExcludedIdempotent(l: Lists, tipo: string, id: string)
    ensures Excluded(Excluded(l, tipo, id), tipo, id) == Excluded(l, tipo, id)
  {
    if tipo == "receita" {
      FilteredIdempotent(l.receitas, id);
    } else if tipo == "despesa" {
      FilteredIdempotent(l.despesas, id);
    }
  }

  // ---------------------------------------------------------------------------
  // Adding records

  /** The error adicionarReceita and adicionarDespesa throw: `gerarId` is neither defined
      in uiManager.js nor imported into it. */
  const GerarIdUndefined: string := "gerarId is not defined"

  /** The new income the helper means to build; `valor` is the already parsed amount. */
  function NovaReceita(id: Id, descricao: Option<string>, valor: Num, data: Option<string>): Item {
    Empty.(id := Some(id), descricao := descricao, valor := valor, data := data)
  }

  function NovaDespesa(id: Id, descricao: Option<string>, categoria: Option<string>, valor: Num,
                       data: Option<string>): Item {
    Empty.(id := Some(id), descricao := descricao, categoria := categoria, valor := valor, data := data)
  }

  /** adicionarReceita as written: building the record calls the missing `gerarId`, so
      the call throws before the ledger is touched. */
  function AdicionarReceitaAsWritten(l: Lists, descricao: Option<string>, valor: Num,
                                     data: Option<string>): (r: Result<Lists>)
    ensures r.Failure? && r.error == GerarIdUndefined
  {
    Failure(GerarIdUndefined)
  }

  /** adicionarDespesa as written fails in the same way. */
  function AdicionarDespesaAsWritten(l: Lists, descricao: Option<string>, categoria: Option<string>,
                                     valor: Num, data: Option<string>): (r: Result<Lists>)
    ensures r.Failure? && r.error == GerarIdUndefined
  {
    Failure(GerarIdUndefined)
  }

  /** adicionarReceita with the id supplied by the caller. */
  method AdicionarReceita(f: Financas, id: Id, descricao: Option<string>, valor: Num, data: Option<string>)
    modifies f
    ensures f.Snapshot() == WithReceita(old(f.Snapshot()), NovaReceita(id, descricao, valor, data))
  {
    f.receitas := f.receitas + [NovaReceita(id, descricao, valor, data)];
    var _ := DataService.SalvarDados(f);
  }

  /** adicionarDespesa with the id supplied by the caller. */
  method AdicionarDespesa(f: Financas, id: Id, descricao: Option<string>, categoria: Option<string>,
                          valor: Num, data: Option<string>)
    modifies f
    ensures f.Snapshot() == WithDespesa(old(f.Snapshot()), NovaDespesa(id, descricao, categoria, valor, data))
  {
    f.despesas := f.despesas + [NovaDespesa(id, descricao, categoria, valor, data)];
    var _ := DataService.SalvarDados(f);
  }

  /** As written, adding to an empty ledger leaves no income, where the evident intent
      leaves exactly one. */
  lemma AdicionarReceitaDiscrepancy(id: Id, descricao: Option<string>, valor: Num, data: Option<string>)
    ensures var empty := Lists([], [], [], []);
            AdicionarReceitaAsWritten(empty, descricao, valor, data).Failure?
            && |WithReceita(empty, NovaReceita(id, descricao, valor, data)).receitas| == 1
  {
  }

  /** Adding an income and then deleting it by the text its id renders as in the list
      gives back the income list that was there before, less any record with that id. */
  lemma AddThenDelete(xs: seq<Item>, item: Item)
    requires item.id.Some?
    ensures Filtered(xs + [item], IdText(item.id)) == Filtered(xs, IdText(item.id))
  {
    LooseEqualsOwnText(item.id.value);
    assert (xs + [item])[..|xs|] == xs;
  }
}
