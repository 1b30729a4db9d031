/** Installment plans (parcelasService.js): advancing a planned installment expense
    realises the current installment as an expense, moves the plan's counter on and,
    while installments remain, plans a copy for the next month. "Today", the clock and
    the next (month, year) are inputs. */
module Parcelas {
  import opened Wrappers
  import opened Text
  import opened JsValues
  import opened Ledger
  import DataService

  /** `some(d => d.origemParcela === baseId && d.mesReferencia === mes && d.anoReferencia === ano)` */
  predicate JaExiste(plans: seq<Item>, baseId: Option<Id>, mes: int, ano: int) {
    exists i :: 0 <= i < |plans| && plans[i].origemParcela == baseId
                && plans[i].mesReferencia == Int(mes) && plans[i].anoReferencia == Int(ano)
  }

  /** The plans after criarDespesaProximoMes: a copy of the base with a new id and the
      next month's reference is appended unless a plan for that month already points at
      the base, or the base has no installment left. The copy keeps the base's own
      `origemParcela`. */
  function NextMonthPlans(plans: seq<Item>, base: Item, mes: int, ano: int, novoId: Id): (r: seq<Item>)
    ensures r == plans || r == plans + [base.(id := Some(novoId), mesReferencia := Int(mes), anoReferencia := Int(ano))]
    ensures r != plans <==> !JaExiste(plans, base.id, mes, ano) && NumLe(base.parcelaAtual, base.numParcelas)
  {
    if !JaExiste(plans, base.id, mes, ano) && NumLe(base.parcelaAtual, base.numParcelas) then
      plans + [base.(id := Some(novoId), mesReferencia := Int(mes), anoReferencia := Int(ano))]
    else plans
  }

  method CriarDespesaProximoMes(f: Financas, base: Item, mes: int, ano: int, novoId: Id)
    modifies f
    ensures f.planDespesas == NextMonthPlans(old(f.planDespesas), base, mes, ano, novoId)
    ensures f.receitas == old(f.receitas) && f.despesas == old(f.despesas)
    ensures f.planReceitas == old(f.planReceitas)
  {
    var jaExiste := false;
    var i := 0;
    while i < |f.planDespesas|
      invariant 0 <= i <= |f.planDespesas|
      invariant jaExiste <==> JaExiste(f.planDespesas[..i], base.id, mes, ano)
    {
      var d := f.planDespesas[i];
      assert f.planDespesas[..i + 1] == f.planDespesas[..i] + [d];
      if d.origemParcela == base.id && d.mesReferencia == Int(mes) && d.anoReferencia == Int(ano) {
        jaExiste := true;
      }
      i := i + 1;
    }
    assert f.planDespesas[..|f.planDespesas|] == f.planDespesas;
    if !jaExiste && NumLe(base.parcelaAtual, base.numParcelas) {
      f.planDespesas := f.planDespesas + [base.(id := Some(novoId), mesReferencia := Int(mes), anoReferencia := Int(ano))];
    }
  }

  /** The realised expense for the plan's current installment, numbered before the
      advance. */
  function Realised(plan: Item, despesaId: Id, hoje: string, agora: int): Item {
    Empty.(id := Some(NumId(agora)),
           descricao := Some(StrText(plan.descricao) + " (" + NumText(plan.parcelaAtual) + "/"
                             + NumText(plan.numParcelas) + ")"),
           categoria := plan.categoria, valor := plan.valor, data := Some(hoje),
           origemParcela := Some(despesaId))
  }

  /** How avancarParcela ended: no installment plan with that id, nothing left to pay,
      or advanced (`last` is the "última parcela" branch). */
  datatype Advance = NotFound | Finished | Advanced(last: bool)

  datatype Step = Step(lists: Lists, outcome: Advance)

  /** The inputs avancarParcela reads from the clock: today's ISO date, the millisecond
      id of the realised expense, the next month and the id of the planned copy. */
  datatype Clock = Clock(hoje: string, agora: int, mes: int, ano: int, novoId: Id)

  /** Realising the installment plan k is on: the expense is appended, the counter moves
      on and, while installments remain, the next month's copy is planned. */
  function Realise(l: Lists, k: nat, despesaId: Id, c: Clock): (r: Step)
    requires k < |l.planDespesas|
    ensures r.outcome.Advanced?
  {
    var d := l.planDespesas[k];
    var avancada := d.(parcelaAtual := Incr(d.parcelaAtual));
    var plans := l.planDespesas[k := avancada];
    var despesas := l.despesas + [Realised(d, despesaId, c.hoje, c.agora)];
    if NumLe(avancada.parcelaAtual, avancada.numParcelas) then
      Step(l.(despesas := despesas, planDespesas := NextMonthPlans(plans, avancada, c.mes, c.ano, c.novoId)),
           Advanced(false))
    else Step(l.(despesas := despesas, planDespesas := plans), Advanced(true))
  }

  /** The ledger and the outcome after avancarParcela. */
  function AdvanceStep(l: Lists, despesaId: Id, c: Clock): (r: Step)
    ensures !r.outcome.Advanced? ==> r.lists == l
  {
    match FindById(l.planDespesas, despesaId)
    case None => Step(l, NotFound)
    case Some(k) =>
      var d := l.planDespesas[k];
      if !d.ehParcelada then Step(l, NotFound)
      else if NumGe(d.parcelaAtual, d.numParcelas) then Step(l, Finished)
      else Realise(l, k, despesaId, c)
  }

  /** avancarParcela as its counters evidently mean it: a plan on installment `atual` of
      `n` still has `n - atual + 1` to pay, so it is finished only once `atual > n`. */
  function AdvanceStepIntended(l: Lists, despesaId: Id, c: Clock): (r: Step)
    ensures !r.outcome.Advanced? ==> r.lists == l
  {
    match FindById(l.planDespesas, despesaId)
    case None => Step(l, NotFound)
    case Some(k) =>
      var d := l.planDespesas[k];
      if !d.ehParcelada then Step(l, NotFound)
      else if !NumLe(d.parcelaAtual, d.numParcelas) then Step(l, Finished)
      else Realise(l, k, despesaId, c)
  }

  method AvancarParcela(f: Financas, despesaId: Id, c: Clock) returns (o: Advance)
    modifies f
    ensures Step(f.Snapshot(), o) == AdvanceStep(old(f.Snapshot()), despesaId, c)
  {
    var k := FindById(f.planDespesas, despesaId);
    if k.None? || !f.planDespesas[k.value].ehParcelada {
      return NotFound;
    }
    var despesa := f.planDespesas[k.value];
    if NumGe(despesa.parcelaAtual, despesa.numParcelas) {
      return Finished;
    }
    f.despesas := f.despesas + [Realised(despesa, despesaId, c.hoje, c.agora)];
    despesa := despesa.(parcelaAtual := Incr(despesa.parcelaAtual));
    f.planDespesas := f.planDespesas[k.value := despesa];
    if NumLe(despesa.parcelaAtual, despesa.numParcelas) {
      CriarDespesaProximoMes(f, despesa, c.mes, c.ano, c.novoId);
      o := Advanced(false);
    } else {
      o := Advanced(true);
    }
    var _ := DataService.SalvarDados(f);
  }

  /** A successful advance appends exactly one realised expense, numbered with the
      installment before the advance and pointing at the plan; it moves that plan's
      counter on by one, adds at most one planned copy and touches no income. */
  lemma AdvanceEffect(l: Lists, despesaId: Id, c: Clock)
    requires AdvanceStep(l, despesaId, c).outcome.Advanced?
    ensures var r := AdvanceStep(l, despesaId, c).lists;
            var k := FindById(l.planDespesas, despesaId).value;
            var d := l.planDespesas[k];
            r.receitas == l.receitas && r.planReceitas == l.planReceitas
            && r.despesas == l.despesas + [Realised(d, despesaId, c.hoje, c.agora)]
            && r.despesas[|l.despesas|].origemParcela == Some(despesaId)
            && r.despesas[|l.despesas|].categoria == d.categoria && r.despesas[|l.despesas|].valor == d.valor
            && (|r.planDespesas| == |l.planDespesas| || |r.planDespesas| == |l.planDespesas| + 1)
            && r.planDespesas[k] == d.(parcelaAtual := Incr(d.parcelaAtual))
            && (forall j :: 0 <= j < |l.planDespesas| && j != k ==> r.planDespesas[j] == l.planDespesas[j])
  {
  }

  /** With numeric counters an advance never passes the plan's installment count, so the
      "última parcela" branch is unreachable: it is reached only when a counter is not a
      number. */
  lemma LastBranchNeedsNonNumber(l: Lists, despesaId: Id, c: Clock)
    requires AdvanceStep(l, despesaId, c).outcome.Advanced?
    ensures var d := l.planDespesas[FindById(l.planDespesas, despesaId).value];
            var r := AdvanceStep(l, despesaId, c);
            (d.parcelaAtual.Int? && d.numParcelas.Int?) ==>
              r.outcome == Advanced(false) && d.parcelaAtual.v + 1 <= d.numParcelas.v
    ensures AdvanceStep(l, despesaId, c).outcome == Advanced(true) ==>
              var d := l.planDespesas[FindById(l.planDespesas, despesaId).value];
              !d.parcelaAtual.Int? || !d.numParcelas.Int?
  {
  }

  /** With whole-number counters, avancarParcela as written realises an installment only
      while `atual < n`, so the last one, which the plan still counts as remaining, is
      never realised; the intended advance realises every installment up to `n` and takes
      the "última parcela" branch exactly on the last. */
  lemma {:induction false} AdvanceCountsCompared(l: Lists, despesaId: Id, c: Clock)
    requires FindById(l.planDespesas, despesaId).Some?
    requires var d := l.planDespesas[FindById(l.planDespesas, despesaId).value];
             d.ehParcelada && d.parcelaAtual.Int? && d.numParcelas.Int?
    ensures var d := l.planDespesas[FindById(l.planDespesas, despesaId).value];
            (AdvanceStep(l, despesaId, c).outcome.Advanced? <==> d.parcelaAtual.v < d.numParcelas.v)
            && (AdvanceStepIntended(l, despesaId, c).outcome.Advanced? <==> d.parcelaAtual.v <= d.numParcelas.v)
            && (AdvanceStepIntended(l, despesaId, c).outcome == Advanced(true) <==> d.parcelaAtual.v == d.numParcelas.v)
  {
  }

  /** A plan on its third installment of three is reported finished by avancarParcela as
      written, and nothing is realised; the intended advance realises that installment. */
  lemma LastInstallmentRefused(c: Clock)
    ensures var plan := Empty.(id := Some(NumId(1)), ehParcelada := true, parcelaAtual := Int(3), numParcelas := Int(3));
            var l := Lists([], [], [], [plan]);
            AdvanceStep(l, NumId(1), c) == Step(l, Finished)
            && AdvanceStepIntended(l, NumId(1), c).outcome == Advanced(true)
            && AdvanceStepIntended(l, NumId(1), c).lists.despesas == [Realised(plan, NumId(1), c.hoje, c.agora)]
  {
    var plan := Empty.(id := Some(NumId(1)), ehParcelada := true, parcelaAtual := Int(3), numParcelas := Int(3));
    assert FindById([plan], NumId(1)) == Some(0);
  }

  /** A plan whose installment count is NaN (an empty field read with parseInt) does
      reach the "última parcela" branch on its first advance. */
  lemma LastBranchWithNaN(c: Clock)
    ensures var plan := Empty.(id := Some(NumId(1)), ehParcelada := true, parcelaAtual := Int(1), numParcelas := NaN);
            AdvanceStep(Lists([], [], [], [plan]), NumId(1), c).outcome == Advanced(true)
  {
    var plan := Empty.(id := Some(NumId(1)), ehParcelada := true, parcelaAtual := Int(1), numParcelas := NaN);
    assert FindById([plan], NumId(1)) == Some(0);
  }

  /** The planned copy keeps the base's `origemParcela`, so the existence check, which
      looks for the base's id, does not see it: for a base whose own origin is not its id,
      a second call for the same month plans that month a second time. */
  lemma CopyNotSeenByGuard(plans: seq<Item>, base: Item, mes: int, ano: int, id1: Id, id2: Id)
    requires base.origemParcela != base.id && NumLe(base.parcelaAtual, base.numParcelas)
    requires !JaExiste(plans, base.id, mes, ano)
    ensures var once := NextMonthPlans(plans, base, mes, ano, id1);
            |NextMonthPlans(once, base, mes, ano, id2)| == |plans| + 2
  {
  }

  /** processarParcelasFuturas: reports the installment plans still running; it has no
      `modifies` clause, so the ledger is unchanged. */
  method ProcessarParcelasFuturas(f: Financas) returns (emCurso: seq<Item>)
    ensures forall x :: x in emCurso <==> x in f.planDespesas && x.ehParcelada && NumLe(x.parcelaAtual, x.numParcelas)
  {
    emCurso := [];
    var i := 0;
    while i < |f.planDespesas|
      invariant 0 <= i <= |f.planDespesas|
      invariant forall x :: x in emCurso <==> x in f.planDespesas[..i] && x.ehParcelada && NumLe(x.parcelaAtual, x.numParcelas)
    {
      var despesa := f.planDespesas[i];
      assert f.planDespesas[..i + 1] == f.planDespesas[..i] + [despesa];
      if despesa.ehParcelada && NumLe(despesa.parcelaAtual, despesa.numParcelas) {
        emCurso := emCurso + [despesa];
      }
      i := i + 1;
    }
    assert f.planDespesas[..|f.planDespesas|] == f.planDespesas;
  }
}
