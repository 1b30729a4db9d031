/** The entry forms of formService.js: the keyword classifier for incomes, and the four
    submit handlers that check the fields and push a new record. Form fields are strings
    (an empty field is ''), amounts arrive already parsed, and the clock is an input:
    `agora` for the date check and `agoraMs` for the `Date.now()` id. */
module Forms {
  import opened Wrappers
  import opened Text
  import opened JsValues
  import opened Ledger
  import opened Dates
  import Sync
  import DataService

  // ---------------------------------------------------------------------------
  // categorizarReceita

  /** The six income categories. */
  const Categorias: set<string> := {"salario", "freelance", "investimento", "venda", "aluguel", "outros"}

  predicate SalarioWord(desc: string) {
    Contains(desc, "salario") || Contains(desc, "salário")
  }

  predicate FreelanceWord(desc: string) {
    Contains(desc, "freelance") || Contains(desc, "extra")
  }

  predicate InvestimentoWord(desc: string) {
    Contains(desc, "investimento") || Contains(desc, "dividendo")
  }

  /** Whether a lower-cased description holds any of the classifier's keywords. */
  predicate HasKeyword(desc: string) {
    SalarioWord(desc) || FreelanceWord(desc) || InvestimentoWord(desc)
    || Contains(desc, "venda") || Contains(desc, "aluguel")
  }

  /** categorizarReceita: the first rule whose keyword occurs in the lower-cased
      description decides. */
  function CategorizarReceita(descricao: string): (r: string)
    ensures r in Categorias
    ensures r == "outros" <==> !HasKeyword(Lower(descricao))
    ensures SalarioWord(Lower(descricao)) ==> r == "salario"
    ensures r == "freelance" ==> FreelanceWord(Lower(descricao)) && !SalarioWord(Lower(descricao))
  {
    var desc := Lower(descricao);
    if SalarioWord(desc) then "salario"
    else if FreelanceWord(desc) then "freelance"
    else if InvestimentoWord(desc) then "investimento"
    else if Contains(desc, "venda") then "venda"
    else if Contains(desc, "aluguel") then "aluguel"
    else "outros"
  }

  /** The classifier ignores case. */
  lemma CategorizarIgnoresCase(descricao: string)
    ensures CategorizarReceita(Lower(descricao)) == CategorizarReceita(descricao)
  {
    LowerIdempotent(descricao);
  }

  // ---------------------------------------------------------------------------
  // Realised incomes and expenses

  /** How a submit ended: a required field is falsy, the date is after today, or the
      record was pushed. */
  datatype Submit = Incomplete | FutureDate | Added

  /** The checks of the income form, in order. */
  function ReceitaSubmit(descricao: string, valor: Num, data: string, parsed: Option<Moment>,
                         agora: Moment): (r: Submit)
    ensures r == Incomplete <==> descricao == "" || !NumTruthy(valor) || data == ""
    ensures r == Added <==> descricao != "" && NumTruthy(valor) && ValidarDataNaoFutura(data, parsed, agora)
  {
    if descricao == "" || !NumTruthy(valor) || data == "" then Incomplete
    else if !ValidarDataNaoFutura(data, parsed, agora) then FutureDate
    else Added
  }

  /** The income the form pushes. */
  function ReceitaDoForm(agoraMs: int, descricao: string, valor: Num, data: string): Item {
    Empty.(id := Some(NumId(agoraMs)), descricao := Some(descricao), valor := valor, data := Some(data),
           categoria := Some(CategorizarReceita(descricao)))
  }

  /** The income form's submit handler. */
  method SubmeterReceita(f: Financas, descricao: string, valor: Num, data: string,
                         parsed: Option<Moment>, agora: Moment, agoraMs: int) returns (o: Submit)
    modifies f
    ensures o == ReceitaSubmit(descricao, valor, data, parsed, agora)
    ensures f.Snapshot() == if o == Added then WithReceita(old(f.Snapshot()), ReceitaDoForm(agoraMs, descricao, valor, data))
                            else old(f.Snapshot())
  {
    if descricao == "" || !NumTruthy(valor) || data == "" {
      return Incomplete;
    }
    if !ValidarDataNaoFutura(data, parsed, agora) {
      return FutureDate;
    }
    f.receitas := f.receitas + [ReceitaDoForm(agoraMs, descricao, valor, data)];
    var _ := DataService.SalvarDados(f);
    o := Added;
  }

  /** The checks of the expense form, in order. */
  function DespesaSubmit(descricao: string, categoria: string, valor: Num, data: string,
                         parsed: Option<Moment>, agora: Moment): (r: Submit)
    ensures r == Incomplete <==> descricao == "" || categoria == "" || !NumTruthy(valor) || data == ""
    ensures r == Added <==> descricao != "" && categoria != "" && NumTruthy(valor)
                            && ValidarDataNaoFutura(data, parsed, agora)
  {
    if descricao == "" || categoria == "" || !NumTruthy(valor) || data == "" then Incomplete
    else if !ValidarDataNaoFutura(data, parsed, agora) then FutureDate
    else Added
  }

  /** The expense the form pushes. */
  function DespesaDoForm(agoraMs: int, descricao: string, categoria: string, valor: Num, data: string): Item {
    Empty.(id := Some(NumId(agoraMs)), descricao := Some(descricao), categoria := Some(categoria),
           valor := valor, data := Some(data))
  }

  /** The expense form's submit handler. */
  method SubmeterDespesa(f: Financas, descricao: string, categoria: string, valor: Num, data: string,
                         parsed: Option<Moment>, agora: Moment, agoraMs: int) returns (o: Submit)
    modifies f
    ensures o == DespesaSubmit(descricao, categoria, valor, data, parsed, agora)
    ensures f.Snapshot() == if o == Added then WithDespesa(old(f.Snapshot()), DespesaDoForm(agoraMs, descricao, categoria, valor, data))
                            else old(f.Snapshot())
  {
    if descricao == "" || categoria == "" || !NumTruthy(valor) || data == "" {
      return Incomplete;
    }
    if !ValidarDataNaoFutura(data, parsed, agora) {
      return FutureDate;
    }
    f.despesas := f.despesas + [DespesaDoForm(agoraMs, descricao, categoria, valor, data)];
    var _ := DataService.SalvarDados(f);
    o := Added;
  }

  /** Records the forms push pass the pre-push validation: a ledger the validator
      accepts still passes after a successful submit. */
  lemma FormsKeepSendable(l: Lists, agoraMs: int, descricao: string, categoria: string, valor: Num,
                          data: string, parsed: Option<Moment>, agora: Moment)
    requires Sync.Sendable(l)
    ensures ReceitaSubmit(descricao, valor, data, parsed, agora) == Added ==>
              Sync.Sendable(WithReceita(l, ReceitaDoForm(agoraMs, descricao, valor, data)))
    ensures DespesaSubmit(descricao, categoria, valor, data, parsed, agora) == Added ==>
              Sync.Sendable(WithDespesa(l, DespesaDoForm(agoraMs, descricao, categoria, valor, data)))
  {
  }

  // ---------------------------------------------------------------------------
  // Planned incomes and expenses

  /** The planned income the form pushes, when its description and amount are truthy. */
  function ReceitaPrevista(agoraMs: int, descricao: string, valor: Num): (r: Option<Item>)
    ensures r.Some? <==> descricao != "" && NumTruthy(valor)
    ensures r.Some? ==> r.value.categoria == Some(CategorizarReceita(descricao)) && r.value.valor == valor
  {
    if descricao == "" || !NumTruthy(valor) then None
    else Some(Empty.(id := Some(NumId(agoraMs)), descricao := Some(descricao), valor := valor,
                     categoria := Some(CategorizarReceita(descricao))))
  }

  /** The planned-income form's submit handler; returns whether a record was pushed. */
  method SubmeterReceitaPrevista(f: Financas, descricao: string, valor: Num, agoraMs: int) returns (added: bool)
    modifies f
    ensures added <==> ReceitaPrevista(agoraMs, descricao, valor).Some?
    ensures f.Snapshot() == if added then WithPlanReceita(old(f.Snapshot()), ReceitaPrevista(agoraMs, descricao, valor).value)
                            else old(f.Snapshot())
  {
    var nova := ReceitaPrevista(agoraMs, descricao, valor);
    if nova.None? {
      return false;
    }
    f.planReceitas := f.planReceitas + [nova.value];
    var _ := DataService.SalvarDados(f);
    added := true;
  }

  /** The installment fields of the planned-expense form, already parsed: the count and
      current installment (parseInt), the rate and the installment amount (the amortisation
      formula, computed outside this model). */
  datatype Parcelamento = Parcelamento(numParcelas: Num, parcelaAtual: Num, juros: Num, valorParcela: Num)

  /** The planned expense the form pushes: a single payment unless the installment option
      is chosen. */
  function DespesaPrevista(agoraMs: int, descricao: string, categoria: string, valorTotal: Num,
                           parcelamento: Option<Parcelamento>): (r: Option<Item>)
    ensures r.Some? <==> descricao != "" && categoria != "" && NumTruthy(valorTotal)
    ensures r.Some? ==> r.value.valorTotal == valorTotal && r.value.categoria == Some(categoria)
    ensures r.Some? && parcelamento.None? ==> !r.value.ehParcelada && r.value.valor == r.value.valorTotal
    ensures r.Some? && parcelamento.Some? ==>
              var p := parcelamento.value;
              r.value.ehParcelada && r.value.numParcelas == p.numParcelas && r.value.parcelaAtual == p.parcelaAtual
              && r.value.parcelasRestantes == NumAdd(NumSub(p.numParcelas, p.parcelaAtual), Int(1))
  {
    if descricao == "" || categoria == "" || !NumTruthy(valorTotal) then None
    else
      var base := Empty.(id := Some(NumId(agoraMs)), descricao := Some(descricao), categoria := Some(categoria),
                         valorTotal := valorTotal, valor := valorTotal, ehParcelada := false);
      match parcelamento
      case None => Some(base)
      case Some(p) =>
        Some(base.(ehParcelada := true, numParcelas := p.numParcelas, parcelaAtual := p.parcelaAtual,
                   juros := p.juros, valor := p.valorParcela,
                   parcelasRestantes := NumAdd(NumSub(p.numParcelas, p.parcelaAtual), Int(1))))
  }

  /** The planned-expense form's submit handler; returns whether a record was pushed. */
  method SubmeterDespesaPrevista(f: Financas, descricao: string, categoria: string, valorTotal: Num,
                                 parcelamento: Option<Parcelamento>, agoraMs: int) returns (added: bool)
    modifies f
    ensures added <==> DespesaPrevista(agoraMs, descricao, categoria, valorTotal, parcelamento).Some?
    ensures f.Snapshot() == if added then WithPlanDespesa(old(f.Snapshot()), DespesaPrevista(agoraMs, descricao, categoria, valorTotal, parcelamento).value)
                            else old(f.Snapshot())
  {
    var nova := DespesaPrevista(agoraMs, descricao, categoria, valorTotal, parcelamento);
    if nova.None? {
      return false;
    }
    f.planDespesas := f.planDespesas + [nova.value];
    var _ := DataService.SalvarDados(f);
    added := true;
  }

  /** With whole-number fields, the remaining count includes the current installment: a
      plan on its first installment has all of them left, one on its last has one left. */
  lemma RestantesCountsCurrent(agoraMs: int, descricao: string, categoria: string, valorTotal: Num,
                               n: int, atual: int, juros: Num, valorParcela: Num)
    requires descricao != "" && categoria != "" && NumTruthy(valorTotal)
    ensures var r := DespesaPrevista(agoraMs, descricao, categoria, valorTotal,
                                     Some(Parcelamento(Int(n), Int(atual), juros, valorParcela))).value;
            r.parcelasRestantes == Int(n - atual + 1)
            && (atual == 1 ==> r.parcelasRestantes == Int(n))
            && (atual == n ==> r.parcelasRestantes == Int(1))
  {
  }
}
