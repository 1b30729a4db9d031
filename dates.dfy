/** The date and label helpers of utils.js and dateService.js. The two files carry
    identical copies of obterMesAnoAtual, filtrarPorMesAtual and obterProximoMes; each is
    modelled once. The clock and JavaScript's `Date` parsing are inputs: "now" is a
    moment, and parsing a date text gives a calendar day or nothing (an Invalid Date). */
module Dates {
  import opened Wrappers
  import opened Text
  import opened JsValues
  import opened Subsequences

  // ---------------------------------------------------------------------------
  // Calendar values

  /** A local calendar day; `mes` is 0-based, as `getMonth` returns it. */
  datatype Day = Day(ano: int, mes: int, dia: int)

  /** A local moment: a day and the milliseconds since its midnight. */
  datatype Moment = Moment(day: Day, ms: int)

  /** The `{ mes, ano }` pair the month helpers return. */
  datatype MonthYear = MonthYear(mes: int, ano: int)

  predicate DayBefore(a: Day, b: Day) {
    a.ano < b.ano || (a.ano == b.ano && (a.mes < b.mes || (a.mes == b.mes && a.dia <= b.dia)))
  }

  /** `a <= b` on two Date values. */
  predicate MomentLe(a: Moment, b: Moment) {
    DayBefore(a.day, b.day) && (a.day == b.day ==> a.ms <= b.ms)
  }

  /** `setHours(0, 0, 0, 0)` */
  function Midnight(m: Moment): Moment {
    Moment(m.day, 0)
  }

  /** Months counted from year 0: the position of a month on the calendar. */
  function MonthIndex(m: MonthYear): int {
    12 * m.ano + m.mes
  }

  // ---------------------------------------------------------------------------
  // obterMesAnoAtual, obterProximoMes

  /** obterMesAnoAtual for the moment "now". */
  function ObterMesAnoAtual(agora: Moment): (r: MonthYear)
    ensures r.mes == agora.day.mes && r.ano == agora.day.ano
  {
    MonthYear(agora.day.mes, agora.day.ano)
  }

  /** obterProximoMes: `new Date(ano, mes + 1, 1)` normalises a month past December into
      the next year. */
  function ObterProximoMes(agora: MonthYear): (r: MonthYear)
    ensures 0 <= r.mes < 12
    ensures MonthIndex(r) == MonthIndex(agora) + 1
    ensures 0 <= agora.mes < 11 ==> r == MonthYear(agora.mes + 1, agora.ano)
    ensures agora.mes == 11 ==> r == MonthYear(0, agora.ano + 1)
  {
    MonthYear((agora.mes + 1) % 12, agora.ano + (agora.mes + 1) / 12)
  }

  /** The next month of a month on the calendar is the only month one position later. */
  lemma ProximoMesUnique(agora: MonthYear, m: MonthYear)
    requires 0 <= m.mes < 12 && MonthIndex(m) == MonthIndex(agora) + 1
    ensures m == ObterProximoMes(agora)
  {
    var r := ObterProximoMes(agora);
    assert 12 * (m.ano - r.ano) == r.mes - m.mes;
  }

  // ---------------------------------------------------------------------------
  // filtrarPorMesAtual

  /** Whether filtrarPorMesAtual keeps an item: its date is truthy and parses to a day of
      the current month and year. */
  predicate NoMes(item: Item, parse: string -> Option<Day>, atual: MonthYear) {
    StrTruthy(item.data) && parse(item.data.value).Some?
    && parse(item.data.value).value.mes == atual.mes && parse(item.data.value).value.ano == atual.ano
  }

  /** `itens.filter(...)` with the default date field `data`. */
  function FiltrarPorMesAtual(itens: seq<Item>, parse: string -> Option<Day>, agora: Moment): (r: seq<Item>)
    ensures |r| <= |itens|
    ensures forall x :: x in r <==> x in itens && NoMes(x, parse, ObterMesAnoAtual(agora))
  {
    if itens == [] then []
    else
      var init, x := itens[..|itens| - 1], itens[|itens| - 1];
      assert itens == init + [x];
      var rest := FiltrarPorMesAtual(init, parse, agora);
      if NoMes(x, parse, ObterMesAnoAtual(agora)) then rest + [x] else rest
  }

  /** The kept items are the input's in their order, and none has a falsy date. */
  lemma {:induction false} FiltrarPorMesAtualSubseq(itens: seq<Item>, parse: string -> Option<Day>, agora: Moment)
    ensures SubseqOf(FiltrarPorMesAtual(itens, parse, agora), itens)
    ensures forall x :: x in FiltrarPorMesAtual(itens, parse, agora) ==> StrTruthy(x.data)
    decreases |itens|
  {
    if itens != [] {
      var init, x := itens[..|itens| - 1], itens[|itens| - 1];
      assert itens == init + [x];
      FiltrarPorMesAtualSubseq(init, parse, agora);
      var rest := FiltrarPorMesAtual(init, parse, agora);
      if NoMes(x, parse, ObterMesAnoAtual(agora)) {
        SubseqBoth(rest, init, x);
      } else {
        SubseqExtend(rest, init, x);
      }
    }
  }

  // ---------------------------------------------------------------------------
  // validarDataNaoFutura

  /** validarDataNaoFutura: `parsed` is `new Date(data)`, `agora` is `new Date()`; both are
      moved to midnight before the comparison. */
  function ValidarDataNaoFutura(data: string, parsed: Option<Moment>, agora: Moment): (r: bool)
    ensures data == "" ==> !r
    ensures r <==> data != "" && parsed.Some? && DayBefore(parsed.value.day, agora.day)
  {
    if data == "" then false
    else match parsed
      case None => false
      case Some(d) => MomentLe(Midnight(d), Midnight(agora))
  }

  /** The time of day plays no part: the answer depends on the two days only. */
  lemma ValidarIgnoresTime(data: string, d: Day, t1: int, t2: int, hoje: Day, u1: int, u2: int)
    ensures ValidarDataNaoFutura(data, Some(Moment(d, t1)), Moment(hoje, u1))
            == ValidarDataNaoFutura(data, Some(Moment(d, t2)), Moment(hoje, u2))
  {
  }

  /** A date accepted today is accepted on every later day. */
  lemma ValidarLater(data: string, parsed: Option<Moment>, agora: Moment, depois: Moment)
    requires DayBefore(agora.day, depois.day)
    requires ValidarDataNaoFutura(data, parsed, agora)
    ensures ValidarDataNaoFutura(data, parsed, depois)
  {
  }

  // ---------------------------------------------------------------------------
  // formatarData (utils.js)

  /** formatarData: '' for a falsy date, a text with '/' as it is, `YYYY-MM-DD` as
      `DD/MM/YYYY`, and any other text as it is. */
  function FormatarData(data: Option<string>): (r: string)
    ensures r == "" <==> !StrTruthy(data)
    ensures StrTruthy(data) && '/' in data.value ==> r == data.value
    ensures r == "" || '/' in r || r == data.value
  {
    if !StrTruthy(data) then ""
    else if '/' in data.value then data.value
    else
      var partes := Split(data.value, '-');
      if |partes| == 3 then partes[2] + "/" + partes[1] + "/" + partes[0]
      else data.value
  }

  /** An ISO date whose three parts hold neither '-' nor '/' becomes day/month/year. */
  lemma FormatarDataIso(ano: string, mes: string, dia: string)
    requires '-' !in ano && '-' !in mes && '-' !in dia
    requires '/' !in ano && '/' !in mes && '/' !in dia
    ensures FormatarData(Some(ano + "-" + mes + "-" + dia)) == dia + "/" + mes + "/" + ano
  {
    var s := ano + "-" + mes + "-" + dia;
    assert Join([mes, dia], '-') == mes + "-" + dia;
    assert Join([ano, mes, dia], '-') == s;
    SplitJoin([ano, mes, dia], '-');
    assert '/' !in s by {
      assert forall i :: 0 <= i < |s| ==> s[i] == '-' || s[i] in ano || s[i] in mes || s[i] in dia;
    }
  }

  /** Formatting a formatted date changes nothing. */
  lemma FormatarDataIdempotent(data: Option<string>)
    ensures FormatarData(Some(FormatarData(data))) == FormatarData(data)
  {
  }

  // ---------------------------------------------------------------------------
  // traduzirCategoria (utils.js)

  /** The labels of the eight expense categories. */
  const Traducoes: map<string, string> :=
    map["moradia" := "Moradia", "alimentacao" := "Alimentação", "transporte" := "Transporte",
        "lazer" := "Lazer", "saude" := "Saúde", "educacao" := "Educação",
        "dividas" := "Dívidas", "outros" := "Outros"]

  /** The properties every object literal inherits from Object.prototype. */
  const PrototypeMembers: set<string> :=
    {"constructor", "__proto__", "hasOwnProperty", "isPrototypeOf", "propertyIsEnumerable",
     "toLocaleString", "toString", "valueOf", "__defineGetter__", "__defineSetter__",
     "__lookupGetter__", "__lookupSetter__"}

  /** What `traducoes[categoria] || categoria` yields: a string (or undefined), or an
      inherited member of Object.prototype, which is truthy and is shown instead. */
  datatype Shown = Label(text: Option<string>) | Inherited(member: string)

  /** traduzirCategoria as written: the key is looked up with ordinary property access,
      which also finds the inherited members. */
  function TraduzirCategoriaAsWritten(categoria: Option<string>): (r: Shown)
    ensures r.Inherited? <==> StrText(categoria) !in Traducoes && StrText(categoria) in PrototypeMembers
    ensures StrText(categoria) in Traducoes ==> r == Label(Some(Traducoes[StrText(categoria)]))
  {
    var key := StrText(categoria);
    if key in Traducoes then Label(Some(Traducoes[key]))
    else if key in PrototypeMembers then Inherited(key)
    else Label(categoria)
  }

  /** traduzirCategoria as intended: the label of a known category, any other value as it
      is. */
  function TraduzirCategoria(categoria: Option<string>): (r: Option<string>)
    ensures categoria.Some? && categoria.value in Traducoes ==> r == Some(Traducoes[categoria.value])
    ensures !(categoria.Some? && categoria.value in Traducoes) ==> r == categoria
  {
    if categoria.Some? && categoria.value in Traducoes then Some(Traducoes[categoria.value])
    else categoria
  }

  /** The two agree everywhere except on the names of Object.prototype's members. */
  lemma TraducaoAgrees(categoria: Option<string>)
    requires StrText(categoria) !in PrototypeMembers
    ensures TraduzirCategoriaAsWritten(categoria) == Label(TraduzirCategoria(categoria))
  {
  }

  /** The category "constructor" is shown as the Object constructor instead of as itself. */
  lemma ConstructorCategory()
    ensures TraduzirCategoriaAsWritten(Some("constructor")) == Inherited("constructor")
    ensures TraduzirCategoria(Some("constructor")) == Some("constructor")
  {
    assert "constructor" !in Traducoes;
  }
}
