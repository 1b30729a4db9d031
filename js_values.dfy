/** The JavaScript values the ledger code handles: records with optional fields, numbers
    that may be undefined or NaN, ids that are numbers or strings, and the loosely typed
    JSON documents that come from the remote API and from disk. */
module JsValues {
  import opened Wrappers
  import opened Text

  // ---------------------------------------------------------------------------
  // Numbers

  /** A numeric field: absent (`undefined`), `NaN`, or a number. Amounts, installment
      counters, months and years are all integers in this model. */
  datatype Num = Undefined | NaN | Int(v: int)

  /** JavaScript truthiness of a number: neither 0, NaN nor undefined. */
  predicate NumTruthy(a: Num) {
    a.Int? && a.v != 0
  }

  /** `a || b` on numbers. */
  function OrNum(a: Num, b: Num): Num {
    if NumTruthy(a) then a else b
  }

  /** `a <= b`: false whenever an operand is undefined or NaN. */
  predicate NumLe(a: Num, b: Num) {
    a.Int? && b.Int? && a.v <= b.v
  }

  /** `a >= b`: false whenever an operand is undefined or NaN. */
  predicate NumGe(a: Num, b: Num) {
    a.Int? && b.Int? && a.v >= b.v
  }

  /** `a++`: undefined and NaN become NaN. */
  function Incr(a: Num): Num {
    if a.Int? then Int(a.v + 1) else NaN
  }

  /** `a - b` and `a + b`: NaN unless both are numbers. */
  function NumSub(a: Num, b: Num): Num {
    if a.Int? && b.Int? then Int(a.v - b.v) else NaN
  }

  function NumAdd(a: Num, b: Num): Num {
    if a.Int? && b.Int? then Int(a.v + b.v) else NaN
  }

  /** `${a}` */
  function NumText(a: Num): string {
    match a
    case Undefined => "undefined"
    case NaN => "NaN"
    case Int(v) => IntText(v)
  }

  // ---------------------------------------------------------------------------
  // Strings

  /** Truthiness of an optional string: present and not empty. */
  predicate StrTruthy(s: Option<string>) {
    s.Some? && s.value != ""
  }

  /** `s || ''` */
  function OrEmpty(s: Option<string>): string {
    if s.Some? then s.value else ""
  }

  /** `${s}` */
  function StrText(s: Option<string>): string {
    if s.Some? then s.value else "undefined"
  }

  // ---------------------------------------------------------------------------
  // Ids

  /** Record ids: `Date.now()` numbers from the forms, strings from gerarNovoID. */
  datatype Id = NumId(n: int) | StrId(s: string)

  predicate IdTruthy(id: Option<Id>) {
    match id
    case None => false
    case Some(NumId(n)) => n != 0
    case Some(StrId(s)) => s != ""
  }

  /** `${id}`, as written into a `data-id` attribute. */
  function IdText(id: Option<Id>): string {
    match id
    case None => "undefined"
    case Some(NumId(n)) => IntText(n)
    case Some(StrId(s)) => s
  }

  /** `id == s` for a string s (loose equality): a string id compares as text, a number
      id compares with the number that s converts to, and undefined equals no string. */
  predicate LooseEqualsText(id: Option<Id>, s: string) {
    match id
    case None => false
    case Some(StrId(t)) => t == s
    case Some(NumId(n)) => ToNumber(s) == Some(n as real)
  }

  /** An id is loosely equal to its own rendering as text. */
  lemma LooseEqualsOwnText(id: Id)
    ensures LooseEqualsText(Some(id), IdText(Some(id)))
  {
    if id.NumId? {
      ToNumberIntText(id.n);
    }
  }

  // ---------------------------------------------------------------------------
  // Records

  /** A ledger record: an income or an expense, realised or planned. Every field is
      optional, as in the JavaScript objects; `ehParcelada` and `parcelada` hold their
      truthiness. */
  datatype Item = Item(
    id: Option<Id>,
    descricao: Option<string>,
    categoria: Option<string>,
    data: Option<string>,
    valor: Num,
    valorTotal: Num,
    parcelas: Num,
    taxaJuros: Num,
    ehParcelada: bool,
    parcelada: bool,
    numParcelas: Num,
    parcelaAtual: Num,
    parcelasRestantes: Num,
    juros: Num,
    origemParcela: Option<Id>,
    mesReferencia: Num,
    anoReferencia: Num)

  /** The record with no field set (`{}`). */
  const Empty: Item := Item(None, None, None, None, Undefined, Undefined, Undefined, Undefined,
                            false, false, Undefined, Undefined, Undefined, Undefined, None,
                            Undefined, Undefined)

  // ---------------------------------------------------------------------------
  // Documents

  /** A property that should hold a list: absent or falsy, some other truthy value, or an array. */
  datatype JsList = Missing | NotArray | Array(items: seq<Item>)

  /** A parsed JSON value as the sync code probes it: falsy, a truthy non-object, or an
      object with the properties the code reads (`success === false`, `message`, `data`,
      `receitas`, `despesas`, `planejamento`). An array is an object without them. */
  datatype Json =
    | Falsy
    | Scalar
    | Object(successFalse: bool, message: Option<string>, data: Json,
             receitas: JsList, despesas: JsList, planejamento: Json)

  /** An object holding the four lists and nothing else. */
  function LedgerJson(receitas: seq<Item>, despesas: seq<Item>,
                      planReceitas: seq<Item>, planDespesas: seq<Item>): Json
  {
    Object(false, None, Falsy, Array(receitas), Array(despesas),
           Object(false, None, Falsy, Array(planReceitas), Array(planDespesas), Falsy))
  }
}
