/** The exportar-csv handler of index.js: the ledger document sent by the renderer is
    written as four sections of comma-separated rows and a summary. The save dialog, the
    clock's `toLocaleString` text and the file write are inputs or left out. */
module CsvExport {
  import opened Wrappers
  import opened Text
  import opened JsValues

  // ---------------------------------------------------------------------------
  // Fields

  /** `(s || '').replace(/,/g, ';')`: the text fields are made comma-free. */
  function Sanitize(s: Option<string>): (r: string)
    ensures |r| == |OrEmpty(s)|
    ensures ',' !in r
    ensures forall i :: 0 <= i < |r| ==> r[i] == if OrEmpty(s)[i] == ',' then ';' else OrEmpty(s)[i]
  {
    ReplaceAll(OrEmpty(s), ',', ';')
  }

  /** A text field between double quotes, as the template literal writes it. */
  function Quote(s: string): string {
    "\"" + s + "\""
  }

  /** `${n || d}` for a numeric field with its default. */
  function NumField(n: Num, d: int): string {
    NumText(OrNum(n, Int(d)))
  }

  /** A number written as text holds no comma. */
  lemma NumFieldNoComma(n: Num, d: int)
    ensures ',' !in NumField(n, d)
  {
    var m := OrNum(n, Int(d));
    var t := NatText(if m.v < 0 then -m.v else m.v);
    assert forall i :: 0 <= i < |t| ==> t[i] != ',';
  }

  // ---------------------------------------------------------------------------
  // Rows

  /** A realised income: description, amount, date, category. */
  function ReceitaRow(x: Item): string {
    Quote(Sanitize(x.descricao)) + "," + NumField(x.valor, 0) + "," + Quote(OrEmpty(x.data)) + ","
    + Quote(Sanitize(x.categoria)) + "\n"
  }

  /** A realised expense: the income columns, then installments (default 1) and rate. */
  function DespesaRow(x: Item): string {
    Quote(Sanitize(x.descricao)) + "," + NumField(x.valor, 0) + "," + Quote(OrEmpty(x.data)) + ","
    + Quote(Sanitize(x.categoria)) + "," + NumField(x.parcelas, 1) + "," + NumField(x.taxaJuros, 0) + "\n"
  }

  /** A planned income or expense: description, planned amount, category. */
  function PlanRow(x: Item): string {
    Quote(Sanitize(x.descricao)) + "," + NumField(x.valor, 0) + "," + Quote(Sanitize(x.categoria)) + "\n"
  }

  /** The columns a reader finds in each kind of row. */
  function ReceitaFields(x: Item): seq<string> {
    [Quote(Sanitize(x.descricao)), NumField(x.valor, 0), Quote(OrEmpty(x.data)), Quote(Sanitize(x.categoria))]
  }

  function DespesaFields(x: Item): seq<string> {
    [Quote(Sanitize(x.descricao)), NumField(x.valor, 0), Quote(OrEmpty(x.data)), Quote(Sanitize(x.categoria)),
     NumField(x.parcelas, 1), NumField(x.taxaJuros, 0)]
  }

  function PlanFields(x: Item): seq<string> {
    [Quote(Sanitize(x.descricao)), NumField(x.valor, 0), Quote(Sanitize(x.categoria))]
  }

  /** A line without its final newline. */
  function Line(row: string): string
    requires |row| >= 1
  {
    row[..|row| - 1]
  }

  /** Splitting comma-free pieces joined by commas gives the pieces back. */
  lemma SplitThree(a: string, b: string, c: string)
    requires ',' !in a && ',' !in b && ',' !in c
    ensures Split(a + "," + b + "," + c, ',') == [a, b, c]
  {
    SplitFree(a, ',');
    SplitSuffix(a, ',', b);
    SplitSuffix(a + "," + b, ',', c);
  }

  lemma SplitFour(a: string, b: string, c: string, d: string)
    requires ',' !in a && ',' !in b && ',' !in c && ',' !in d
    ensures Split(a + "," + b + "," + c + "," + d, ',') == [a, b, c, d]
  {
    SplitThree(a, b, c);
    SplitSuffix(a + "," + b + "," + c, ',', d);
  }

  lemma SplitSix(a: string, b: string, c: string, d: string, e: string, f: string)
    requires ',' !in a && ',' !in b && ',' !in c && ',' !in d && ',' !in e && ',' !in f
    ensures Split(a + "," + b + "," + c + "," + d + "," + e + "," + f, ',') == [a, b, c, d, e, f]
  {
    SplitFour(a, b, c, d);
    SplitSuffix(a + "," + b + "," + c + "," + d, ',', e);
    SplitSuffix(a + "," + b + "," + c + "," + d + "," + e, ',', f);
  }

  /** Splitting an income row on its commas gives back its four columns, as long as the
      date (which is not sanitised) holds no comma. */
  lemma ReceitaRowFields(x: Item)
    requires ',' !in OrEmpty(x.data)
    ensures Split(Line(ReceitaRow(x)), ',') == ReceitaFields(x)
  {
    var a, b, c, d := Quote(Sanitize(x.descricao)), NumField(x.valor, 0), Quote(OrEmpty(x.data)), Quote(Sanitize(x.categoria));
    NumFieldNoComma(x.valor, 0);
    var t := a + "," + b + "," + c + "," + d;
    assert ReceitaRow(x) == t + "\n";
    assert Line(ReceitaRow(x)) == t;
    SplitFour(a, b, c, d);
  }

  /** The same for an expense row and its six columns. */
  lemma DespesaRowFields(x: Item)
    requires ',' !in OrEmpty(x.data)
    ensures Split(Line(DespesaRow(x)), ',') == DespesaFields(x)
  {
    var a, b, c, d := Quote(Sanitize(x.descricao)), NumField(x.valor, 0), Quote(OrEmpty(x.data)), Quote(Sanitize(x.categoria));
    var e, f := NumField(x.parcelas, 1), NumField(x.taxaJuros, 0);
    NumFieldNoComma(x.valor, 0);
    NumFieldNoComma(x.parcelas, 1);
    NumFieldNoComma(x.taxaJuros, 0);
    var t := a + "," + b + "," + c + "," + d + "," + e + "," + f;
    assert DespesaRow(x) == t + "\n";
    assert Line(DespesaRow(x)) == t;
    SplitSix(a, b, c, d, e, f);
  }

  /** A planning row has no date, so it always splits into its three columns. */
  lemma PlanRowFields(x: Item)
    ensures Split(Line(PlanRow(x)), ',') == PlanFields(x)
  {
    var a, b, c := Quote(Sanitize(x.descricao)), NumField(x.valor, 0), Quote(Sanitize(x.categoria));
    NumFieldNoComma(x.valor, 0);
    var t := a + "," + b + "," + c;
    assert PlanRow(x) == t + "\n";
    assert Line(PlanRow(x)) == t;
    SplitThree(a, b, c);
  }

  /** Each comma in a date adds a column to its income row: the date is the one text
      field written without sanitising. */
  lemma ReceitaRowCommas(x: Item)
    ensures Count(ReceitaRow(x), ',') == 3 + Count(OrEmpty(x.data), ',')
  {
    var d, v, c := Quote(Sanitize(x.descricao)), NumField(x.valor, 0), Quote(Sanitize(x.categoria));
    NumFieldNoComma(x.valor, 0);
    assert ',' !in d && ',' !in c;
    CountAbsent(d, ',');
    CountAbsent(v, ',');
    CountAbsent(c, ',');
    CountAbsent("\"", ',');
    CountAbsent("\n", ',');
    var q := OrEmpty(x.data);
    CountAppend("\"", q, ',');
    CountAppend("\"" + q, "\"", ',');
    assert Count(",", ',') == 1;
    CountAppend(d, ",", ',');
    CountAppend(d + ",", v, ',');
    CountAppend(d + "," + v, ",", ',');
    CountAppend(d + "," + v + ",", Quote(q), ',');
    CountAppend(d + "," + v + "," + Quote(q), ",", ',');
    CountAppend(d + "," + v + "," + Quote(q) + ",", c, ',');
    CountAppend(d + "," + v + "," + Quote(q) + "," + c, "\n", ',');
  }

  /** The missing numbers of an expense are written as amount 0, one installment and rate 0. */
  lemma DespesaDefaults(x: Item)
    requires !NumTruthy(x.valor) && !NumTruthy(x.parcelas) && !NumTruthy(x.taxaJuros)
    ensures DespesaFields(x)[1] == "0" && DespesaFields(x)[4] == "1" && DespesaFields(x)[5] == "0"
  {
  }

  /** The rows of a list, in the list's order. */
  function Rows(items: seq<Item>, row: Item -> string): (r: string)
    ensures items == [] ==> r == ""
  {
    if items == [] then ""
    else Rows(items[..|items| - 1], row) + row(items[|items| - 1])
  }

  /** The rows of two lists one after the other are the rows of the joined list. */
  lemma {:induction false} RowsAppend(a: seq<Item>, b: seq<Item>, row: Item -> string)
    ensures Rows(a + b, row) == Rows(a, row) + Rows(b, row)
    decreases |b|
  {
    if b != [] {
      var n := |b| - 1;
      assert (a + b)[..|a + b| - 1] == a + b[..n];
      RowsAppend(a, b[..n], row);
    } else {
      assert a + b == a;
    }
  }

  /** `if (list && list.length > 0) list.forEach(...)`: an empty array writes no rows.
      `NotArray` stands for a truthy value without a `length`, which skips the loop and
      writes no rows as well; a string would instead reach `forEach` and throw, which
      this model does not represent. */
  function ListRows(l: JsList, row: Item -> string): string {
    if l.Array? && |l.items| > 0 then Rows(l.items, row) else ""
  }

  /** The rows `forEach` appends one by one. */
  method AppendRows(content: string, l: JsList, row: Item -> string) returns (c: string)
    ensures c == content + ListRows(l, row)
  {
    c := content;
    if l.Array? && |l.items| > 0 {
      var items := l.items;
      for i := 0 to |items|
        invariant c == content + Rows(items[..i], row)
      {
        assert items[..i + 1][..i] == items[..i];
        c := c + row(items[i]);
      }
      assert items[..|items|] == items;
    }
  }

  // ---------------------------------------------------------------------------
  // Totals

  /** `r.valor || 0` */
  function Valor(x: Item): int {
    if NumTruthy(x.valor) then x.valor.v else 0
  }

  /** The sum `reduce` computes over a list's amounts. */
  function Sum(items: seq<Item>): int {
    if items == [] then 0 else Sum(items[..|items| - 1]) + Valor(items[|items| - 1])
  }

  lemma {:induction false} SumAppend(a: seq<Item>, b: seq<Item>)
    ensures Sum(a + b) == Sum(a) + Sum(b)
    decreases |b|
  {
    if b != [] {
      var n := |b| - 1;
      assert (a + b)[..|a + b| - 1] == a + b[..n];
      SumAppend(a, b[..n]);
    } else {
      assert a + b == a;
    }
  }

  /** `list ? list.reduce(...) : 0`: nothing for an absent list, and a TypeError (None)
      for a truthy value that is not an array. */
  function Total(l: JsList): (r: Option<int>)
    ensures r.None? <==> l.NotArray?
    ensures l.Array? ==> r == Some(Sum(l.items))
    ensures l.Missing? ==> r == Some(0)
  {
    match l
    case Missing => Some(0)
    case NotArray => None
    case Array(items) => Some(Sum(items))
  }

  /** The reduce loop. */
  method SumValores(items: seq<Item>) returns (s: int)
    ensures s == Sum(items)
  {
    s := 0;
    for i := 0 to |items|
      invariant s == Sum(items[..i])
    {
      assert items[..i + 1][..i] == items[..i];
      s := s + Valor(items[i]);
    }
    assert items[..|items|] == items;
  }

  // ---------------------------------------------------------------------------
  // The document

  /** The lists of the document; a truthy non-object has none. */
  function Receitas(d: Json): JsList { if d.Object? then d.receitas else Missing }
  function Despesas(d: Json): JsList { if d.Object? then d.despesas else Missing }
  function Planejamento(d: Json): Json { if d.Object? then d.planejamento else Falsy }
  function PlanReceitas(p: Json): JsList { if p.Object? then p.receitas else Missing }
  function PlanDespesas(p: Json): JsList { if p.Object? then p.despesas else Missing }

  const ReceitasHeader: string := "RECEITAS\nDescrição,Valor,Data,Categoria\n"
  const DespesasHeader: string := "DESPESAS\nDescrição,Valor,Data,Categoria,Parcelas,Taxa Juros\n"
  const PlanReceitasHeader: string := "PLANEJAMENTO - RECEITAS\nDescrição,Valor Previsto,Categoria\n"
  const PlanDespesasHeader: string := "PLANEJAMENTO - DESPESAS\nDescrição,Valor Previsto,Categoria\n"

  /** The two planning sections, written only when `planejamento` is truthy. */
  function Planning(p: Json): string {
    if p.Falsy? then ""
    else PlanReceitasHeader + ListRows(PlanReceitas(p), PlanRow) + "\n"
         + PlanDespesasHeader + ListRows(PlanDespesas(p), PlanRow)
  }

  /** The summary: the two totals, the balance, and the export time's text. */
  function Summary(totalReceitas: int, totalDespesas: int, exportadoEm: string): string {
    "\nRESUMO ESTATÍSTICO\n"
    + "Total de Receitas," + IntText(totalReceitas) + "\n"
    + "Total de Despesas," + IntText(totalDespesas) + "\n"
    + "Saldo," + IntText(totalReceitas - totalDespesas) + "\n"
    + "Data de Exportação,\"" + exportadoEm + "\"\n"
  }

  /** The sections before the summary: incomes, expenses, planning (when present). */
  function Sections(d: Json): string {
    ReceitasHeader + ListRows(Receitas(d), ReceitaRow) + "\n"
    + DespesasHeader + ListRows(Despesas(d), DespesaRow) + "\n"
    + Planning(Planejamento(d))
  }

  /** The file's content. */
  function CsvDocument(d: Json, totalReceitas: int, totalDespesas: int, exportadoEm: string): string {
    Sections(d) + Summary(totalReceitas, totalDespesas, exportadoEm)
  }

  /** The document of a ledger holds one line per record of each list, between the
      section headers and in the lists' order: appending a record appends its row to its
      section. */
  lemma MoreIncomeOneMoreRow(receitas: seq<Item>, x: Item)
    ensures ListRows(Array(receitas + [x]), ReceitaRow) == ListRows(Array(receitas), ReceitaRow) + ReceitaRow(x)
  {
    RowsAppend(receitas, [x], ReceitaRow);
    assert [x][..0] == [];
  }

  // ---------------------------------------------------------------------------
  // The handler

  /** The handler's reply: the path written and what was written there, a cancelled
      dialog, or the message of the error it caught. */
  datatype ExportResult = Exported(filePath: string, content: string) | Canceled | ExportFailed(error: string)

  /** The TypeErrors the handler can catch. */
  const NullReceitas: string := "Cannot read properties of null (reading 'receitas')"
  const ReceitasReduce: string := "dados.receitas.reduce is not a function"
  const DespesasReduce: string := "dados.despesas.reduce is not a function"

  /** One section's steps: its header, then its rows. */
  method WriteSection(content: string, header: string, l: JsList, row: Item -> string) returns (c: string)
    ensures c == content + header + ListRows(l, row)
  {
    c := content + header;
    c := AppendRows(c, l, row);
  }

  /** The `csvContent +=` steps that write the sections. */
  method WriteSections(dados: Json) returns (csvContent: string)
    ensures csvContent == Sections(dados)
  {
    csvContent := WriteSection("", ReceitasHeader, Receitas(dados), ReceitaRow);
    assert "" + ReceitasHeader == ReceitasHeader;
    csvContent := csvContent + "\n";
    csvContent := WriteSection(csvContent, DespesasHeader, Despesas(dados), DespesaRow);
    csvContent := csvContent + "\n";
    csvContent := WritePlanning(csvContent, Planejamento(dados));
  }

  /** The planning sections' steps, skipped when `planejamento` is falsy. */
  method WritePlanning(content: string, p: Json) returns (csvContent: string)
    ensures csvContent == content + Planning(p)
  {
    csvContent := content;
    if !p.Falsy? {
      csvContent := WriteSection(csvContent, PlanReceitasHeader, PlanReceitas(p), PlanRow);
      csvContent := csvContent + "\n";
      csvContent := WriteSection(csvContent, PlanDespesasHeader, PlanDespesas(p), PlanRow);
      AppendFive(content, PlanReceitasHeader, ListRows(PlanReceitas(p), PlanRow), "\n",
                 PlanDespesasHeader, ListRows(PlanDespesas(p), PlanRow));
    } else {
      assert content + [] == content;
    }
  }

  /** Appending five pieces one by one appends their concatenation. */
  lemma AppendFive(c: string, a: string, b: string, d: string, e: string, f: string)
    ensures c + a + b + d + e + f == c + (a + b + d + e + f)
  {
  }

  /** exportar-csv: `filePath` is what the save dialog returned (None when cancelled),
      `exportadoEm` the text of the export time. */
  method ExportarCsv(dados: Json, filePath: Option<string>, exportadoEm: string) returns (r: ExportResult)
    ensures !StrTruthy(filePath) ==> r == Canceled
    ensures StrTruthy(filePath) && dados.Falsy? ==> r == ExportFailed(NullReceitas)
    ensures StrTruthy(filePath) && !dados.Falsy? && Total(Receitas(dados)).None? ==> r == ExportFailed(ReceitasReduce)
    ensures StrTruthy(filePath) && !dados.Falsy? && Total(Receitas(dados)).Some? && Total(Despesas(dados)).None? ==>
              r == ExportFailed(DespesasReduce)
    ensures StrTruthy(filePath) && !dados.Falsy? && Total(Receitas(dados)).Some? && Total(Despesas(dados)).Some? ==>
              r == Exported(filePath.value, CsvDocument(dados, Total(Receitas(dados)).value,
                                                        Total(Despesas(dados)).value, exportadoEm))
  {
    if !StrTruthy(filePath) {
      return Canceled;
    }
    if dados.Falsy? {
      return ExportFailed(NullReceitas);
    }
    var csvContent := WriteSections(dados);
    var totalReceitas := 0;
    match Receitas(dados) {
      case NotArray => return ExportFailed(ReceitasReduce);
      case Array(items) => totalReceitas := SumValores(items);
      case Missing =>
    }
    var totalDespesas := 0;
    match Despesas(dados) {
      case NotArray => return ExportFailed(DespesasReduce);
      case Array(items) => totalDespesas := SumValores(items);
      case Missing =>
    }
    csvContent := csvContent + Summary(totalReceitas, totalDespesas, exportadoEm);
    r := Exported(filePath.value, csvContent);
  }
}
