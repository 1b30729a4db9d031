/** Two handlers of the Electron main process (index.js): the rule that decides which
    windows the app may open itself, and the defaults carregar-dados fills into the
    document read from disk. The file system is an input: whether the data file exists
    and what JSON.parse made of it. */
module MainProcess {
  import opened Wrappers
  import opened Text
  import opened JsValues
  import Ledger
  import DataService

  // ---------------------------------------------------------------------------
  // setWindowOpenHandler

  /** The handler's answer: open the window in the app, or deny it after handing the URL
      to the system browser. */
  datatype WindowOpen = Allow | Deny(openedExternally: string)

  const FilePrefix: string := "file://"
  const HttpLocal: string := "http://localhost"
  const HttpsLocal: string := "https://localhost"

  /** The allow-list as written: three prefixes, compared character by character. */
  predicate AppUrl(url: string) {
    StartsWith(url, FilePrefix) || StartsWith(url, HttpLocal) || StartsWith(url, HttpsLocal)
  }

  /** The window-open handler as written. */
  function WindowOpenAction(url: string): (r: WindowOpen)
    ensures r == Allow <==> AppUrl(url)
    ensures r.Deny? ==> r.openedExternally == url
  {
    if StartsWith(url, FilePrefix) || StartsWith(url, HttpLocal) || StartsWith(url, HttpsLocal) then Allow
    else Deny(url)
  }

  /** What may follow a port's digits: the end of the URL, or its path, query or fragment. */
  predicate PortRest(s: string)
    decreases |s|
  {
    s == [] || s[0] in "/?#" || (IsDigit(s[0]) && PortRest(s[1..]))
  }

  /** What may follow the host name `localhost` when it is the whole host: nothing, a path,
      a query, a fragment, or a port. */
  predicate HostEnds(rest: string) {
    rest == [] || rest[0] in "/?#" || (rest[0] == ':' && PortRest(rest[1..]))
  }

  /** A URL on the given scheme whose host is exactly `localhost`. */
  predicate OnLocalhost(url: string, prefix: string) {
    StartsWith(url, prefix) && HostEnds(url[|prefix|..])
  }

  /** The handler as its comment means it: only the app's own pages, that is local files
      and pages served by `localhost` itself. */
  function WindowOpenIntended(url: string): (r: WindowOpen)
    ensures r == Allow <==> StartsWith(url, FilePrefix) || OnLocalhost(url, HttpLocal) || OnLocalhost(url, HttpsLocal)
    ensures r.Deny? ==> r.openedExternally == url
  {
    if StartsWith(url, FilePrefix) || OnLocalhost(url, HttpLocal) || OnLocalhost(url, HttpsLocal) then Allow
    else Deny(url)
  }

  /** The intended rule only narrows the written one: whatever it allows, the written
      handler allows too. */
  lemma IntendedNarrower(url: string)
    ensures WindowOpenIntended(url) == Allow ==> WindowOpenAction(url) == Allow
  {
  }

  /** Both rules allow every page served by localhost, on either scheme. */
  lemma {:induction false} LocalPagesAllowed(rest: string)
    requires HostEnds(rest)
    ensures WindowOpenAction(HttpLocal + rest) == Allow && WindowOpenIntended(HttpLocal + rest) == Allow
    ensures WindowOpenAction(HttpsLocal + rest) == Allow && WindowOpenIntended(HttpsLocal + rest) == Allow
  {
    assert (HttpLocal + rest)[..|HttpLocal|] == HttpLocal;
    assert (HttpLocal + rest)[|HttpLocal|..] == rest;
    assert (HttpsLocal + rest)[..|HttpsLocal|] == HttpsLocal;
    assert (HttpsLocal + rest)[|HttpsLocal|..] == rest;
  }

  /** A host that merely begins with "localhost" passes the written check, though it is
      another machine; the intended rule sends it to the browser. */
  lemma LookalikeHostAllowed()
    ensures WindowOpenAction(HttpLocal + ".example.com") == Allow
    ensures WindowOpenIntended(HttpLocal + ".example.com") == Deny(HttpLocal + ".example.com")
  {
    var url := HttpLocal + ".example.com";
    assert url[..|HttpLocal|] == HttpLocal;
    assert url[|HttpLocal|..] == ".example.com";
    assert url[0] != FilePrefix[0];
    assert url[4] != HttpsLocal[4];
  }

  /** So does a URL whose user name is "localhost", with any digits as its password: its
      host is the one after '@'. */
  lemma UserinfoHostAllowed(password: string, host: string)
    requires AllDigits(password)
    ensures var url := HttpLocal + (":" + password + "@" + host);
            WindowOpenAction(url) == Allow && WindowOpenIntended(url) == Deny(url)
  {
    var rest := ":" + password + "@" + host;
    var url := HttpLocal + rest;
    assert url[..|HttpLocal|] == HttpLocal;
    assert url[|HttpLocal|..] == rest;
    assert rest[1..] == password + ("@" + host);
    DigitsThenOther(password, "@" + host);
    assert url[0] == HttpLocal[0] && url[4] == HttpLocal[4];
  }

  /** A port followed by anything but a path, query or fragment is not a port. */
  lemma {:induction false} DigitsThenOther(digits: string, rest: string)
    requires AllDigits(digits)
    requires rest != [] && rest[0] !in "/?#" && !IsDigit(rest[0])
    ensures !PortRest(digits + rest)
  {
    if digits != [] {
      assert (digits + rest)[1..] == digits[1..] + rest;
      DigitsThenOther(digits[1..], rest);
    } else {
      assert digits + rest == rest;
    }
  }

  // ---------------------------------------------------------------------------
  // carregar-dados

  /** The data file as the handler finds it: absent, failing to read or parse (with the
      error's message), parsed to `null`, or parsed to another value. */
  datatype DataFile = NoFile | Unreadable(message: string) | ParsedNull | Parsed(dados: Json)

  /** The TypeError reading `planejamento` of a file that holds `null`. */
  const NullPlanejamento: string := "Cannot read properties of null (reading 'planejamento')"

  /** `{ receitas: [], despesas: [] }` */
  const EmptyPlanejamento: Json := Object(false, None, Falsy, Array([]), Array([]), Falsy)

  /** `list || []` as an assignment: an absent or falsy list becomes an empty array. */
  function OrEmptyList(l: JsList): (r: JsList)
    ensures l.Missing? ==> r == Array([])
    ensures !l.Missing? ==> r == l
  {
    if l.Missing? then Array([]) else l
  }

  /** The parsed document after the handler's fill-in: a falsy `planejamento` becomes two
      empty lists, an object `planejamento` gets its absent lists, and nothing else is
      touched. Setting a property on a primitive does nothing, as in sloppy-mode
      JavaScript. */
  function Filled(j: Json): (r: Json)
    ensures !j.Object? ==> r == j
    ensures j.Object? ==> r.Object? && r.successFalse == j.successFalse && r.message == j.message
                          && r.data == j.data && r.receitas == j.receitas && r.despesas == j.despesas
    ensures j.Object? && j.planejamento.Falsy? ==> r.planejamento == EmptyPlanejamento
    ensures j.Object? && j.planejamento.Scalar? ==> r.planejamento == j.planejamento
    ensures j.Object? && j.planejamento.Object? ==>
              var p, q := j.planejamento, r.planejamento;
              q.Object? && q.receitas.Array? == !p.receitas.NotArray? && q.despesas.Array? == !p.despesas.NotArray?
              && (p.receitas.Array? ==> q.receitas == p.receitas) && (p.despesas.Array? ==> q.despesas == p.despesas)
              && q.planejamento == p.planejamento
  {
    if !j.Object? then j
    else
      match j.planejamento
      case Falsy => j.(planejamento := EmptyPlanejamento)
      case Scalar => j
      case Object(_, _, _, pr, pd, _) =>
        j.(planejamento := j.planejamento.(receitas := OrEmptyList(pr), despesas := OrEmptyList(pd)))
  }

  /** The fill-in changes no list the renderer keeps: a document it can hold stays one,
      and loading it gives the same ledger. */
  lemma FilledKeepsLedger(j: Json)
    requires DataService.Representable(j)
    ensures DataService.Representable(Filled(j))
    ensures DataService.Normalised(Filled(j)) == DataService.Normalised(j)
  {
  }

  /** After the fill-in, an object document has both planning lists, whatever
      `planejamento` held unless it was a truthy non-object. */
  lemma FilledHasPlanning(j: Json)
    requires j.Object? && !j.planejamento.Scalar?
    requires j.planejamento.Object? ==> !j.planejamento.receitas.NotArray? && !j.planejamento.despesas.NotArray?
    ensures Filled(j).planejamento.Object?
    ensures Filled(j).planejamento.receitas.Array? && Filled(j).planejamento.despesas.Array?
  {
  }

  /** The carregar-dados handler. */
  method CarregarDados(file: DataFile) returns (reply: DataService.LoadReply)
    ensures file.NoFile? ==> reply == DataService.LoadOk(LedgerJson([], [], [], []))
    ensures file.Unreadable? ==> reply == DataService.LoadFailed(Some(file.message))
    ensures file.ParsedNull? ==> reply == DataService.LoadFailed(Some(NullPlanejamento))
    ensures file.Parsed? ==> reply == DataService.LoadOk(Filled(file.dados))
  {
    match file {
      case NoFile =>
        return DataService.LoadOk(LedgerJson([], [], [], []));
      case Unreadable(message) =>
        return DataService.LoadFailed(Some(message));
      case ParsedNull =>
        return DataService.LoadFailed(Some(NullPlanejamento));
      case Parsed(dados) =>
        var dadosObj := dados;
        if dadosObj.Object? {
          if dadosObj.planejamento.Falsy? {
            dadosObj := dadosObj.(planejamento := EmptyPlanejamento);
          } else if dadosObj.planejamento.Object? {
            if dadosObj.planejamento.receitas.Missing? {
              dadosObj := dadosObj.(planejamento := dadosObj.planejamento.(receitas := Array([])));
            }
            if dadosObj.planejamento.despesas.Missing? {
              dadosObj := dadosObj.(planejamento := dadosObj.planejamento.(despesas := Array([])));
            }
          }
        }
        return DataService.LoadOk(dadosObj);
    }
  }

  /** With no data file the renderer starts from four empty lists. */
  lemma NoFileEmptyLedger()
    ensures DataService.Representable(LedgerJson([], [], [], []))
    ensures DataService.Normalised(LedgerJson([], [], [], [])) == Ledger.Lists([], [], [], [])
  {
    DataService.LoadSaved(Ledger.Lists([], [], [], []));
  }
}
