/** Reconciliation of the ledger with the remote API (syncService.js): merging a pulled
    payload without duplicates, analysing and purging local duplicates, and pushing the
    ledger to the server. Records are compared by their natural key (Dedup.Key); the
    network replies, the confirmations and the id stamps are inputs. */
module Sync {
  import opened Wrappers
  import opened Text
  import opened JsValues
  import opened Ledger
  import opened Dedup
  import opened Auth
  import DataService

  // ---------------------------------------------------------------------------
  // Payload shape (validarEstruturaDados)

  /** `dados.receitas`, `dados.despesas` and `dados.planejamento`: a non-object has none. */
  function ReceitasOf(j: Json): JsList {
    if j.Object? then j.receitas else Missing
  }

  function DespesasOf(j: Json): JsList {
    if j.Object? then j.despesas else Missing
  }

  function PlanejamentoOf(j: Json): Json {
    if j.Object? then j.planejamento else Falsy
  }

  /** validarEstruturaDados: an object with array receitas and despesas, and a
      planejamento holding array receitas and despesas. */
  predicate ValidarEstruturaDados(j: Json) {
    j.Object? && j.receitas.Array? && j.despesas.Array?
    && j.planejamento.Object? && j.planejamento.receitas.Array? && j.planejamento.despesas.Array?
  }

  // ---------------------------------------------------------------------------
  // Merge of a pulled payload (mesclarDadosInteligente)

  /** The clock and random readings each list's merge draws its fresh ids from. */
  datatype Stamps = Stamps(receitas: IdSupply, despesas: IdSupply,
                           planReceitas: IdSupply, planDespesas: IdSupply)

  /** The totals in the "Merge Completo" notification. */
  datatype MergeTotals = MergeTotals(novos: int, duplicados: int)

  /** The ledger after mesclarDadosInteligente: each list merged with the matching
      incoming list; the planning lists only when `planejamento` is truthy. */
  function MergedLedger(l: Lists, dados: Json, st: Stamps): (r: Lists)
    ensures |l.receitas| <= |r.receitas| && r.receitas[..|l.receitas|] == l.receitas
    ensures |l.despesas| <= |r.despesas| && r.despesas[..|l.despesas|] == l.despesas
    ensures |l.planReceitas| <= |r.planReceitas| && r.planReceitas[..|l.planReceitas|] == l.planReceitas
    ensures |l.planDespesas| <= |r.planDespesas| && r.planDespesas[..|l.planDespesas|] == l.planDespesas
  {
    var p := PlanejamentoOf(dados);
    Lists(Merged(Key, l.receitas, ReceitasOf(dados), st.receitas),
          Merged(Key, l.despesas, DespesasOf(dados), st.despesas),
          Merged(Key, l.planReceitas, ReceitasOf(p), st.planReceitas),
          Merged(Key, l.planDespesas, DespesasOf(p), st.planDespesas))
  }

  /** `novas` for one list: how much the merge grew it, which is the number of incoming
      keys that are neither blank nor already local. */
  function Novas(local: seq<Item>, incoming: JsList, ids: IdSupply): (n: int)
    ensures incoming.Array? ==> n == |KeysOf(Key, incoming.items) - KeysOf(Key, local)|
    ensures !incoming.Array? ==> n == 0
  {
    KeyIgnoresId();
    if incoming.Array? then
      MergedLength(Key, local, incoming.items, ids);
      |Merged(Key, local, incoming, ids)| - |local|
    else 0
  }

  /** `duplicadas` for one list: the incoming records that were not appended, which
      include every blank-key record. */
  function Duplicadas(local: seq<Item>, incoming: JsList, ids: IdSupply): (n: int)
    ensures incoming.Array? ==>
              n == |incoming.items| - |KeysOf(Key, incoming.items) - KeysOf(Key, local)|
              && 0 <= n <= |incoming.items|
    ensures !incoming.Array? ==> n == 0
  {
    if incoming.Array? then
      assert |KeysOf(Key, incoming.items)| <= NonBlankCount(Key, incoming.items);
      |incoming.items| - Novas(local, incoming, ids)
    else 0
  }

  /** The notification totals: new records over all four lists, ignored duplicates over
      the realised receitas and despesas only. */
  function MergeTotalsOf(l: Lists, dados: Json, st: Stamps): (t: MergeTotals)
    ensures t.novos >= 0 && t.duplicados >= 0
  {
    var p := PlanejamentoOf(dados);
    MergeTotals(
      Novas(l.receitas, ReceitasOf(dados), st.receitas) + Novas(l.despesas, DespesasOf(dados), st.despesas)
        + Novas(l.planReceitas, ReceitasOf(p), st.planReceitas)
        + Novas(l.planDespesas, DespesasOf(p), st.planDespesas),
      Duplicadas(l.receitas, ReceitasOf(dados), st.receitas)
        + Duplicadas(l.despesas, DespesasOf(dados), st.despesas))
  }

  /** One list's step of mesclarDadosInteligente: the merged list and its two counters,
      when the incoming value is an array. */
  method MesclarLista(local: seq<Item>, entrada: JsList, ids: IdSupply)
    returns (r: seq<Item>, novas: int, duplicadas: int)
    ensures r == Merged(Key, local, entrada, ids)
    ensures novas == Novas(local, entrada, ids) && duplicadas == Duplicadas(local, entrada, ids)
  {
    if !entrada.Array? {
      return local, 0, 0;
    }
    r := MesclarArraySemDuplicatas(Key, local, entrada, ids);
    novas := |r| - |local|;
    duplicadas := |entrada.items| - novas;
  }

  method MesclarDadosInteligente(f: Financas, dados: Json, st: Stamps) returns (t: MergeTotals)
    requires dados != Falsy
    modifies f
    ensures f.Snapshot() == MergedLedger(old(f.Snapshot()), dados, st)
    ensures t == MergeTotalsOf(old(f.Snapshot()), dados, st)
  {
    var r;
    r, t := MesclarListas(f.Snapshot(), dados, st);
    f.receitas, f.despesas, f.planReceitas, f.planDespesas := r.receitas, r.despesas, r.planReceitas, r.planDespesas;
  }

  /** The four merges of mesclarDadosInteligente on the lists' values, with the totals. */
  method MesclarListas(l: Lists, dados: Json, st: Stamps) returns (r: Lists, t: MergeTotals)
    ensures r == MergedLedger(l, dados, st)
    ensures t == MergeTotalsOf(l, dados, st)
  {
    var receitas, novasR, duplicadasR := MesclarLista(l.receitas, ReceitasOf(dados), st.receitas);
    var despesas, novasD, duplicadasD := MesclarLista(l.despesas, DespesasOf(dados), st.despesas);
    var planReceitas, planDespesas, novasP := MesclarPlanejamento(l, PlanejamentoOf(dados), st);
    r := Lists(receitas, despesas, planReceitas, planDespesas);
    t := MergeTotals(novasR + novasD + novasP, duplicadasR + duplicadasD);
  }

  /** The planning half: both lists merged when `planejamento` is truthy, left alone
      otherwise, with their new records counted. */
  method MesclarPlanejamento(l: Lists, p: Json, st: Stamps)
    returns (planReceitas: seq<Item>, planDespesas: seq<Item>, novas: int)
    ensures planReceitas == Merged(Key, l.planReceitas, ReceitasOf(p), st.planReceitas)
    ensures planDespesas == Merged(Key, l.planDespesas, DespesasOf(p), st.planDespesas)
    ensures novas == Novas(l.planReceitas, ReceitasOf(p), st.planReceitas)
                     + Novas(l.planDespesas, DespesasOf(p), st.planDespesas)
  {
    if p != Falsy {
      var novasR, novasD, ignoradas: int;
      planReceitas, novasR, ignoradas := MesclarLista(l.planReceitas, ReceitasOf(p), st.planReceitas);
      planDespesas, novasD, ignoradas := MesclarLista(l.planDespesas, DespesasOf(p), st.planDespesas);
      novas := novasR + novasD;
    } else {
      planReceitas, planDespesas, novas := l.planReceitas, l.planDespesas, 0;
    }
  }

  /** Merging the same payload again changes no list and reports no new record. */
  lemma ResyncAddsNothing(l: Lists, dados: Json, st: Stamps, st2: Stamps)
    ensures MergedLedger(MergedLedger(l, dados, st), dados, st2) == MergedLedger(l, dados, st)
    ensures MergeTotalsOf(MergedLedger(l, dados, st), dados, st2).novos == 0
  {
    KeyIgnoresId();
    var p := PlanejamentoOf(dados);
    MergeIdempotent(Key, l.receitas, ReceitasOf(dados), st.receitas, st2.receitas);
    MergeIdempotent(Key, l.despesas, DespesasOf(dados), st.despesas, st2.despesas);
    MergeIdempotent(Key, l.planReceitas, ReceitasOf(p), st.planReceitas, st2.planReceitas);
    MergeIdempotent(Key, l.planDespesas, DespesasOf(p), st.planDespesas, st2.planDespesas);
  }

  /** The merge adds no duplicate to any list. */
  lemma MergeKeepsDuplicateCounts(l: Lists, dados: Json, st: Stamps)
    ensures var r := MergedLedger(l, dados, st);
            DuplicateCount(Key, r.receitas) == DuplicateCount(Key, l.receitas)
            && DuplicateCount(Key, r.despesas) == DuplicateCount(Key, l.despesas)
            && DuplicateCount(Key, r.planReceitas) == DuplicateCount(Key, l.planReceitas)
            && DuplicateCount(Key, r.planDespesas) == DuplicateCount(Key, l.planDespesas)
  {
    KeyIgnoresId();
    var p := PlanejamentoOf(dados);
    MergePreservesDuplicates(Key, l.receitas, ReceitasOf(dados), st.receitas);
    MergePreservesDuplicates(Key, l.despesas, DespesasOf(dados), st.despesas);
    MergePreservesDuplicates(Key, l.planReceitas, ReceitasOf(p), st.planReceitas);
    MergePreservesDuplicates(Key, l.planDespesas, DespesasOf(p), st.planDespesas);
  }

  // ---------------------------------------------------------------------------
  // Replacing the ledger (processarDadosSincronizados without merge)

  /** garantirIDsUnicos on an array: every record without a truthy id gets a fresh one. */
  function WithIds(xs: seq<Item>, ids: IdSupply): (r: seq<Item>)
    ensures |r| == |xs|
    ensures forall i :: 0 <= i < |xs| ==>
              IdTruthy(r[i].id) && Content(r[i]) == Content(xs[i]) && (IdTruthy(xs[i].id) ==> r[i] == xs[i])
  {
    var r := seq(|xs|, i requires 0 <= i < |xs| => WithId(xs[i], ids(i)));
    assert forall i :: 0 <= i < |xs| ==> r[i] == WithId(xs[i], ids(i));
    r
  }

  method GarantirIDsUnicos(xs: seq<Item>, ids: IdSupply) returns (r: seq<Item>)
    ensures r == WithIds(xs, ids)
  {
    r := xs;
    var i := 0;
    while i < |xs|
      invariant 0 <= i <= |xs| && |r| == |xs|
      invariant forall j :: 0 <= j < i ==> r[j] == WithId(xs[j], ids(j))
      invariant forall j :: i <= j < |xs| ==> r[j] == xs[j]
    {
      if !IdTruthy(r[i].id) {
        r := r[i := r[i].(id := Some(GerarNovoID(ids(i))))];
      }
      i := i + 1;
    }
    assert forall j :: 0 <= j < |xs| ==> WithIds(xs, ids)[j] == WithId(xs[j], ids(j));
  }

  /** A payload the replacing path can store: its lists are arrays or absent, and its
      planning part is absent or holds two arrays. */
  predicate Replaceable(j: Json) {
    j.Object? && !j.receitas.NotArray? && !j.despesas.NotArray?
    && (j.planejamento.Falsy?
        || (j.planejamento.Object? && j.planejamento.receitas.Array? && j.planejamento.despesas.Array?))
  }

  /** The ledger after replacing it with the payload (`|| []` defaults) and filling ids. */
  function Replaced(dados: Json, st: Stamps): (r: Lists)
    requires Replaceable(dados)
  {
    var p := dados.planejamento;
    Lists(WithIds(DataService.ListOrEmpty(dados.receitas), st.receitas),
          WithIds(DataService.ListOrEmpty(dados.despesas), st.despesas),
          if p.Object? then WithIds(p.receitas.items, st.planReceitas) else [],
          if p.Object? then WithIds(p.despesas.items, st.planDespesas) else [])
  }

  /** After a replacing sync every record of the ledger has a truthy id. */
  lemma ReplacedHasIds(dados: Json, st: Stamps)
    requires Replaceable(dados)
    ensures var r := Replaced(dados, st);
            (forall x :: x in r.receitas ==> IdTruthy(x.id))
            && (forall x :: x in r.despesas ==> IdTruthy(x.id))
            && (forall x :: x in r.planReceitas ==> IdTruthy(x.id))
            && (forall x :: x in r.planDespesas ==> IdTruthy(x.id))
  {
  }

  /** processarDadosSincronizados: merge, or replace and fill ids; then save. */
  method ProcessarDadosSincronizados(f: Financas, dados: Json, mesclar: bool, st: Stamps)
    returns (t: Option<MergeTotals>)
    requires dados != Falsy && (!mesclar ==> Replaceable(dados))
    modifies f
    ensures mesclar ==> f.Snapshot() == MergedLedger(old(f.Snapshot()), dados, st)
                        && t == Some(MergeTotalsOf(old(f.Snapshot()), dados, st))
    ensures !mesclar ==> f.Snapshot() == Replaced(dados, st) && t == None
  {
    if mesclar {
      var totais := MesclarDadosInteligente(f, dados, st);
      t := Some(totais);
    } else {
      f.receitas := if dados.receitas.Array? then dados.receitas.items else [];
      f.despesas := if dados.despesas.Array? then dados.despesas.items else [];
      if dados.planejamento.Object? {
        f.planReceitas, f.planDespesas := dados.planejamento.receitas.items, dados.planejamento.despesas.items;
      } else {
        f.planReceitas, f.planDespesas := [], [];
      }
      f.receitas := GarantirIDsUnicos(f.receitas, st.receitas);
      f.despesas := GarantirIDsUnicos(f.despesas, st.despesas);
      f.planReceitas := GarantirIDsUnicos(f.planReceitas, st.planReceitas);
      f.planDespesas := GarantirIDsUnicos(f.planDespesas, st.planDespesas);
      t := None;
    }
    var _ := DataService.SalvarDados(f);
  }

  // ---------------------------------------------------------------------------
  // Pull (sincronizarDadosAutenticado)

  const NoData: string := "Nenhum dado foi retornado da API"
  const BadShape: string := "Estrutura de dados da API é inválida"

  /** The payload the pull merges, or the message of the error it reports. The "no data"
      check never fires, since a successful fetch is never falsy. */
  function Pulled(authenticated: bool, reply: HttpReply): (r: Result<Json>)
    ensures r.Success? ==> ValidarEstruturaDados(r.value)
    ensures r.Success? <==> authenticated && FetchResult(reply).Success?
                            && ValidarEstruturaDados(FetchResult(reply).value)
  {
    if !authenticated then Failure(NotAuthenticated)
    else match FetchResult(reply)
      case Failure(m) => Failure(m)
      case Success(d) =>
        if d == Falsy then Failure(NoData)
        else if !ValidarEstruturaDados(d) then Failure(BadShape)
        else Success(d)
  }

  datatype PullOutcome = Synced(totals: MergeTotals) | PullFailed(message: string)

  /** Whether a pull ends the session: the fetch failed with a message that reads as an
      expired or rejected login. */
  predicate PullLogsOut(authenticated: bool, reply: HttpReply) {
    authenticated && FetchResult(reply).Failure? && AuthError(FetchResult(reply).error)
  }

  /** sincronizarDadosAutenticado: fetch, check, then merge; any error is reported and
      leaves the ledger untouched; an authentication error also ends the session. */
  method SincronizarDadosAutenticado(f: Financas, s: Session, reply: HttpReply, st: Stamps)
    returns (o: PullOutcome)
    modifies f, s
    ensures var p := Pulled(old(s.IsAuthenticated()), reply);
            (p.Failure? ==> o == PullFailed(p.error) && f.Snapshot() == old(f.Snapshot()))
            && (p.Success? ==> o == Synced(MergeTotalsOf(old(f.Snapshot()), p.value, st))
                               && f.Snapshot() == MergedLedger(old(f.Snapshot()), p.value, st))
    ensures PullLogsOut(old(s.IsAuthenticated()), reply) ==> s.Cleared()
    ensures !PullLogsOut(old(s.IsAuthenticated()), reply) ==> unchanged(s)
  {
    var dadosAPI := s.SyncWithAPI(reply);
    if dadosAPI.Failure? {
      return PullFailed(dadosAPI.error);
    }
    if dadosAPI.value == Falsy {
      return PullFailed(NoData);
    }
    if !ValidarEstruturaDados(dadosAPI.value) {
      return PullFailed(BadShape);
    }
    var t := ProcessarDadosSincronizados(f, dadosAPI.value, true, st);
    o := Synced(t.value);
  }

  /** The sync button: nothing happens unless the session is authenticated and the user
      confirms; then the pull runs with its outcome, ledger and session. */
  method BotaoSincronizar(f: Financas, s: Session, confirmacao: bool, reply: HttpReply, st: Stamps)
    returns (o: Option<PullOutcome>)
    modifies f, s
    ensures !(old(s.IsAuthenticated()) && confirmacao) ==>
              o == None && f.Snapshot() == old(f.Snapshot()) && unchanged(s)
    ensures var p := Pulled(true, reply);
            old(s.IsAuthenticated()) && confirmacao ==>
              (p.Failure? ==> o == Some(PullFailed(p.error)) && f.Snapshot() == old(f.Snapshot()))
              && (p.Success? ==> o == Some(Synced(MergeTotalsOf(old(f.Snapshot()), p.value, st)))
                                 && f.Snapshot() == MergedLedger(old(f.Snapshot()), p.value, st))
    ensures old(s.IsAuthenticated()) && confirmacao && PullLogsOut(true, reply) ==> s.Cleared()
    ensures old(s.IsAuthenticated()) && confirmacao && !PullLogsOut(true, reply) ==> unchanged(s)
  {
    if !s.IsAuthenticated() || !confirmacao {
      return None;
    }
    var r := SincronizarDadosAutenticado(f, s, reply, st);
    o := Some(r);
  }

  /** A 401 reply to the pull is reported as an expired session, which ends the session and
      leaves the ledger as it was. */
  lemma ExpiredPullLogsOut(reply: HttpReply)
    requires reply.Reply? && reply.status == 401
    ensures Pulled(true, reply) == Failure(Expired)
    ensures PullLogsOut(true, reply)
  {
    ExpiredIsAuthError(reply);
  }

  /** A successful pull never ends the session. */
  lemma PulledKeepsSession(reply: HttpReply)
    requires Pulled(true, reply).Success?
    ensures !PullLogsOut(true, reply)
  {
  }

  // ---------------------------------------------------------------------------
  // Local duplicates (analisarDuplicatas, removerDuplicatasLocais)

  datatype AnaliseLocal = AnaliseLocal(receitas: Analise, despesas: Analise,
                                       planejamentoReceitas: Analise, planejamentoDespesas: Analise,
                                       duplicatas: nat, precisaLimpeza: bool)

  /** What one list's report says: its length, its distinct keys and its surplus. */
  predicate Describes(a: Analise, xs: seq<Item>) {
    a.total == |xs| && a.unicos == |KeysOf(Key, xs)| && a.duplicatas == DuplicateCount(Key, xs)
  }

  /** The surplus records of the whole ledger. */
  function Surplus(l: Lists): nat {
    DuplicateCount(Key, l.receitas) + DuplicateCount(Key, l.despesas)
    + DuplicateCount(Key, l.planReceitas) + DuplicateCount(Key, l.planDespesas)
  }

  /** analisarDuplicatas: the four reports and their total surplus. */
  method AnalisarDuplicatas(f: Financas) returns (a: AnaliseLocal)
    ensures Describes(a.receitas, f.receitas) && Describes(a.despesas, f.despesas)
    ensures Describes(a.planejamentoReceitas, f.planReceitas)
    ensures Describes(a.planejamentoDespesas, f.planDespesas)
    ensures a.duplicatas == Surplus(f.Snapshot())
    ensures a.precisaLimpeza <==> a.duplicatas > 0
  {
    var r := AnalisarDuplicatasArray(Key, f.receitas);
    var d := AnalisarDuplicatasArray(Key, f.despesas);
    var pr := AnalisarDuplicatasArray(Key, f.planReceitas);
    var pd := AnalisarDuplicatasArray(Key, f.planDespesas);
    var total := r.duplicatas + d.duplicatas + pr.duplicatas + pd.duplicatas;
    a := AnaliseLocal(r, d, pr, pd, total, total > 0);
  }

  /** One list's line of the purge report. */
  datatype Contagem = Contagem(removidas: int, mantidas: int)

  datatype Relatorio = Relatorio(receitas: Contagem, despesas: Contagem,
                                 planejamentoReceitas: Contagem, planejamentoDespesas: Contagem)

  function TotalRemovidas(r: Relatorio): int {
    r.receitas.removidas + r.despesas.removidas + r.planejamentoReceitas.removidas
    + r.planejamentoDespesas.removidas
  }

  /** The ledger after the purge: each list without its duplicates. */
  function Purged(l: Lists): Lists {
    Lists(Deduped(Key, l.receitas), Deduped(Key, l.despesas),
          Deduped(Key, l.planReceitas), Deduped(Key, l.planDespesas))
  }

  /** One list's report line: how many records went and how many remain. */
  function Linha(xs: seq<Item>): (c: Contagem)
    ensures c.removidas == |xs| - |Deduped(Key, xs)| == DuplicateCount(Key, xs)
    ensures c.mantidas == |Deduped(Key, xs)|
  {
    AnalysisMatchesRemoval(Key, xs);
    Contagem(|xs| - |Deduped(Key, xs)|, |Deduped(Key, xs)|)
  }

  /** The report of removerDuplicatasLocais for a ledger: one line per list, and the
      removed records add up to the ledger's surplus. */
  function Report(l: Lists): (rel: Relatorio)
    ensures rel.receitas == Linha(l.receitas) && rel.despesas == Linha(l.despesas)
    ensures rel.planejamentoReceitas == Linha(l.planReceitas)
    ensures rel.planejamentoDespesas == Linha(l.planDespesas)
    ensures TotalRemovidas(rel) == Surplus(l)
  {
    Relatorio(Linha(l.receitas), Linha(l.despesas), Linha(l.planReceitas), Linha(l.planDespesas))
  }

  /** One list's step of removerDuplicatasLocais: the purged list and its report line. */
  method PurgarLista(xs: seq<Item>) returns (r: seq<Item>, c: Contagem)
    ensures r == Deduped(Key, xs) && c == Linha(xs)
  {
    var originais := |xs|;
    r := RemoverDuplicatasArray(Key, xs);
    c := Contagem(originais - |r|, |r|);
  }

  /** removerDuplicatasLocais: purges the four lists and reports, per list, how many
      records remain and how many went. */
  method RemoverDuplicatasLocais(f: Financas) returns (rel: Relatorio)
    modifies f
    ensures f.Snapshot() == Purged(old(f.Snapshot()))
    ensures rel == Report(old(f.Snapshot()))
  {
    var receitas, rr := PurgarLista(f.receitas);
    var despesas, rd := PurgarLista(f.despesas);
    var planReceitas, rpr := PurgarLista(f.planReceitas);
    var planDespesas, rpd := PurgarLista(f.planDespesas);
    rel := Relatorio(rr, rd, rpr, rpd);
    f.receitas, f.despesas, f.planReceitas, f.planDespesas := receitas, despesas, planReceitas, planDespesas;
    var _ := DataService.SalvarDados(f);
  }

  /** Purging leaves no duplicate in the ledger, and purging again changes nothing. */
  lemma PurgedClean(l: Lists)
    ensures var p := Purged(l);
            Surplus(p) == 0 && Purged(p) == p
            && DuplicateCount(Key, p.receitas) == 0 && DuplicateCount(Key, p.despesas) == 0
            && DuplicateCount(Key, p.planReceitas) == 0 && DuplicateCount(Key, p.planDespesas) == 0
  {
    DedupedIdempotent(Key, l.receitas);
    DedupedIdempotent(Key, l.despesas);
    DedupedIdempotent(Key, l.planReceitas);
    DedupedIdempotent(Key, l.planDespesas);
    DedupedNoDuplicates(Key, l.receitas);
    DedupedNoDuplicates(Key, l.despesas);
    DedupedNoDuplicates(Key, l.planReceitas);
    DedupedNoDuplicates(Key, l.planDespesas);
  }

  /** The purge button: analyses first; with no duplicate nothing happens, otherwise the
      purge runs once the user confirms, and removes exactly the announced number. */
  method BotaoRemoverDuplicatas(f: Financas, confirmacao: bool) returns (anunciadas: nat, rel: Option<Relatorio>)
    modifies f
    ensures anunciadas == Surplus(old(f.Snapshot()))
    ensures rel.Some? <==> anunciadas > 0 && confirmacao
    ensures rel.Some? ==> f.Snapshot() == Purged(old(f.Snapshot())) && rel.value == Report(old(f.Snapshot()))
                          && TotalRemovidas(rel.value) == anunciadas
    ensures rel.None? ==> f.Snapshot() == old(f.Snapshot())
  {
    var analise := AnalisarDuplicatas(f);
    anunciadas := analise.duplicatas;
    if anunciadas == 0 || !confirmacao {
      return anunciadas, None;
    }
    var r := RemoverDuplicatasLocais(f);
    rel := Some(r);
  }

  // ---------------------------------------------------------------------------
  // Push (salvarDadosNaNuvem, validarDadosParaEnvio, verificarDadosParaEnvio)

  datatype WireReceita = WireReceita(descricao: Option<string>, valor: Num, data: Option<string>, categoria: string)

  datatype WireDespesa = WireDespesa(descricao: Option<string>, categoria: string, valor: Num,
                                     data: Option<string>, parcelas: Num, taxaJuros: Num)

  datatype WirePlanReceita = WirePlanReceita(descricao: Option<string>, valor: Num, categoria: string)

  datatype WirePlanDespesa = WirePlanDespesa(descricao: Option<string>, categoria: string, valorTotal: Num,
                                             valor: Num, parcelada: bool, numParcelas: Num,
                                             parcelaAtual: Num, taxaJuros: Num)

  /** The request body salvarDadosNaNuvem builds. */
  datatype Payload = Payload(receitas: seq<WireReceita>, despesas: seq<WireDespesa>,
                             planReceitas: seq<WirePlanReceita>, planDespesas: seq<WirePlanDespesa>)

  /** `parseFloat(a) || 0` on an amount the model holds as a number. */
  function Amount(a: Num): Num {
    OrNum(a, Int(0))
  }

  function ToWireReceita(x: Item): WireReceita {
    WireReceita(x.descricao, Amount(x.valor), x.data, OrEmpty(x.categoria))
  }

  function ToWireDespesa(x: Item): WireDespesa {
    WireDespesa(x.descricao, OrEmpty(x.categoria), Amount(x.valor), x.data,
                OrNum(x.parcelas, Int(1)), Amount(x.taxaJuros))
  }

  function ToWirePlanReceita(x: Item): WirePlanReceita {
    WirePlanReceita(x.descricao, Amount(x.valor), OrEmpty(x.categoria))
  }

  function ToWirePlanDespesa(x: Item): WirePlanDespesa {
    WirePlanDespesa(x.descricao, if StrTruthy(x.categoria) then x.categoria.value else "outros",
                    OrNum(OrNum(x.valorTotal, x.valor), Int(0)), Amount(x.valor), x.parcelada,
                    OrNum(x.numParcelas, Int(1)), OrNum(x.parcelaAtual, Int(1)), Amount(x.taxaJuros))
  }

  /** The payload: one wire record per ledger record, list by list, in order. */
  function ToWire(l: Lists): (p: Payload)
    ensures |p.receitas| == |l.receitas| && |p.despesas| == |l.despesas|
    ensures |p.planReceitas| == |l.planReceitas| && |p.planDespesas| == |l.planDespesas|
    ensures forall i :: 0 <= i < |l.receitas| ==> p.receitas[i].valor.Int? && p.receitas[i].descricao == l.receitas[i].descricao
    ensures forall i :: 0 <= i < |l.despesas| ==> p.despesas[i].valor.Int? && p.despesas[i].descricao == l.despesas[i].descricao
  {
    Payload(seq(|l.receitas|, i requires 0 <= i < |l.receitas| => ToWireReceita(l.receitas[i])),
            seq(|l.despesas|, i requires 0 <= i < |l.despesas| => ToWireDespesa(l.despesas[i])),
            seq(|l.planReceitas|, i requires 0 <= i < |l.planReceitas| => ToWirePlanReceita(l.planReceitas[i])),
            seq(|l.planDespesas|, i requires 0 <= i < |l.planDespesas| => ToWirePlanDespesa(l.planDespesas[i])))
  }

  /** A wire record passes validation: truthy description, a number (NaN included) for
      the amount, truthy date. */
  predicate WireOk(descricao: Option<string>, valor: Num, data: Option<string>) {
    StrTruthy(descricao) && !valor.Undefined? && StrTruthy(data)
  }

  ghost predicate PayloadValid(p: Payload) {
    (forall i :: 0 <= i < |p.receitas| ==> WireOk(p.receitas[i].descricao, p.receitas[i].valor, p.receitas[i].data))
    && (forall i :: 0 <= i < |p.despesas| ==> WireOk(p.despesas[i].descricao, p.despesas[i].valor, p.despesas[i].data))
  }

  /** validarDadosParaEnvio: the loops stop at the first invalid receita or despesa. */
  method ValidarDadosParaEnvio(p: Payload) returns (ok: bool)
    ensures ok <==> PayloadValid(p)
  {
    var i := 0;
    while i < |p.receitas|
      invariant 0 <= i <= |p.receitas|
      invariant forall k :: 0 <= k < i ==> WireOk(p.receitas[k].descricao, p.receitas[k].valor, p.receitas[k].data)
    {
      var receita := p.receitas[i];
      if !WireOk(receita.descricao, receita.valor, receita.data) {
        return false;
      }
      i := i + 1;
    }
    var j := 0;
    while j < |p.despesas|
      invariant 0 <= j <= |p.despesas|
      invariant forall k :: 0 <= k < j ==> WireOk(p.despesas[k].descricao, p.despesas[k].valor, p.despesas[k].data)
    {
      var despesa := p.despesas[j];
      if !WireOk(despesa.descricao, despesa.valor, despesa.data) {
        return false;
      }
      j := j + 1;
    }
    return true;
  }

  /** Every realised record carries a truthy description and date. */
  ghost predicate Sendable(l: Lists) {
    (forall x :: x in l.receitas ==> StrTruthy(x.descricao) && StrTruthy(x.data))
    && (forall x :: x in l.despesas ==> StrTruthy(x.descricao) && StrTruthy(x.data))
  }

  /** Since the mapping always yields a number, the ledger's payload is valid exactly when
      every receita and despesa has a truthy description and date; planning records are
      never checked. */
  lemma WireValidIff(l: Lists)
    ensures PayloadValid(ToWire(l)) <==> Sendable(l)
  {
    var p := ToWire(l);
    if PayloadValid(p) {
      forall x | x in l.receitas
        ensures StrTruthy(x.descricao) && StrTruthy(x.data)
      {
        var i :| 0 <= i < |l.receitas| && l.receitas[i] == x;
        assert WireOk(p.receitas[i].descricao, p.receitas[i].valor, p.receitas[i].data);
      }
      forall x | x in l.despesas
        ensures StrTruthy(x.descricao) && StrTruthy(x.data)
      {
        var i :| 0 <= i < |l.despesas| && l.despesas[i] == x;
        assert WireOk(p.despesas[i].descricao, p.despesas[i].valor, p.despesas[i].data);
      }
    }
    if Sendable(l) {
      forall i | 0 <= i < |p.receitas|
        ensures WireOk(p.receitas[i].descricao, p.receitas[i].valor, p.receitas[i].data)
      {
        assert l.receitas[i] in l.receitas;
      }
      forall i | 0 <= i < |p.despesas|
        ensures WireOk(p.despesas[i].descricao, p.despesas[i].valor, p.despesas[i].data)
      {
        assert l.despesas[i] in l.despesas;
      }
    }
  }

  /** How the push ended. */
  datatype PushOutcome =
    | PushUnauthenticated           // thrown to the caller
    | Invalid                       // local data rejected, no request sent
    | TransportError(message: string)
    | SessionExpired                // 401: logged out
    | Rejected(message: string)     // any status other than 200 and 201
    | Saved

  /** The value salvarDadosNaNuvem resolves to, or the error it throws. */
  function PushResult(o: PushOutcome): (r: Result<bool>)
    ensures r.Success? && r.value <==> o.Saved?
    ensures r.Failure? <==> o.PushUnauthenticated?
  {
    match o
    case PushUnauthenticated => Failure(NotAuthenticated)
    case Saved => Success(true)
    case _ => Success(false)
  }

  /** The outcome of a sent request, from the bridge's reply. */
  function PushClassify(reply: HttpReply): (o: PushOutcome)
    ensures o.Saved? <==> reply.Reply? && (reply.status == 200 || reply.status == 201)
    ensures o.SessionExpired? <==> reply.Reply? && reply.status == 401
    ensures o != PushUnauthenticated && o != Invalid
  {
    match reply
    case Thrown(m) => TransportError(m)
    case Failed(e) => TransportError("Erro na requisição: " + StrText(e))
    case Reply(status, _, data) =>
      if status == 401 then SessionExpired
      else if status != 200 && status != 201 then
        Rejected("Erro " + IntText(status) + ": "
                 + (if data.Object? && StrTruthy(data.message) then data.message.value
                    else "Erro desconhecido no servidor"))
      else Saved
  }

  /** salvarDadosNaNuvem: throws when unauthenticated; builds and validates the payload,
      and sends it only when valid; a 401 logs out. The ledger is never modified. */
  method SalvarDadosNaNuvem(f: Financas, s: Session, reply: HttpReply) returns (o: PushOutcome, sent: Option<Payload>)
    modifies s
    ensures !old(s.IsAuthenticated()) ==> o == PushUnauthenticated && sent == None
    ensures old(s.IsAuthenticated()) && !PayloadValid(ToWire(f.Snapshot())) ==> o == Invalid && sent == None
    ensures old(s.IsAuthenticated()) && PayloadValid(ToWire(f.Snapshot())) ==>
              sent == Some(ToWire(f.Snapshot())) && o == PushClassify(reply)
    ensures o == SessionExpired ==> s.Cleared()
    ensures o != SessionExpired ==> unchanged(s)
  {
    if !s.IsAuthenticated() {
      return PushUnauthenticated, None;
    }
    var dadosParaEnvio := ToWire(f.Snapshot());
    var valido := ValidarDadosParaEnvio(dadosParaEnvio);
    if !valido {
      return Invalid, None;
    }
    sent := Some(dadosParaEnvio);
    o := PushClassify(reply);
    if o == SessionExpired {
      s.Logout();
    }
  }

  /** The counts shown before a push. */
  datatype Stats = Stats(receitas: nat, despesas: nat, planejamentoReceitas: nat,
                         planejamentoDespesas: nat, total: nat, temDados: bool)

  /** verificarDadosParaEnvio: there is something to send exactly when some list is not
      empty. */
  function VerificarDadosParaEnvio(f: Financas): (st: Stats)
    reads f
    ensures st.total == st.receitas + st.despesas + st.planejamentoReceitas + st.planejamentoDespesas
    ensures st.temDados <==> f.receitas != [] || f.despesas != [] || f.planReceitas != [] || f.planDespesas != []
  {
    var total := |f.receitas| + |f.despesas| + |f.planReceitas| + |f.planDespesas|;
    Stats(|f.receitas|, |f.despesas|, |f.planReceitas|, |f.planDespesas|, total, total > 0)
  }

  /** The save-to-cloud button: nothing is sent unless the session is authenticated, some
      list holds a record, and the user confirms; then the push runs with its outcome and
      session. */
  method BotaoSalvarNaNuvem(f: Financas, s: Session, confirmacao: bool, reply: HttpReply)
    returns (o: Option<PushOutcome>)
    modifies s
    ensures !(old(s.IsAuthenticated()) && VerificarDadosParaEnvio(f).temDados && confirmacao) ==>
              o == None && unchanged(s)
    ensures old(s.IsAuthenticated()) && VerificarDadosParaEnvio(f).temDados && confirmacao ==>
              o == Some(PushOf(f.Snapshot(), reply))
    ensures o == Some(SessionExpired) ==> s.Cleared()
    ensures o != Some(SessionExpired) ==> unchanged(s)
  {
    if !s.IsAuthenticated() {
      return None;
    }
    var stats := VerificarDadosParaEnvio(f);
    if !stats.temDados || !confirmacao {
      return None;
    }
    var r, _ := SalvarDadosNaNuvem(f, s, reply);
    o := Some(r);
  }

  /** The outcome of an authenticated push of ledger l. */
  ghost function PushOf(l: Lists, reply: HttpReply): (o: PushOutcome)
    ensures o != PushUnauthenticated
    ensures o == Invalid <==> !PayloadValid(ToWire(l))
  {
    if PayloadValid(ToWire(l)) then PushClassify(reply) else Invalid
  }

  /** An authenticated push is saved exactly when the payload is valid and the server
      answers 200 or 201, and ends the session exactly when the payload is valid and the
      server answers 401. */
  lemma PushOfOutcomes(l: Lists, reply: HttpReply)
    ensures PushOf(l, reply) == Saved <==>
              PayloadValid(ToWire(l)) && reply.Reply? && (reply.status == 200 || reply.status == 201)
    ensures PushOf(l, reply) == SessionExpired <==>
              PayloadValid(ToWire(l)) && reply.Reply? && reply.status == 401
  {
  }
}
