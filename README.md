# myFinanceHelper ledger core in Dafny

This project models the core of myFinanceHelper, an Electron desktop app for personal finances. The user
records four lists in one ledger: incomes (`receitas`), expenses (`despesas`), planned incomes and planned
expenses (`planejamento.receitas`, `planejamento.despesas`). The project has two halves.

- **The renderer's ledger logic.**
  - The ledger object `financas` with its load and save calls.
  - The entry forms and their income classifier.
  - Deletion, both by the id read from the page and by the id of a record.
  - The installment plans, which turn a planned expense into monthly expenses.
  - The date helpers.
  - The authenticated session kept in `localStorage`.
  - Cloud synchronisation: the pull and its duplicate-free merge, the duplicate analysis and purge, and the push with its payload validation.
- **The main process's handlers.**
  - The rule that decides which windows the app may open itself.
  - The defaults `carregar-dados` fills into the saved document.
  - The CSV export.
  - The backup with its ten-file retention.

Each source file is one module: `Dedup`, `Sync`, `Auth`, `Parcelas`, `DataService`, `UiManager`, `Renderer`,
`Forms`, `Dates`, `MainProcess`, `CsvExport`, `Backups`. The shared modules are:

- `JsValues`: the JavaScript values records are made of. Numbers are `Undefined`, `NaN` or an integer. Ids are numeric or string. Lists are an array, absent, or not an array.
- `Ledger`: the class `Financas`, whose four `seq` fields the handlers reassign.
- `Text`: lower-casing, trimming, substring search, splitting and number text.
- `Subsequences`: "in the same order" as a predicate.

Where the source changes state, the model does too.

- The ledger and the session are classes.
- The handlers are methods with `modifies` clauses.
- Each loop of the source is a `while`/`for` loop proved against a specification function, such as `Dedup.Merged`, `Dedup.Deduped` or `CsvExport.Sum`.

Pure computations are functions, and the properties relating them are lemmas. The clock, random numbers,
date parsing, confirmation dialogs and HTTP or file-system replies are parameters of the methods that use them.

Four behaviours of the code that are easy to misread:

- The merge of pulled data drops incoming records whose key is blank (`||`). Local records with a blank key stay where they are.
- The pull's "no data returned" check is present in `Sync.Pulled` and `Sync.SincronizarDadosAutenticado`, but it never fires: `syncWithAPI` already rejects an empty reply, so a successful fetch is never falsy (`Auth.FetchResult`).
- The guard of `criarDespesaProximoMes` compares `origemParcela` with the base plan's id. A copy keeps the base's own `origemParcela`, so a second call in the same month adds a second copy (`Parcelas.CopyNotSeenByGuard`).
- The "última parcela" branch of `avancarParcela` is reached only when the counters are not both numbers (`Parcelas.LastBranchNeedsNonNumber`, `Parcelas.LastBranchWithNaN`).

## Model

| member | source | states |
|---|---|---|
| JsValues.LooseEqualsOwnText | src/view/js/uiManager.js:110-112 | an id is loosely equal (`!=` is false) to the text it renders as in a `data-id` attribute |
| Ledger.Financas.constructor | src/view/js/dataService.js:3-7 | the renderer starts with four empty lists |
| Ledger.FindById | src/view/js/renderer.js:87 | `findIndex` by strict id equality: the first position holding the id, or none when no record has it |
| Ledger.WithReceita | src/view/js/formService.js:60 | pushing an income appends exactly that record and leaves the other three lists as they were |
| Ledger.WithDespesa | src/view/js/formService.js:98 | pushing an expense appends exactly that record and changes nothing else |
| Ledger.WithPlanReceita | src/view/js/formService.js:128 | pushing a planned income appends exactly that record and changes nothing else |
| Ledger.WithPlanDespesa | src/view/js/formService.js:194 | pushing a planned expense appends exactly that record and changes nothing else |
| DataService.SalvarDados | src/view/js/dataService.js:30-41 | the document sent to disk is the ledger's four lists, and the ledger is not changed |
| DataService.LoadSaved | src/view/js/dataService.js:13-19 | loading what was saved gives back the same ledger |
| DataService.CarregarDados | src/view/js/dataService.js:9-28 | a successful load keeps each list the document holds and makes each absent one empty; a failed load leaves the ledger untouched |
| Dedup.KeyTextBlank | src/view/js/syncService.js:254-260 | the key is `\|\|` exactly when description, category and date are all empty after normalisation |
| Dedup.KeyBlankIff | src/view/js/syncService.js:254-260 | a record's key is blank exactly when its three fields are absent, empty or only blanks |
| Dedup.KeyNormalises | src/view/js/syncService.js:255-257 | surrounding blanks and letter case do not change the key |
| Dedup.KeySeparatorCollision | src/view/js/syncService.js:259 | for any plain texts a, b, c, the different records (`a\|b`, `c`) and (`a`, `b\|c`) share a key |
| Dedup.KeyTextShift | src/view/js/syncService.js:259 | moving text across a `\|` between two fields leaves the joined key unchanged |
| Dedup.KeyIgnoresId | src/view/js/syncService.js:254-260 | the key does not depend on the id |
| Dedup.KeysOf | src/view/js/syncService.js:274-280 | the set of keys the merge map holds never contains the blank key |
| Dedup.KeysOfMeaning | src/view/js/syncService.js:274-280 | a key is in the map exactly when it is non-blank and some record of the list has it |
| Dedup.NonBlankCount | src/view/js/syncService.js:527-532 | the number of records with a non-blank key lies between the number of distinct keys and the list length |
| Dedup.GerarNovoID | src/view/js/syncService.js:380-382 | a fresh id is a truthy string of the form millis `_` random |
| Dedup.WithId | src/view/js/syncService.js:290 | `item.id \|\| gerarNovoID()` gives a truthy id, changes no other field, and keeps a truthy id unchanged |
| Dedup.Merged | src/view/js/syncService.js:268-301 | the merged list starts with the local list unchanged |
| Dedup.MesclarArraySemDuplicatas | src/view/js/syncService.js:268-301 | the loop over local and incoming records computes `Merged` |
| Dedup.AcceptedKeySet | src/view/js/syncService.js:284-297 | the keys of the accepted incoming records are exactly the incoming keys that are neither blank nor local |
| Dedup.AcceptedKeys | src/view/js/syncService.js:284-297 | the accepted incoming records carry exactly the incoming keys not already known, one record per key |
| Dedup.AcceptedAdmitted | src/view/js/syncService.js:287-292 | every accepted record has a non-blank key unknown to the local list, and a truthy id |
| Dedup.AcceptedSubseq | src/view/js/syncService.js:284-300 | the accepted records, ids aside, are incoming records in their incoming order |
| Dedup.MergedKeys | src/view/js/syncService.js:283-300 | the merged list's keys are the union of the local and incoming keys |
| Dedup.AcceptedNone | src/view/js/syncService.js:288-295 | when every incoming key is already known, nothing is accepted |
| Dedup.MergeIdempotent | src/view/js/syncService.js:268-301 | merging the same incoming list a second time changes nothing |
| Dedup.MergeAllKnown | src/view/js/syncService.js:269-271 | an incoming list with no new key leaves the local list as it is |
| Dedup.MergedLength | src/view/js/syncService.js:300 | the merged list grows by the number of new distinct incoming keys |
| Dedup.MergePreservesDuplicates | src/view/js/syncService.js:283-300 | the merge adds no duplicate: the surplus count of the list is unchanged |
| Dedup.RemoverDuplicatasArray | src/view/js/syncService.js:469-492 | the loop keeping the first record of each key computes `Deduped` |
| Dedup.DedupedKeys | src/view/js/syncService.js:475-489 | removal keeps every key, and exactly one record per non-blank key |
| Dedup.DedupedLength | src/view/js/syncService.js:469-492 | the list shrinks by exactly its surplus count |
| Dedup.DedupedSubseq | src/view/js/syncService.js:475-491 | the survivors are original records in their original order |
| Dedup.DedupedNoDuplicates | src/view/js/syncService.js:478-484 | the result has no duplicate |
| Dedup.DedupedIdempotent | src/view/js/syncService.js:469-492 | removing duplicates twice equals removing them once |
| Dedup.CountsKeys | src/view/js/syncService.js:527-532 | the count map has exactly the non-blank keys of the list |
| Dedup.OrderListing | src/view/js/syncService.js:527-532 | the map's first-seen key order lists each key once, and every count is at least one |
| Dedup.OrderExcess | src/view/js/syncService.js:534-539 | the sum of `count - 1` plus the number of keys is the number of non-blank records |
| Dedup.CountsMeaning | src/view/js/syncService.js:534-545 | the map size is the number of distinct keys, and the summed `count - 1` is the surplus |
| Dedup.AnalisarDuplicatasArray | src/view/js/syncService.js:522-546 | the counting loop reports the list length, the distinct keys and the surplus |
| Dedup.AnalysisMatchesRemoval | src/view/js/syncService.js:522-546 | the surplus the analysis reports is exactly what removal deletes |
| Sync.MergedLedger | src/view/js/syncService.js:307-362 | each merged list starts with the local list unchanged |
| Sync.Novas | src/view/js/syncService.js:313-315 | the new-record count is the number of incoming keys not known locally, or 0 without an array |
| Sync.Duplicadas | src/view/js/syncService.js:316-319 | the duplicate count is the incoming length minus the new records, between 0 and that length |
| Sync.MergeTotalsOf | src/view/js/syncService.js:365-373 | the notification's totals are never negative |
| Sync.MesclarLista | src/view/js/syncService.js:312-322 | one list's merge returns `Merged` with its new and duplicate counts |
| Sync.MesclarPlanejamento | src/view/js/syncService.js:336-360 | the planning lists are merged only when `planejamento` is truthy, and their new records are counted |
| Sync.MesclarListas | src/view/js/syncService.js:307-374 | the four merged lists are `MergedLedger` and the totals are `MergeTotalsOf` |
| Sync.MesclarDadosInteligente | src/view/js/syncService.js:307-374 | the ledger becomes `MergedLedger` of the old ledger, and the totals are `MergeTotalsOf` it |
| Sync.ResyncAddsNothing | src/view/js/syncService.js:307-362 | pulling the same payload again changes nothing and reports no new record |
| Sync.MergeKeepsDuplicateCounts | src/view/js/syncService.js:307-362 | a merge never adds a duplicate to any of the four lists |
| Sync.WithIds | src/view/js/syncService.js:388-396 | every record gets a truthy id, no other field changes, and records with an id are kept as they are |
| Sync.GarantirIDsUnicos | src/view/js/syncService.js:388-396 | the loop computes `WithIds` |
| Sync.ReplacedHasIds | src/view/js/syncService.js:232-241 | after replacing the ledger with the payload, every record of the four lists has a truthy id |
| Sync.ProcessarDadosSincronizados | src/view/js/syncService.js:227-247 | with merging on, the ledger is merged; otherwise it is replaced and given ids |
| Sync.Pulled | src/view/js/syncService.js:128-161 | a pull succeeds exactly when the session is authenticated, the fetch succeeds and the payload has the required structure |
| Sync.SincronizarDadosAutenticado | src/view/js/syncService.js:128-186 | a failed pull leaves the ledger untouched and reports the error; a successful one merges the payload and reports the totals; the session is cleared exactly when the fetch fails with an authentication error, and is otherwise left as it was |
| Sync.BotaoSincronizar | src/view/js/syncService.js:25-49 | without a session or without confirmation nothing happens to the ledger or the session; otherwise the pull's outcome, new ledger and session are those of an authenticated pull |
| Sync.ExpiredPullLogsOut | src/view/js/authService.js:155-159 | a 401 reply to the pull is reported as an expired session and ends the session |
| Sync.PulledKeepsSession | src/view/js/authService.js:194-198 | a pull that delivers data never ends the session |
| Sync.AnalisarDuplicatas | src/view/js/syncService.js:498-515 | each list's report is its length, distinct keys and surplus; cleaning is needed exactly when the total surplus is positive |
| Sync.Linha | src/view/js/syncService.js:412-421 | a list's report line: removed is the number of records beyond the first of each key, kept is the length of the deduplicated list |
| Sync.Report | src/view/js/syncService.js:403-443 | the four report lines, one per list, and the removed total equals the ledger's surplus |
| Sync.PurgarLista | src/view/js/syncService.js:412-433 | one list's purge returns `Deduped` and that list's report line |
| Sync.RemoverDuplicatasLocais | src/view/js/syncService.js:402-462 | every list loses its duplicates, and the report returned is `Report` of the ledger before the purge |
| Sync.PurgedClean | src/view/js/syncService.js:402-462 | after the purge no list has a duplicate, and a second purge changes nothing |
| Sync.BotaoRemoverDuplicatas | src/view/js/syncService.js:108-124 | the surplus announced is the ledger's; the purge runs exactly when it is positive and confirmed, and removes that many records |
| Sync.ToWire | src/view/js/syncService.js:561-593 | one wire record per ledger record, in order, with amounts always numbers |
| Sync.ValidarDadosParaEnvio | src/view/js/syncService.js:653-688 | the early-exit loops accept exactly the payloads whose incomes and expenses have a description, an amount and a date |
| Sync.WireValidIff | src/view/js/syncService.js:653-688 | the ledger's payload passes validation exactly when every income and expense has a truthy description and date; planning records are never checked |
| Sync.PushResult | src/view/js/syncService.js:612-646 | the push returns true exactly when it saved, and throws only without a session |
| Sync.PushClassify | src/view/js/syncService.js:612-626 | status 200 or 201 means saved, 401 means the session expired |
| Sync.SalvarDadosNaNuvem | src/view/js/syncService.js:552-646 | nothing is sent without a session or with an invalid payload; otherwise the payload of the ledger is sent; an expired session is cleared and nothing else changes |
| Sync.VerificarDadosParaEnvio | src/view/js/syncService.js:694-708 | the total is the sum of the four counts, and there is data exactly when some list is non-empty |
| Sync.BotaoSalvarNaNuvem | src/view/js/syncService.js:55-81 | the push runs exactly when there is a session, data and confirmation, and then ends as an authenticated push of the ledger does; the session is cleared only on an expired-session outcome |
| Sync.PushOf | src/view/js/syncService.js:552-630 | an authenticated push never reports a missing session, and reports invalid data exactly when the payload fails validation |
| Sync.PushOfOutcomes | src/view/js/syncService.js:612-630 | an authenticated push is saved exactly when the payload is valid and the server answers 200 or 201, and ends the session exactly when it answers 401 |
| Auth.Session.constructor | src/view/js/authService.js:9-10 | nothing is in memory at load; `localStorage` is as earlier runs left it |
| Auth.Session.SaveAuth | src/view/js/authService.js:45-51 | the token and user are kept in memory and in storage, and a non-empty token authenticates |
| Auth.Session.ClearStoredAuth | src/view/js/authService.js:53-59 | memory and storage are cleared, and the session is not authenticated |
| Auth.Session.Logout | src/view/js/authService.js:98-102 | logout clears the session |
| Auth.Session.LoadStoredAuth | src/view/js/authService.js:30-43 | a stored token and user are restored; an unparsable stored user clears everything; otherwise nothing changes |
| Auth.LoginCheck | src/view/js/authService.js:71-79 | login succeeds exactly when the reply is ok with a token and a user; a refused login reports the server's message or the default one |
| Auth.Session.Login | src/view/js/authService.js:61-96 | a successful login saves the credentials and authenticates; a failed one changes nothing |
| Auth.FetchResult | src/view/js/authService.js:148-186 | an authenticated request succeeds exactly on status 200 with a truthy body not marked `success: false`, and yields its `data` when truthy |
| Auth.ExpiredIsAuthError | src/view/js/authService.js:155-160 | a 401 reply is reported as an expired session, which counts as an authentication error |
| Auth.Session.SyncWithAPI | src/view/js/authService.js:116-201 | without a session the request is refused and nothing changes; an authentication error logs out; any other outcome leaves the session alone |
| Parcelas.NextMonthPlans | src/view/js/parcelasService.js:59-77 | a copy for next month is appended exactly when no plan for that month points at the base and installments remain |
| Parcelas.CriarDespesaProximoMes | src/view/js/parcelasService.js:59-77 | the planned expenses become `NextMonthPlans`, and the other lists are unchanged |
| Parcelas.AdvanceStep | src/view/js/parcelasService.js:19-57 | unless an installment is advanced, the ledger is unchanged |
| Parcelas.AvancarParcela | src/view/js/parcelasService.js:19-57 | the handler's new ledger and outcome are `AdvanceStep` of the old ledger |
| Parcelas.AdvanceEffect | src/view/js/parcelasService.js:33-53 | an advance appends one realised expense pointing at the plan, increments the plan's current installment, changes no other plan and adds at most one next-month copy |
| Parcelas.LastBranchNeedsNonNumber | src/view/js/parcelasService.js:27-53 | with numeric counters an advance never takes the last-installment branch |
| Parcelas.LastBranchWithNaN | src/view/js/parcelasService.js:27-53 | a plan whose installment count is NaN does take it |
| Parcelas.Realise | src/view/js/parcelasService.js:30-53 | realising the current installment always reports an advance |
| Parcelas.AdvanceStepIntended | src/view/js/parcelasService.js:19-57 | the advance with the guard `atual > n`: unless an installment is advanced, the ledger is unchanged |
| Parcelas.AdvanceCountsCompared | src/view/js/parcelasService.js:27-29 | with numeric counters the advance as written realises an installment exactly when `atual < n`; the intended one exactly when `atual <= n`, taking the last-installment branch exactly when `atual == n` |
| Parcelas.LastInstallmentRefused | src/view/js/parcelasService.js:27-29 | a plan on installment 3 of 3 is reported finished with nothing realised, while the intended advance realises it |
| Parcelas.CopyNotSeenByGuard | src/view/js/parcelasService.js:63-74 | calling the copy twice for the same month adds two copies |
| Parcelas.ProcessarParcelasFuturas | src/view/js/parcelasService.js:8-17 | the plans returned are exactly the installment plans with installments left |
| UiManager.Filtered | src/view/js/uiManager.js:163-167 | the filter keeps exactly the records whose id is not loosely equal to the page's id, and never grows the list |
| UiManager.FilteredSubseq | src/view/js/uiManager.js:163-167 | the survivors keep their order |
| UiManager.FilteredIdempotent | src/view/js/uiManager.js:163-167 | filtering twice by the same id equals filtering once |
| UiManager.FilteredNoMatch | src/view/js/uiManager.js:163-167 | with no matching record the list is unchanged |
| UiManager.Excluded | src/view/js/uiManager.js:158-167 | only the list `tipo` names is filtered; any other `tipo` removes nothing |
| UiManager.ExcluirItem | src/view/js/uiManager.js:158-175 | nothing changes unless the user confirms; then the ledger becomes `Excluded` |
| UiManager.ExcludedKeepsOrder | src/view/js/uiManager.js:163-167 | deletion keeps both lists' survivors in order |
| UiManager.ExcludedIdempotent | src/view/js/uiManager.js:158-167 | deleting the same id twice equals deleting it once |
| UiManager.AdicionarReceitaAsWritten | src/view/js/uiManager.js:177-189 | as written the helper always throws, because `gerarId` is undefined |
| UiManager.AdicionarDespesaAsWritten | src/view/js/uiManager.js:191-204 | as written the helper always throws, for the same reason |
| UiManager.AdicionarReceita | src/view/js/uiManager.js:177-189 | with an id supplied, exactly the new income is appended |
| UiManager.AdicionarDespesa | src/view/js/uiManager.js:191-204 | with an id supplied, exactly the new expense is appended |
| UiManager.AdicionarReceitaDiscrepancy | src/view/js/uiManager.js:177-189 | on an empty ledger the written helper adds nothing, where one income is intended |
| UiManager.AddThenDelete | src/view/js/uiManager.js:151-153 | deleting by the text a new record's id renders as removes that record again |
| Renderer.Spliced | src/view/js/renderer.js:86-91 | `splice` at `findIndex` removes the first record with the id and keeps the rest in order; without a match the list is unchanged |
| Renderer.SplicedEffect | src/view/js/renderer.js:86-91 | the list shrinks by one exactly when some record has the id, and loses exactly that one record |
| Renderer.LaterDuplicateSurvives | src/view/js/renderer.js:87-90 | with two records sharing an id, one of them remains after the deletion |
| Renderer.DeletionsAgree | src/view/js/renderer.js:86-91 | when one record matches, deleting by page id (uiManager) and by index (renderer) give the same list |
| Renderer.RemovedItem | src/view/js/renderer.js:78-95 | a deletion splices the income list for `receita` and the expense list otherwise |
| Renderer.RemovedPlanned | src/view/js/renderer.js:97-114 | the same for the two planning lists |
| Renderer.ExcluirItem | src/view/js/renderer.js:78-95 | nothing changes unless confirmed; the ledger is saved exactly when a record was found |
| Renderer.ExcluirItemPlanejamento | src/view/js/renderer.js:97-114 | the same for planned records |
| Forms.CategorizarReceita | src/view/js/formService.js:229-239 | the category is one of six; `outros` exactly when no keyword occurs; salary keywords win over all others |
| Forms.CategorizarIgnoresCase | src/view/js/formService.js:230 | classification ignores letter case |
| Forms.ReceitaSubmit | src/view/js/formService.js:42-50 | the income form is incomplete exactly when a field is falsy, and adds exactly when complete with a date not in the future |
| Forms.SubmeterReceita | src/view/js/formService.js:35-65 | the handler appends the income exactly when the checks pass, and otherwise changes nothing |
| Forms.DespesaSubmit | src/view/js/formService.js:80-88 | the same checks for the expense form, category included |
| Forms.SubmeterDespesa | src/view/js/formService.js:72-103 | the handler appends the expense exactly when the checks pass |
| Forms.FormsKeepSendable | src/view/js/formService.js:52-60 | what the forms add keeps a ledger valid for the cloud push |
| Forms.ReceitaPrevista | src/view/js/formService.js:116-126 | a planned income is built exactly when description and amount are truthy, classified by its description |
| Forms.SubmeterReceitaPrevista | src/view/js/formService.js:110-133 | the handler appends it exactly then |
| Forms.DespesaPrevista | src/view/js/formService.js:157-192 | a planned expense is built exactly when description, category and total are truthy; with installments the remaining count is total minus current plus one, otherwise it is a single payment |
| Forms.SubmeterDespesaPrevista | src/view/js/formService.js:149-201 | the handler appends it exactly then |
| Forms.RestantesCountsCurrent | src/view/js/formService.js:190 | the remaining count includes the current installment: all of them at the first, one at the last |
| Dates.ObterMesAnoAtual | src/view/js/utils.js:3-9 | the current month and year are those of the clock |
| Dates.ObterProximoMes | src/view/js/utils.js:20-27 | the next month is one calendar month later, wrapping December into January of the next year |
| Dates.ProximoMesUnique | src/view/js/utils.js:20-27 | it is the only valid month one step later |
| Dates.FiltrarPorMesAtual | src/view/js/utils.js:11-18 | exactly the records dated in the current month and year are kept |
| Dates.FiltrarPorMesAtualSubseq | src/view/js/utils.js:11-18 | they keep their order, and each has a date |
| Dates.ValidarDataNaoFutura | src/view/js/dateService.js:35-46 | a date is accepted exactly when present, parsed and not after today, whatever the time of day |
| Dates.ValidarIgnoresTime | src/view/js/dateService.js:41-45 | the times of day of both dates do not matter |
| Dates.ValidarLater | src/view/js/dateService.js:45 | a date accepted today stays accepted later |
| Dates.FormatarData | src/view/js/utils.js:29-44 | an empty date gives empty text; a date with `/` is kept; otherwise the result is the input or a slashed date |
| Dates.FormatarDataIso | src/view/js/utils.js:38-41 | `YYYY-MM-DD` becomes `DD/MM/YYYY` |
| Dates.FormatarDataIdempotent | src/view/js/utils.js:29-44 | formatting twice equals formatting once |
| Dates.TraduzirCategoriaAsWritten | src/view/js/utils.js:46-58 | the lookup as written returns the label of a known key, and an inherited object member exactly for names such as `constructor` |
| Dates.TraduzirCategoria | src/view/js/utils.js:46-58 | the intended lookup returns the label of a known key and the category itself otherwise |
| Dates.TraducaoAgrees | src/view/js/utils.js:46-58 | the two agree on every name that is not an inherited member |
| Dates.ConstructorCategory | src/view/js/utils.js:58 | they differ on `constructor` |
| MainProcess.WindowOpenAction | index.js:46-55 | a window is allowed exactly when its URL starts with `file://`, `http://localhost` or `https://localhost`; any other is handed to the browser |
| MainProcess.WindowOpenIntended | index.js:46-55 | the intended rule allows `file://` and URLs whose host is exactly `localhost` |
| MainProcess.IntendedNarrower | index.js:48-50 | whatever the intended rule allows, the written rule allows |
| MainProcess.LocalPagesAllowed | index.js:48-50 | both rules allow every localhost page on either scheme |
| MainProcess.LookalikeHostAllowed | index.js:48-50 | `http://localhost.example.com` is allowed as written and denied as intended |
| MainProcess.UserinfoHostAllowed | index.js:48-50 | so is `http://localhost:<digits>@<any host>`, whose host is not `localhost`; it is denied as intended |
| MainProcess.DigitsThenOther | index.js:48-50 | digits followed by a character other than a digit, `/`, `?` or `#` are not a port |
| MainProcess.OrEmptyList | index.js:108-109 | an absent list becomes an empty array, any other is kept |
| MainProcess.Filled | index.js:105-110 | the fill-in adds the missing planning lists and touches nothing else; a non-object document is left as it is |
| MainProcess.FilledKeepsLedger | index.js:105-110 | the fill-in never changes the ledger the renderer loads |
| MainProcess.FilledHasPlanning | index.js:105-110 | after it, an object document has both planning arrays |
| MainProcess.CarregarDados | index.js:97-129 | no file gives four empty lists; a read or parse error is reported; a file holding `null` fails on `planejamento`; otherwise the filled document is returned |
| MainProcess.NoFileEmptyLedger | index.js:114-124 | the default document loads as an empty ledger |
| CsvExport.Sanitize | index.js:252-255 | a field is its text with every comma replaced by a semicolon, at the same length, so it holds no comma |
| CsvExport.ReceitaRowFields | index.js:256 | an income row splits on commas into its four fields when the date holds no comma |
| CsvExport.DespesaRowFields | index.js:273 | an expense row splits into its six fields when the date holds no comma |
| CsvExport.PlanRowFields | index.js:288 | a planning row always splits into its three fields |
| CsvExport.ReceitaRowCommas | index.js:254-256 | an income row has three commas plus those of its unsanitised date |
| CsvExport.DespesaDefaults | index.js:268-272 | a missing amount, installment count and rate are written as `0`, `1` and `0` |
| CsvExport.Rows | index.js:250-257 | no record gives no text |
| CsvExport.RowsAppend | index.js:251-257 | the rows of two lists are the rows of each, one after the other |
| CsvExport.AppendRows | index.js:250-258 | the `forEach` appends one row per record when the list is a non-empty array |
| CsvExport.MoreIncomeOneMoreRow | index.js:250-257 | one more income adds exactly its row at the end of its section |
| CsvExport.Total | index.js:309-310 | the total is the sum of amounts for an array, 0 for an absent list, and a failure for a non-array |
| CsvExport.SumAppend | index.js:309 | the total is additive over concatenation |
| CsvExport.SumValores | index.js:309-310 | the `reduce` computes `Sum` |
| CsvExport.WriteSections | index.js:245-304 | the sections written are `Sections` of the document |
| CsvExport.WritePlanning | index.js:280-304 | the planning part is written only for a truthy `planejamento` |
| CsvExport.ExportarCsv | index.js:236-325 | a canceled dialog gives `canceled`; a null document and non-array lists fail with JavaScript's messages; otherwise the file path and the full document are returned |
| Backups.InsertDesc | index.js:382-383 | insertion keeps the same elements plus the new one |
| Backups.SortDesc | index.js:382-383 | the names are sorted newest first and form a permutation of the input |
| Backups.Matching | index.js:381 | exactly the directory entries named like a backup are listed |
| Backups.Without | index.js:386-388 | deleting files keeps exactly the other entries, in order |
| Backups.WithoutTwice | index.js:386-388 | two deletions equal one deletion of both sets |
| Backups.WithoutNothing | index.js:386-388 | deleting nothing changes nothing |
| Backups.ExcessAreBackups | index.js:380-389 | only backup files are ever deleted |
| Backups.RetainedKeepsOthers | index.js:380-389 | every other file in the directory survives |
| Backups.RetainedFew | index.js:385 | with at most ten backups nothing is deleted |
| Backups.RetainedGreatest | index.js:380-389 | every kept backup is at least as new, by name, as every deleted one |
| Backups.InsertDescSorted | index.js:382-383 | inserting a name into a newest-first list keeps it newest first |
| Backups.KeptAmongTen | index.js:380-389 | a backup that survives retention is one of the ten newest |
| Backups.RetainedAtMostTen | index.js:380-389 | at most ten backups remain |
| Backups.DataDir.constructor | index.js:364-367 | the directory as found: whether the data file exists, and its entries |
| Backups.BackupName | index.js:374-375 | the name is the stamp plus 12 characters, looks like a backup, and its stamp has no `:` or `.` |
| Backups.WithCopy | index.js:377 | after the copy the backup is in the directory and nothing else was added |
| Backups.Unlink | index.js:386-388 | deleting files removes exactly those entries |
| Backups.CriarBackup | index.js:362-396 | without data nothing changes; otherwise the new backup is created and the directory is retained to ten backups |
| Backups.NewestSurvives | index.js:374-389 | a backup newer than all others survives its own retention |

## Left out

- Floating point. Amounts, rates and installment values are integers, so `parseFloat`, the amortisation formula in formService.js and fractional totals in the CSV export are not modelled. `NaN` and absent numbers are modelled.
- The DOM, toasts, charts, the notification service and the reports. The ids rendered into `data-id` attributes are modelled as the text they produce.
- The IPC and HTTP transport, and `localStorage` as a store. The session's stored values are fields of `Auth.Session`. The HTTP reply is an input. The preload (preload.js:5-17) does not expose `fazerRequisicaoHTTP`, so no request can actually reach the server from the renderer. The model takes the reply the request would return.
- The clock, `Math.random` and date parsing are inputs. The shift between UTC and local time of `new Date("YYYY-MM-DD")` is part of the injected parse.
- `formatarData` of dateService.js (dateService.js:29-33). It uses `toLocaleDateString`, whose output depends on the locale data.
- Lists that are not arrays where the renderer stores them. `DataService.CarregarDados` and `Sync.ProcessarDadosSincronizados` require a document whose lists are arrays or absent. Storing a non-array would break later calls in ways outside this model. `JsValues.JsList.NotArray` stands for a truthy value without a `length` (an object or a number); a non-empty string, whose `forEach` call throws during the CSV export, is not represented.
- `JsValues.Json` folds `null`, `false`, `0` and `""` into one falsy value. The CSV export treats them all as `null`, which is what it does for `null`.
- CsvExport.ReceitaRowFields: CSV quoting is not RFC 4180. Quotes inside fields are not doubled and newlines are not escaped, so the row lemmas require a date without commas. The date column is not sanitised in the source.
- Text.Lower: lower-cases ASCII and Latin-1 letters only.
- Backups.SortDesc: compares code points. `Array.prototype.sort` compares UTF-16 units; the two agree on the ASCII names backups have.
- Text.ToNumber: accepts decimal integers with optional blanks and sign, not exponents, hex or `Infinity`.
- Dedup.MesclarArraySemDuplicatas: returns the ids it gives incoming records in a new list. The source writes them into the incoming objects in place (aliasing).
- Parcelas.ProcessarParcelasFuturas: `ehParcelada` is a boolean field, not a general truthy value.
- Ledger.Financas: the four lists always exist; the `|| []` initialisations in uiManager.js:160-161 have nothing to create.
- Backups.CriarBackup: file-system errors (copy, unlink, mkdir) are not modelled, and the result is the backup's name rather than its full path.
- MainProcess.WindowOpenAction: the call to `shell.openExternal` is represented by the URL `Deny` carries.
- Auth: registration, the connection test and the other HTTP helpers of authService.js are not part of this model; only the session and `syncWithAPI` are.
- renderer-old.js, the earlier renderer, is not part of this model.

## Findings

| source | as written | input that shows it | evidently intended | confidence | as-written member | corrected member |
|---|---|---|---|---|---|---|
| src/view/js/uiManager.js:177-204 | `adicionarReceita` and `adicionarDespesa` call `gerarId`, which uiManager.js neither defines nor imports, so they always throw a ReferenceError | any call, e.g. adding an income to an empty ledger | append the new record with a fresh id and save | high, not executed | UiManager.AdicionarReceitaAsWritten (UiManager.AdicionarReceitaDiscrepancy) | UiManager.AdicionarReceita |
| src/view/js/utils.js:46-58 | `traducoes[categoria] \|\| categoria` reads inherited members of a plain object | the category `"constructor"` shows the `Object` function instead of its name | look up only the eight own keys | high, not executed | Dates.TraduzirCategoriaAsWritten (Dates.ConstructorCategory) | Dates.TraduzirCategoria (Dates.TraducaoAgrees) |
| src/view/js/parcelasService.js:27-29 | `avancarParcela` stops once `parcelaAtual >= numParcelas`, although a plan on installment n of n still counts one installment as remaining (`parcelasRestantes = numParcelas - parcelaAtual + 1`, src/view/js/formService.js:190) | a plan with `parcelaAtual = numParcelas = 3`: the third installment is never realised | realise installments up to and including the last, finishing only once `parcelaAtual > numParcelas` | medium, not executed | Parcelas.AdvanceStep (Parcelas.LastInstallmentRefused, Parcelas.AdvanceCountsCompared) | Parcelas.AdvanceStepIntended (Parcelas.AdvanceCountsCompared) |
| index.js:46-55 | the window-open handler checks only that the URL starts with `http://localhost`, so other hosts pass | `http://localhost.example.com`, `http://localhost:80@example.com` | allow only URLs whose host is `localhost` itself | medium, not executed | MainProcess.WindowOpenAction (MainProcess.LookalikeHostAllowed, MainProcess.UserinfoHostAllowed) | MainProcess.WindowOpenIntended (MainProcess.IntendedNarrower, MainProcess.LocalPagesAllowed) |
