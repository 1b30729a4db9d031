/** Loading and saving the ledger through the main process (dataService.js). The IPC
    round trip is an input: the reply the main process sent. */
module DataService {
  import opened Wrappers
  import opened JsValues
  import opened Ledger

  /** The document salvarDados hands to the main process. */
  function Document(l: Lists): Json {
    LedgerJson(l.receitas, l.despesas, l.planReceitas, l.planDespesas)
  }

  /** salvarDados: sends the ledger and reports failures with an alert; it has no
      `modifies` clause, so the ledger is left as it was. */
  method SalvarDados(f: Financas) returns (doc: Json)
    ensures doc == Document(f.Snapshot())
  {
    doc := Document(f.Snapshot());
  }

  /** The reply to `carregarDados` over IPC: the call threw, the main process reported a
      failure, or it returned a document. */
  datatype LoadReply = LoadThrown(message: string) | LoadFailed(error: Option<string>) | LoadOk(dados: Json)

  /** A document the ledger can hold: an object whose lists are arrays or absent, with a
      planning part that is absent or an object of the same kind. */
  predicate Representable(j: Json) {
    j.Object? && !j.receitas.NotArray? && !j.despesas.NotArray?
    && (j.planejamento.Falsy?
        || (j.planejamento.Object? && !j.planejamento.receitas.NotArray?
            && !j.planejamento.despesas.NotArray?))
  }

  /** `list || []` for a list that is an array or absent. */
  function ListOrEmpty(l: JsList): seq<Item> {
    if l.Array? then l.items else []
  }

  /** The ledger after a successful load: every list the document holds is kept as it
      is, and only the missing ones become empty. */
  function Normalised(j: Json): Lists
    requires Representable(j)
  {
    var p := j.planejamento;
    Lists(ListOrEmpty(j.receitas), ListOrEmpty(j.despesas),
          if p.Object? then ListOrEmpty(p.receitas) else [],
          if p.Object? then ListOrEmpty(p.despesas) else [])
  }

  /** Loading the document that salvarDados wrote gives back the same ledger. */
  lemma LoadSaved(l: Lists)
    ensures Representable(Document(l)) && Normalised(Document(l)) == l
  {
  }

  /** carregarDados: on success the ledger becomes the loaded document with its missing
      lists filled in; on failure the previous ledger stays. */
  method CarregarDados(f: Financas, reply: LoadReply)
    requires reply.LoadOk? ==> Representable(reply.dados)
    modifies f
    ensures reply.LoadOk? ==> f.Snapshot() == Normalised(reply.dados)
    ensures !reply.LoadOk? ==> f.Snapshot() == old(f.Snapshot())
  {
    if reply.LoadOk? {
      var dados := reply.dados;
      f.receitas := if dados.receitas.Array? then dados.receitas.items else [];
      f.despesas := if dados.despesas.Array? then dados.despesas.items else [];
      if dados.planejamento.Falsy? {
        f.planReceitas, f.planDespesas := [], [];
      } else {
        var p := dados.planejamento;
        f.planReceitas := if p.receitas.Array? then p.receitas.items else [];
        f.planDespesas := if p.despesas.Array? then p.despesas.items else [];
      }
    }
  }
}
