/** The device-checklist MVP (checklist_mvp): operators identified by matrícula, assets (ativos),
    the fixed item templates every checklist answers, submitted checklists and one response per
    item. The entities are the ones `checklist_mvp/app/routes.py` reads and writes. */
module MvpModels {
  import opened Common

  /** The status value that marks an item as failed. */
  const FAILURE := "Falha"

  datatype Usuario = Usuario(id: nat, matricula: string, nome: string, perfil: string)

  datatype Ativo = Ativo(id: nat, codigo: string, descricao: string, setor: string)

  /** One item every checklist answers (e.g. 'Tela', 'Bateria'). */
  datatype ItemTemplate = ItemTemplate(id: nat, descricao: string)

  /** A submitted checklist; `timestamp` is the submission time. */
  datatype Checklist = Checklist(id: nat, timestamp: int, usuarioId: nat, ativoId: nat, turno: string, versao: string)

  /** The answer for one item: the submitted status (absent when the field was not sent), the
      remark and the stored photo's path. */
  datatype Resposta = Resposta(id: nat, checklistId: nat, itemTemplateId: nat, status: Option<string>,
                               observacao: string, fotoPath: Option<string>)

  /** Flask-Login's `current_user`. */
  datatype CurrentUser = Anonymous | LoggedIn(user: Usuario)

  /** The tables; `nextId` stands for the autoincrement keys. */
  class MvpDb {
    var usuarios: seq<Usuario>
    var ativos: seq<Ativo>
    var itens: seq<ItemTemplate>
    var checklists: seq<Checklist>
    var respostas: seq<Resposta>
    var nextId: nat

    /** Checklist and response ids, and the checklists responses point to, are below the
        counter: a new checklist has no responses yet. */
    ghost predicate Valid()
      reads this
    {
      && (forall k :: 0 <= k < |checklists| ==> checklists[k].id < nextId)
      && (forall k :: 0 <= k < |respostas| ==> respostas[k].id < nextId && respostas[k].checklistId < nextId)
    }

    constructor ()
      ensures Valid()
      ensures usuarios == [] && ativos == [] && itens == [] && checklists == [] && respostas == []
    {
      usuarios, ativos, itens, checklists, respostas := [], [], [], [], [];
      nextId := 1;
    }
  }
}
