/** The equipment-inspection application (app/ and its earlier copy checklist_system/):
    users with a cargo, sectors, equipment with an optional checklist template, submitted
    checklists signed by the operator and later by a manager, and the alert log. */
module EquipmentModels {
  import opened Common

  const CONFORMING := "Conforme"
  const NON_CONFORMING := "Não Conforme"
  const CONFORMING_VALIDATED := "Conforme (Validado)"
  const NON_CONFORMING_VALIDATED := "Não Conforme (Validado)"
  /** The answer that makes a checklist non-conforming. */
  const NO := "Não"
  /** The key of an answer inside one submitted JSON item. */
  const ANSWER_KEY := "resposta"

  /** `UserRoles`; `cargo.name` is the member name. */
  datatype Role = Colaborador | Gestor | Coordenador

  function RoleName(r: Role): (s: string)
    ensures s in {"COLABORADOR", "GESTOR", "COORDENADOR"}
  {
    match r
    case Colaborador => "COLABORADOR"
    case Gestor => "GESTOR"
    case Coordenador => "COORDENADOR"
  }

  /** Distinct roles have distinct names, so a test on the name is a test on the role. */
  lemma RoleNameInjective(a: Role, b: Role)
    ensures RoleName(a) == RoleName(b) ==> a == b
  {
  }

  datatype User = User(id: nat, nome: string, email: string, cargo: Role, setorId: nat)

  datatype Sector = Sector(id: nat, nome: string)

  datatype Equipment = Equipment(id: nat, nome: string, setorId: nat, qrCode: Option<string>,
                                 templateId: Option<nat>)

  datatype ChecklistTemplate = ChecklistTemplate(id: nat, nome: string)

  /** One submitted item of the `respostas` JSON list, e.g. `{"pergunta": ..., "resposta": ...}`. */
  type AnswerItem = map<string, string>

  /** A submitted checklist; `data` is the submission time, `gestorId` and `assinaturaGestor`
      are set when a manager validates it. */
  datatype Checklist = Checklist(
    id: nat, equipamentoId: nat, colaboradorId: nat, gestorId: Option<nat>, data: int,
    respostas: seq<AnswerItem>, observacoes: Option<string>,
    assinaturaColaborador: string, assinaturaGestor: Option<string>, status: string)

  /** One alert e-mail recorded for a checklist. */
  datatype Alert = Alert(id: nat, checklistId: nat, enviadoPara: string)

  /** Flask-Login's `current_user`. */
  datatype CurrentUser = Anonymous | LoggedIn(user: User)

  /** The tables of one deployment; `nextId` stands for the autoincrement keys. */
  class EquipmentDb {
    var users: seq<User>
    var sectors: seq<Sector>
    var equipments: seq<Equipment>
    var templates: seq<ChecklistTemplate>
    var checklists: seq<Checklist>
    var alerts: seq<Alert>
    var nextId: nat

    /** Checklist ids are below the counter, so a new checklist's id is fresh. */
    ghost predicate Valid()
      reads this
    {
      forall k :: 0 <= k < |checklists| ==> checklists[k].id < nextId
    }

    constructor ()
      ensures Valid()
      ensures users == [] && sectors == [] && equipments == [] && templates == []
      ensures checklists == [] && alerts == []
    {
      users, sectors, equipments, templates, checklists, alerts := [], [], [], [], [], [];
      nextId := 1;
    }
  }
}
