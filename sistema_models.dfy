/** The FastAPI checklist service (sistema_checklist): users with a role, sectors, equipment
    carrying a QR-code identifier, checklists submitted by a collaborator and validated by a
    manager, and one response per question. */
module SistemaModels {
  import opened Common

  datatype UserRole = Colaborador | Gestor | Administrador

  datatype ChecklistStatus = Concluido | Validado

  function StatusValue(s: ChecklistStatus): string
  {
    match s
    case Concluido => "CONCLUÍDO"
    case Validado => "VALIDADO"
  }

  /** The answers a response may hold; anything else is refused when the request is parsed. */
  datatype QuestionResponse = Sim | Nao | Parcial | Nsp

  function AnswerValue(a: QuestionResponse): string
  {
    match a
    case Sim => "Sim"
    case Nao => "Não"
    case Parcial => "Parcial"
    case Nsp => "Não se aplica"
  }

  datatype User = User(id: nat, username: string, hashedPassword: string, fullName: string, email: string,
                       role: UserRole, sectorId: Option<nat>, isActive: bool)

  datatype Sector = Sector(id: nat, name: string, managerId: Option<nat>)

  datatype Equipment = Equipment(id: nat, name: string, location: Option<string>, qrCode: string, sectorId: nat)

  /** A checklist; `createdAt` is the server's time of the insert, `managerId`, `validatedAt`
      and `managerSignature` are set by the validation. */
  datatype Checklist = Checklist(id: nat, equipmentId: nat, collaboratorId: nat, managerId: Option<nat>,
                                 createdAt: int, validatedAt: Option<int>, status: ChecklistStatus,
                                 collaboratorSignature: string, managerSignature: Option<string>)

  datatype Response = Response(id: nat, checklistId: nat, question: string, answer: QuestionResponse,
                               comment: Option<string>)

  /** No two users share a username, nor an e-mail address (the unique columns). */
  ghost predicate UniqueAccounts(users: seq<User>)
  {
    forall i, j :: 0 <= i < j < |users| ==> users[i].username != users[j].username && users[i].email != users[j].email
  }

  /** Sector names and equipment QR-code identifiers are unique columns too. */
  ghost predicate UniqueNames(sectors: seq<Sector>, equipments: seq<Equipment>)
  {
    && (forall i, j :: 0 <= i < j < |sectors| ==> sectors[i].name != sectors[j].name)
    && (forall i, j :: 0 <= i < j < |equipments| ==> equipments[i].qrCode != equipments[j].qrCode)
  }

  /** The tables; `nextId` stands for the autoincrement keys. */
  class SistemaDb {
    var users: seq<User>
    var sectors: seq<Sector>
    var equipments: seq<Equipment>
    var checklists: seq<Checklist>
    var responses: seq<Response>
    var nextId: nat

    /** The unique columns hold, and checklist ids and the checklists responses point to are
        below the counter. */
    ghost predicate Valid()
      reads this
    {
      && UniqueAccounts(users)
      && UniqueNames(sectors, equipments)
      && (forall k :: 0 <= k < |checklists| ==> checklists[k].id < nextId)
      && (forall k :: 0 <= k < |responses| ==> responses[k].checklistId < nextId)
    }

    constructor ()
      ensures Valid()
      ensures users == [] && sectors == [] && equipments == [] && checklists == [] && responses == []
    {
      users, sectors, equipments, checklists, responses := [], [], [], [], [];
      nextId := 1;
    }
  }
}
