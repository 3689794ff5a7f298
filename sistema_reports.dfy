/** The report routes of the FastAPI service (sistema_checklist/app/routers/reports.py): a
    manager-only export of one row per (checklist, response) pair, as a spreadsheet or CSV. */
module SistemaReports {
  import opened Common
  import opened Joins
  import opened SistemaModels
  import opened SistemaCrud

  // ---------------------------------------------------------------------------
  // The role guard
  // ---------------------------------------------------------------------------

  /** What the router's dependency decides: the request goes on for `user`, or is refused. */
  datatype Access = Refused(status: nat) | Allowed(user: User)

  /** The roles the whole router admits (lines 15-19). */
  const REPORT_ROLES: set<UserRole> := {Gestor, Administrador}

  /** `require_role(roles)`: the active-user check first, then 403 for a role outside `roles`. */
  function RequireRole(active: ActiveCheck, roles: set<UserRole>): (r: Access)
    ensures r.Allowed? <==> active.Active? && active.user.role in roles
    ensures r.Allowed? ==> r.user == active.user
    ensures r.Refused? && active.Active? ==> r.status == 403
    ensures r.Refused? && !active.Active? ==> r.status == HttpStatus(active)
  {
    match active
    case Active(u) => if u.role in roles then Allowed(u) else Refused(403)
    case _ => Refused(HttpStatus(active))
  }

  /** Only an authenticated, active manager or administrator reaches a report; a collaborator is
      refused with 403. */
  lemma ReportsNeedManager(auth: Auth)
    ensures RequireRole(GetCurrentActiveUser(auth), REPORT_ROLES).Allowed? <==>
      auth.Authenticated? && auth.user.isActive && auth.user.role != Colaborador
    ensures auth.Authenticated? && auth.user.isActive && auth.user.role == Colaborador ==>
      RequireRole(GetCurrentActiveUser(auth), REPORT_ROLES) == Refused(403)
  {
  }

  // ---------------------------------------------------------------------------
  // The export rows
  // ---------------------------------------------------------------------------

  /** One exported row. The dates are kept as instants (`dataValidacao` is `None` where the
      source writes ""), and the comment may be missing. */
  datatype ReportRow = ReportRow(checklistId: nat, data: int, equipamento: string, setor: string,
                                 colaborador: string, status: string, validadoPor: string,
                                 dataValidacao: Option<int>, pergunta: string, resposta: string,
                                 comentario: Option<string>)

  function EquipmentById(equipments: seq<Equipment>, id: nat): Option<Equipment>
  {
    FirstWhere(equipments, (e: Equipment) => e.id == id)
  }

  function SectorById(sectors: seq<Sector>, id: nat): Option<Sector>
  {
    FirstWhere(sectors, (s: Sector) => s.id == id)
  }

  function UserById(users: seq<User>, id: nat): Option<User>
  {
    FirstWhere(users, (u: User) => u.id == id)
  }

  /** `c.manager.full_name if c.manager else ""` (line 56). */
  function ValidatedBy(c: Checklist, users: seq<User>): (s: string)
    ensures c.managerId.None? ==> s == ""
    ensures s != "" ==> exists u :: u in users && Some(u.id) == c.managerId && u.fullName == s
  {
    match c.managerId
    case None => ""
    case Some(m) =>
      match UserById(users, m)
      case None => ""
      case Some(u) => u.fullName
  }

  /** `c.responses`: the responses pointing at the checklist. */
  predicate OwnResponse(c: Checklist, r: Response)
  {
    r.checklistId == c.id
  }

  /** The row of lines 49-61 for one pair; `None` where `c.equipment`, its sector or
      `c.collaborator` is missing and reading a name from it raises. */
  function RowFor(pair: (Checklist, Response), equipments: seq<Equipment>, sectors: seq<Sector>, users: seq<User>)
    : (r: Option<ReportRow>)
    ensures r.Some? <==>
      EquipmentById(equipments, pair.0.equipmentId).Some?
      && SectorById(sectors, EquipmentById(equipments, pair.0.equipmentId).value.sectorId).Some?
      && UserById(users, pair.0.collaboratorId).Some?
    ensures r.Some? ==>
      r.value.checklistId == pair.0.id && r.value.data == pair.0.createdAt
      && r.value.status == StatusValue(pair.0.status) && r.value.dataValidacao == pair.0.validatedAt
      && r.value.validadoPor == ValidatedBy(pair.0, users)
      && r.value.pergunta == pair.1.question && r.value.resposta == AnswerValue(pair.1.answer)
      && r.value.comentario == pair.1.comment
  {
    var (c, resp) := pair;
    match EquipmentById(equipments, c.equipmentId)
    case None => None
    case Some(e) =>
      match SectorById(sectors, e.sectorId)
      case None => None
      case Some(s) =>
        match UserById(users, c.collaboratorId)
        case None => None
        case Some(col) =>
          Some(ReportRow(c.id, c.createdAt, e.name, s.name, col.fullName, StatusValue(c.status),
                         ValidatedBy(c, users), c.validatedAt, resp.question, AnswerValue(resp.answer),
                         resp.comment))
  }

  function RowOf(equipments: seq<Equipment>, sectors: seq<Sector>, users: seq<User>)
    : ((Checklist, Response)) -> Option<ReportRow>
  {
    p => RowFor(p, equipments, sectors, users)
  }

  /** The rows the nested loop of lines 46-61 builds, or `None` when it raises. */
  function ReportSpec(checklists: seq<Checklist>, responses: seq<Response>, equipments: seq<Equipment>,
                      sectors: seq<Sector>, users: seq<User>): Option<seq<ReportRow>>
  {
    Collect(Flatten(checklists, responses, OwnResponse), RowOf(equipments, sectors, users))
  }

  /** One row per (checklist, response) pair, in order, each repeating its checklist's columns
      next to its response's question, answer and comment. */
  lemma ReportRowsPerPair(checklists: seq<Checklist>, responses: seq<Response>, equipments: seq<Equipment>,
                          sectors: seq<Sector>, users: seq<User>)
    ensures var r, ps := ReportSpec(checklists, responses, equipments, sectors, users),
                         Flatten(checklists, responses, OwnResponse);
      r.Some? ==>
        |r.value| == |ps| == ChildCount(checklists, responses, OwnResponse)
        && forall k :: 0 <= k < |ps| ==>
             r.value[k].checklistId == ps[k].0.id == ps[k].1.checklistId
             && r.value[k].validadoPor == ValidatedBy(ps[k].0, users)
             && r.value[k].dataValidacao == ps[k].0.validatedAt
             && r.value[k].pergunta == ps[k].1.question && r.value[k].comentario == ps[k].1.comment
  {
    var ps := Flatten(checklists, responses, OwnResponse);
    CollectPerElement(ps, RowOf(equipments, sectors, users));
    FlattenLength(checklists, responses, OwnResponse);
    FlattenLinked(checklists, responses, OwnResponse);
    forall k | 0 <= k < |ps|
      ensures ps[k].0.id == ps[k].1.checklistId
    {
      assert ps[k] in ps;
    }
  }

  /** The report is empty, and then nothing can raise, exactly when no listed checklist has a
      response. */
  lemma {:induction false} EmptyReportIffNoResponses(checklists: seq<Checklist>, responses: seq<Response>,
                                                    equipments: seq<Equipment>, sectors: seq<Sector>,
                                                    users: seq<User>)
    ensures ReportSpec(checklists, responses, equipments, sectors, users) == Some([]) <==>
      forall c, r :: c in checklists && r in responses ==> r.checklistId != c.id
  {
    var ps := Flatten(checklists, responses, OwnResponse);
    FlattenLinked(checklists, responses, OwnResponse);
    CollectPerElement(ps, RowOf(equipments, sectors, users));
    if ps == [] {
      assert ReportSpec(checklists, responses, equipments, sectors, users) == Some([]);
      forall c, r | c in checklists && r in responses
        ensures r.checklistId != c.id
      {
        if r.checklistId == c.id {
          FlattenHasPair(checklists, responses, c, r);
        }
      }
    } else {
      assert ps[0] in ps;
    }
  }

  /** A listed checklist and one of its responses form a pair of the export. */
  lemma {:induction false} FlattenHasPair(checklists: seq<Checklist>, responses: seq<Response>, c: Checklist, r: Response)
    requires c in checklists && r in responses && r.checklistId == c.id
    ensures (c, r) in Flatten(checklists, responses, OwnResponse)
  {
    var last := checklists[|checklists| - 1];
    var init := checklists[..|checklists| - 1];
    assert checklists == init + [last];
    if c == last {
      ChildrenOfMembers(c, responses, OwnResponse);
      var cs := ChildrenOf(c, responses, OwnResponse);
      var k :| 0 <= k < |cs| && cs[k] == r;
      assert WithParent(c, cs)[k] == (c, r);
    } else {
      FlattenHasPair(init, responses, c, r);
    }
  }

  // ---------------------------------------------------------------------------
  // The export route
  // ---------------------------------------------------------------------------

  const NO_DATA_MESSAGE := "Nenhum dado encontrado para exportar com os filtros selecionados."
  const XLSX_MEDIA_TYPE := "application/vnd.openxmlformats-officedocument.spreadsheetml.sheet"
  const CSV_MEDIA_TYPE := "text/csv"
  const FILE_PREFIX := "relatorio_checklists_"

  /** How the export ends: refused by the guard, a server error from a dangling reference, the
      no-data message, or a download. */
  datatype ExportOutcome =
    | Denied(status: nat)
    | ServerError
    | Message(text: string)
    | Download(filename: string, mediaType: string, rows: seq<ReportRow>)

  /** `export_checklists_report` (lines 33-83). `checklists` is the already filtered list the
      missing `crud.get_filtered_checklists` would return, and `today` the `%Y%m%d` stamp of the
      server clock. Only `format == "xlsx"` gives a spreadsheet: the `enum` of the query
      parameter documents the two values but does not reject others, which fall to CSV. */
  method ExportChecklistsReport(access: Access, checklists: seq<Checklist>, responses: seq<Response>,
                                equipments: seq<Equipment>, sectors: seq<Sector>, users: seq<User>,
                                format: string, today: string)
    returns (out: ExportOutcome)
    ensures out.Denied? <==> access.Refused?
    ensures access.Refused? ==> out.status == access.status
    ensures out == ServerError <==>
      access.Allowed? && ReportSpec(checklists, responses, equipments, sectors, users).None?
    ensures out.Message? <==>
      access.Allowed? && ReportSpec(checklists, responses, equipments, sectors, users) == Some([])
    ensures out.Message? ==> out.text == NO_DATA_MESSAGE
    ensures out.Download? ==>
      Some(out.rows) == ReportSpec(checklists, responses, equipments, sectors, users) && out.rows != []
    ensures out.Download? ==>
      (out.mediaType == XLSX_MEDIA_TYPE <==> format == "xlsx")
      && (out.mediaType == CSV_MEDIA_TYPE <==> format != "xlsx")
      && out.filename == FILE_PREFIX + today + (if format == "xlsx" then ".xlsx" else ".csv")
  {
    if access.Refused? {
      return Denied(access.status);
    }
    var data := FlattenRows(checklists, responses, OwnResponse, RowOf(equipments, sectors, users));
    if data.None? {
      return ServerError;
    }
    if data.value == [] {
      return Message(NO_DATA_MESSAGE);
    }
    var filename := FILE_PREFIX + today;
    var mediaType;
    if format == "xlsx" {
      mediaType := XLSX_MEDIA_TYPE;
      filename := filename + ".xlsx";
    } else {
      mediaType := CSV_MEDIA_TYPE;
      filename := filename + ".csv";
    }
    return Download(filename, mediaType, data.value);
  }
}
