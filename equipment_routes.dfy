/** The checklist flow of the equipment application (app/routes.py): the `role_required`
    decorator, filling a checklist for an equipment (status derivation and the alert), the
    pending list of unsigned checklists, and a manager's validation. */
module EquipmentRoutes {
  import opened Common
  import opened Ordering
  import opened EquipmentModels
  import AlertEmail

  /** The roles named by `@role_required('GESTOR', 'COORDENADOR')`. */
  const MANAGER_ROLES: set<string> := {"GESTOR", "COORDENADOR"}

  // ---------------------------------------------------------------------------
  // Access
  // ---------------------------------------------------------------------------

  /** `role_required(*roles)` (lines 21-30): whether the wrapped view runs; otherwise the
      request is redirected to the index without running it. */
  predicate RoleRequired(cu: CurrentUser, roles: set<string>)
  {
    cu.LoggedIn? && RoleName(cu.user.cargo) in roles
  }

  /** The manager screens run for an authenticated GESTOR or COORDENADOR and for nobody else. */
  lemma ManagerScreens(cu: CurrentUser)
    ensures RoleRequired(cu, MANAGER_ROLES) <==> cu.LoggedIn? && cu.user.cargo in {Gestor, Coordenador}
  {
  }

  // ---------------------------------------------------------------------------
  // Status of a submitted checklist
  // ---------------------------------------------------------------------------

  /** What the status loop ends with: `KeyError` on an item without an answer, or whether a
      'Não' was found. */
  datatype Scan = Raised | Found(nonConforming: bool)

  /** The status rule read item by item: the first item whose answer is 'Não' settles it; an
      item with no answer key before that raises. */
  function ScanSpec(items: seq<AnswerItem>): Scan
  {
    if items == [] then Found(false)
    else if ANSWER_KEY !in items[0] then Raised
    else if items[0][ANSWER_KEY] == NO then Found(true)
    else ScanSpec(items[1..])
  }

  /** Lines 136-142: the loop that stops at the first 'Não'. */
  method ScanAnswers(items: seq<AnswerItem>) returns (r: Scan)
    ensures r == ScanSpec(items)
  {
    var i := 0;
    while i < |items|
      invariant 0 <= i <= |items|
      invariant ScanSpec(items) == ScanSpec(items[i..])
    {
      assert items[i..][1..] == items[i + 1..];
      var item := items[i];
      if ANSWER_KEY !in item {
        return Raised;
      }
      if item[ANSWER_KEY] == NO {
        return Found(true);
      }
      i := i + 1;
    }
    return Found(false);
  }

  /** When every item carries an answer, the checklist is non-conforming exactly when some
      answer is 'Não'. */
  lemma {:induction false} ScanFindsNo(items: seq<AnswerItem>)
    requires forall k :: 0 <= k < |items| ==> ANSWER_KEY in items[k]
    ensures ScanSpec(items) == Found(exists k :: 0 <= k < |items| && items[k][ANSWER_KEY] == NO)
  {
    if items != [] && items[0][ANSWER_KEY] != NO {
      ScanFindsNo(items[1..]);
      assert forall k :: 1 <= k < |items| ==> items[k] == items[1..][k - 1];
    }
  }

  /** A 'Não' settles the status even when later items have no answer key. */
  lemma {:induction false} ScanStopsAtNo(items: seq<AnswerItem>, k: nat)
    requires k < |items| && ANSWER_KEY in items[k] && items[k][ANSWER_KEY] == NO
    requires forall j :: 0 <= j < k ==> ANSWER_KEY in items[j]
    ensures ScanSpec(items) == Found(true)
  {
    if k > 0 && items[0][ANSWER_KEY] != NO {
      ScanStopsAtNo(items[1..], k - 1);
    }
  }

  /** The status column for the scan's verdict. */
  function StatusFor(nonConforming: bool): (s: string)
    ensures s == NON_CONFORMING <==> nonConforming
    ensures s == CONFORMING <==> !nonConforming
  {
    if nonConforming then NON_CONFORMING else CONFORMING
  }

  // ---------------------------------------------------------------------------
  // Filling a checklist
  // ---------------------------------------------------------------------------

  datatype FillOutcome = LoginRedirect | NotFound | NoTemplate | Failed | Saved(alerted: bool)

  /** The position of the equipment with id `id` (`Equipment.query.get_or_404(id)`). */
  function EquipmentIndex(equipments: seq<Equipment>, id: nat): (r: Option<nat>)
    ensures r.Some? ==> r.value < |equipments| && equipments[r.value].id == id
    ensures r.None? <==> forall e :: e in equipments ==> e.id != id
  {
    IndexWhere(equipments, (e: Equipment) => e.id == id)
  }

  /** `equipment.template`: present when the equipment names a template that exists. */
  predicate HasTemplate(templates: seq<ChecklistTemplate>, e: Equipment)
  {
    e.templateId.Some? && exists t :: t in templates && t.id == e.templateId.value
  }

  /** The row `fill_checklist` inserts. */
  function NewChecklist(id: nat, equipmentId: nat, userId: nat, now: int, items: seq<AnswerItem>,
                        observacoes: Option<string>, assinatura: string, nonConforming: bool): Checklist
  {
    Checklist(id, equipmentId, userId, None, now, items, observacoes, assinatura, None, StatusFor(nonConforming))
  }

  /** POST `/checklist/<equipment_id>` (lines 116-161). `respostas` is the parsed JSON list (`None`
      when the field is absent or not JSON, which raises); an unsigned submission violates the
      NOT NULL signature column. The checklist is committed before the alert is raised, and the
      alert is raised exactly when a 'Não' was found. */
  method FillChecklist(db: EquipmentDb, cu: CurrentUser, equipmentId: nat, respostas: Option<seq<AnswerItem>>,
                       observacoes: Option<string>, assinatura: Option<string>, now: int)
    returns (outcome: FillOutcome)
    requires db.Valid()
    modifies db
    ensures db.Valid()
    ensures db.users == old(db.users) && db.sectors == old(db.sectors)
    ensures db.equipments == old(db.equipments) && db.templates == old(db.templates)
    ensures outcome == LoginRedirect <==> cu.Anonymous?
    ensures outcome == NotFound <==> cu.LoggedIn? && EquipmentIndex(db.equipments, equipmentId).None?
    ensures outcome == NoTemplate <==>
      cu.LoggedIn? && EquipmentIndex(db.equipments, equipmentId).Some?
      && !HasTemplate(db.templates, db.equipments[EquipmentIndex(db.equipments, equipmentId).value])
    ensures !outcome.Saved? ==> db.checklists == old(db.checklists) && db.alerts == old(db.alerts)
    ensures outcome == Failed ==>
      respostas.None? || ScanSpec(respostas.value) == Raised || assinatura.None?
    ensures outcome.Saved? ==>
      cu.LoggedIn? && respostas.Some? && assinatura.Some?
      && ScanSpec(respostas.value) == Found(outcome.alerted)
      && db.checklists == old(db.checklists) + [NewChecklist(old(db.nextId), equipmentId, cu.user.id, now,
                                                 respostas.value, observacoes, assinatura.value, outcome.alerted)]
    ensures outcome == Saved(false) ==> db.alerts == old(db.alerts) && db.nextId == old(db.nextId) + 1
    ensures outcome == Saved(true) ==>
      var setorId := old(db.equipments)[EquipmentIndex(old(db.equipments), equipmentId).value].setorId;
      var alerts := AlertEmail.AlertsFor(old(db.users), setorId, old(db.nextId), old(db.nextId) + 1);
      db.alerts == old(db.alerts) + alerts && db.nextId == old(db.nextId) + 1 + |alerts|
  {
    if cu.Anonymous? {
      return LoginRedirect;
    }
    var k := EquipmentIndex(db.equipments, equipmentId);
    if k.None? {
      return NotFound;
    }
    var equipment := db.equipments[k.value];
    if !HasTemplate(db.templates, equipment) {
      return NoTemplate;
    }
    if respostas.None? {
      return Failed;
    }
    var scan := ScanAnswers(respostas.value);
    if scan.Raised? || assinatura.None? {
      return Failed;
    }
    var checklist := NewChecklist(db.nextId, equipment.id, cu.user.id, now, respostas.value,
                                  observacoes, assinatura.value, scan.nonConforming);
    CommitAndAlert(db, checklist, scan.nonConforming, equipment.setorId);
    return Saved(scan.nonConforming);
  }

  /** Lines 150-158: the checklist is committed, and then, when it is non-conforming, the
      alert is sent for its equipment's sector. */
  method CommitAndAlert(db: EquipmentDb, checklist: Checklist, nonConforming: bool, setorId: nat)
    requires db.Valid() && checklist.id == db.nextId
    modifies db
    ensures db.Valid()
    ensures db.users == old(db.users) && db.sectors == old(db.sectors)
    ensures db.equipments == old(db.equipments) && db.templates == old(db.templates)
    ensures db.checklists == old(db.checklists) + [checklist]
    ensures !nonConforming ==> db.alerts == old(db.alerts) && db.nextId == old(db.nextId) + 1
    ensures nonConforming ==>
      var alerts := AlertEmail.AlertsFor(old(db.users), setorId, checklist.id, old(db.nextId) + 1);
      db.alerts == old(db.alerts) + alerts && db.nextId == old(db.nextId) + 1 + |alerts|
  {
    AppendChecklist(db, checklist);
    if nonConforming {
      var _ := AlertEmail.SendNonComplianceAlert(db, checklist.id, setorId);
    }
  }

  /** Lines 152-153: `db.session.add(checklist)` and the commit, taking the next id. */
  method AppendChecklist(db: EquipmentDb, checklist: Checklist)
    requires db.Valid() && checklist.id == db.nextId
    modifies db
    ensures db.Valid()
    ensures db.users == old(db.users) && db.sectors == old(db.sectors)
    ensures db.equipments == old(db.equipments) && db.templates == old(db.templates)
    ensures db.checklists == old(db.checklists) + [checklist]
    ensures db.alerts == old(db.alerts) && db.nextId == old(db.nextId) + 1
  {
    db.checklists := db.checklists + [checklist];
    db.nextId := db.nextId + 1;
  }

  // ---------------------------------------------------------------------------
  // Pending list
  // ---------------------------------------------------------------------------

  /** The equipment a checklist was filled for, through its foreign key. */
  function EquipmentOf(equipments: seq<Equipment>, c: Checklist): (r: Option<Equipment>)
    ensures r.Some? ==> r.value in equipments && r.value.id == c.equipamentoId
    ensures r.None? <==> forall e :: e in equipments ==> e.id != c.equipamentoId
  {
    FirstWhere(equipments, (e: Equipment) => e.id == c.equipamentoId)
  }

  /** The checklist's equipment is in the viewer's sector. */
  predicate InViewerSector(equipments: seq<Equipment>, viewer: User, c: Checklist)
  {
    var e := EquipmentOf(equipments, c); e.Some? && e.value.setorId == viewer.setorId
  }

  /** Not yet signed by a manager and, for a GESTOR, for equipment of the GESTOR's own sector. */
  predicate PendingFor(equipments: seq<Equipment>, viewer: User, c: Checklist)
  {
    c.assinaturaGestor.None?
    && (viewer.cargo == Gestor ==> InViewerSector(equipments, viewer, c))
  }

  /** GET `/checklists/pending` (lines 166-176): the unsigned checklists, limited to the own
      sector for a GESTOR, newest first; `None` when `role_required` redirects. */
  function PendingChecklists(cu: CurrentUser, equipments: seq<Equipment>, checklists: seq<Checklist>)
    : (r: Option<seq<Checklist>>)
    ensures r.None? <==> !RoleRequired(cu, MANAGER_ROLES)
    ensures r.Some? ==> SortedDesc(r.value, (c: Checklist) => c.data)
    ensures r.Some? ==> cu.LoggedIn?
    ensures r.Some? ==> forall c :: c in r.value <==> c in checklists && PendingFor(equipments, cu.user, c)
  {
    if !RoleRequired(cu, MANAGER_ROLES) then None
    else
      var own := Filter(checklists, (c: Checklist) => PendingFor(equipments, cu.user, c));
      var key := (c: Checklist) => c.data;
      assert forall c :: c in SortDesc(own, key) <==> c in own by {
        forall c ensures c in SortDesc(own, key) <==> c in own {
          SortDescSameRows(own, key, c);
        }
      }
      Some(SortDesc(own, key))
  }

  // ---------------------------------------------------------------------------
  // Validation
  // ---------------------------------------------------------------------------

  /** Lines 194-197 as written: 'Não Conforme' becomes 'Não Conforme (Validado)', every other
      status 'Conforme (Validado)'. */
  function ValidatedStatusAsWritten(status: string): string
  {
    if status == NON_CONFORMING then NON_CONFORMING_VALIDATED else CONFORMING_VALIDATED
  }

  /** Signing an already validated non-conforming checklist again turns it conforming. */
  lemma RevalidationFlipsStatus()
    ensures ValidatedStatusAsWritten(NON_CONFORMING) == NON_CONFORMING_VALIDATED
    ensures ValidatedStatusAsWritten(ValidatedStatusAsWritten(NON_CONFORMING)) == CONFORMING_VALIDATED
  {
    assert NON_CONFORMING_VALIDATED != NON_CONFORMING by {
      assert |NON_CONFORMING_VALIDATED| != |NON_CONFORMING|;
    }
  }

  /** A status that records a non-conformity, validated or not. */
  predicate NonConforming(status: string)
  {
    status == NON_CONFORMING || status == NON_CONFORMING_VALIDATED
  }

  /** The validated status that keeps the checklist's conformity verdict. */
  function ValidatedStatus(status: string): (r: string)
    ensures r == NON_CONFORMING_VALIDATED || r == CONFORMING_VALIDATED
    ensures NonConforming(r) <==> NonConforming(status)
  {
    if NonConforming(status) then NON_CONFORMING_VALIDATED else CONFORMING_VALIDATED
  }

  /** Validating twice is validating once, and a first validation agrees with the code as written. */
  lemma ValidatedStatusStable(status: string)
    ensures ValidatedStatus(ValidatedStatus(status)) == ValidatedStatus(status)
    ensures status != NON_CONFORMING_VALIDATED ==> ValidatedStatus(status) == ValidatedStatusAsWritten(status)
  {
  }

  datatype ViewOutcome = LoginRequired | Forbidden | NoSuchChecklist | WrongSector | Crashed | Unchanged | Validated

  /** The position of the checklist with id `id`. */
  function ChecklistIndex(checklists: seq<Checklist>, id: nat): (r: Option<nat>)
    ensures r.Some? ==> r.value < |checklists| && checklists[r.value].id == id
    ensures r.None? <==> forall c :: c in checklists ==> c.id != id
  {
    IndexWhere(checklists, (c: Checklist) => c.id == id)
  }

  /** POST `/checklist/view/<checklist_id>` (lines 178-203): a GESTOR may sign only checklists of
      their own sector, a COORDENADOR any; a non-empty signature records the manager and the
      validated status, an empty or absent one changes nothing. */
  method ViewChecklist(db: EquipmentDb, cu: CurrentUser, checklistId: nat, assinatura: Option<string>)
    returns (outcome: ViewOutcome)
    requires db.Valid()
    modifies db
    ensures db.Valid()
    ensures db.users == old(db.users) && db.sectors == old(db.sectors) && db.equipments == old(db.equipments)
    ensures db.templates == old(db.templates) && db.alerts == old(db.alerts) && db.nextId == old(db.nextId)
    ensures outcome == LoginRequired <==> cu.Anonymous?
    ensures outcome == Forbidden <==> cu.LoggedIn? && !RoleRequired(cu, MANAGER_ROLES)
    ensures outcome == NoSuchChecklist <==>
      RoleRequired(cu, MANAGER_ROLES) && ChecklistIndex(old(db.checklists), checklistId).None?
    ensures outcome != Validated ==> db.checklists == old(db.checklists)
    ensures outcome == Crashed <==>
      RoleRequired(cu, MANAGER_ROLES) && cu.user.cargo == Gestor && ChecklistIndex(old(db.checklists), checklistId).Some?
      && EquipmentOf(db.equipments, old(db.checklists)[ChecklistIndex(old(db.checklists), checklistId).value]).None?
    ensures outcome == WrongSector <==>
      RoleRequired(cu, MANAGER_ROLES) && cu.user.cargo == Gestor && ChecklistIndex(old(db.checklists), checklistId).Some?
      && var c := old(db.checklists)[ChecklistIndex(old(db.checklists), checklistId).value];
         EquipmentOf(db.equipments, c).Some? && EquipmentOf(db.equipments, c).value.setorId != cu.user.setorId
    ensures outcome == Unchanged <==>
      RoleRequired(cu, MANAGER_ROLES) && ChecklistIndex(old(db.checklists), checklistId).Some?
      && (cu.user.cargo == Gestor ==>
            InViewerSector(db.equipments, cu.user, old(db.checklists)[ChecklistIndex(old(db.checklists), checklistId).value]))
      && !Truthy(assinatura)
    ensures outcome == Validated <==>
      RoleRequired(cu, MANAGER_ROLES) && ChecklistIndex(old(db.checklists), checklistId).Some?
      && (cu.user.cargo == Gestor ==>
            InViewerSector(db.equipments, cu.user, old(db.checklists)[ChecklistIndex(old(db.checklists), checklistId).value]))
      && Truthy(assinatura)
    ensures outcome == Validated ==>
      cu.LoggedIn? && Truthy(assinatura) && ChecklistIndex(old(db.checklists), checklistId).Some?
      && var k := ChecklistIndex(old(db.checklists), checklistId).value;
         var c := old(db.checklists)[k];
         (cu.user.cargo == Gestor ==> InViewerSector(db.equipments, cu.user, c))
         && db.checklists == old(db.checklists)[k := c.(assinaturaGestor := assinatura, gestorId := Some(cu.user.id),
                                                       status := ValidatedStatus(c.status))]
  {
    if cu.Anonymous? {
      return LoginRequired;
    }
    if !RoleRequired(cu, MANAGER_ROLES) {
      return Forbidden;
    }
    var found := ChecklistIndex(db.checklists, checklistId);
    if found.None? {
      return NoSuchChecklist;
    }
    var k := found.value;
    var c := db.checklists[k];
    if cu.user.cargo == Gestor {
      var e := EquipmentOf(db.equipments, c);
      if e.None? {
        // `checklist.equipamento.setor_id` on a missing equipment raises
        return Crashed;
      }
      if e.value.setorId != cu.user.setorId {
        return WrongSector;
      }
    }
    if !Truthy(assinatura) {
      return Unchanged;
    }
    db.checklists := db.checklists[k := c.(assinaturaGestor := assinatura, gestorId := Some(cu.user.id),
                                          status := ValidatedStatus(c.status))];
    return Validated;
  }
}
