/** The checklist flow of the earlier equipment application (checklist_system/app/routes.py).
    `role_required`, the pending list and the validation are the same code as in app/routes.py and
    are modelled once, in `EquipmentRoutes`; what differs is filling a checklist: there is no
    template, the form shows a fixed list of five questions, and the alert is the one of
    checklist_system/app/email.py. */
module SystemRoutes {
  import opened Common
  import opened EquipmentModels
  import EquipmentRoutes
  import AlertEmail
  import SystemAlertEmail

  /** The questions shown on the form (lines 114-120), the same for every equipment. */
  const QUESTIONS: seq<string> := [
    "O equipamento está limpo e em boas condições visuais?",
    "Os cabos e conexões elétricas estão intactos?",
    "Há sinais de vazamento de fluidos?",
    "Os dispositivos de segurança (botões de emergência, guardas) estão funcionando?",
    "O equipamento está operando sem ruídos ou vibrações anormais?"
  ]

  /** What GET `/checklist/<equipment_id>` answers. */
  datatype FillPage = LoginPage | NoEquipment | Form(perguntas: seq<string>)

  /** GET `/checklist/<equipment_id>` (lines 108-120 and 156): the form with the fixed questions
      for any existing equipment. */
  function FillForm(cu: CurrentUser, equipments: seq<Equipment>, equipmentId: nat): (r: FillPage)
    ensures r.LoginPage? <==> cu.Anonymous?
    ensures r.Form? <==> cu.LoggedIn? && exists e :: e in equipments && e.id == equipmentId
    ensures r.Form? ==> |r.perguntas| == 5 && r.perguntas == QUESTIONS
  {
    if cu.Anonymous? then LoginPage
    else if EquipmentRoutes.EquipmentIndex(equipments, equipmentId).None? then NoEquipment
    else Form(QUESTIONS)
  }

  /** Lines 145-152: the checklist is committed, then, when it is non-conforming, the alert runs
      with the ids that follow the checklist's. */
  method CommitAndAlert(db: EquipmentDb, checklist: Checklist, setorId: nat, nonConforming: bool)
    requires db.Valid() && checklist.id == db.nextId
    modifies db
    ensures db.Valid()
    ensures db.users == old(db.users) && db.sectors == old(db.sectors)
    ensures db.equipments == old(db.equipments) && db.templates == old(db.templates)
    ensures db.checklists == old(db.checklists) + [checklist]
    ensures !nonConforming ==> db.alerts == old(db.alerts)
    ensures nonConforming ==>
      SystemAlertEmail.AlertsRecorded(old(db.users), setorId, checklist.id, checklist.id + 1, old(db.alerts), db.alerts)
  {
    db.checklists := db.checklists + [checklist];
    db.nextId := db.nextId + 1;
    if nonConforming {
      var _ := SystemAlertEmail.SendNonComplianceAlert(db, checklist.id, setorId);
    }
  }

  datatype FillOutcome = LoginRedirect | NotFound | Failed | Saved(alerted: bool)

  /** POST `/checklist/<equipment_id>` (lines 122-154): the status rule of `EquipmentRoutes`,
      without the template check; the checklist is committed and, when non-conforming, the alert
      runs (`CommitAndAlert`). */
  method FillChecklist(db: EquipmentDb, cu: CurrentUser, equipmentId: nat, respostas: Option<seq<AnswerItem>>,
                       observacoes: Option<string>, assinatura: Option<string>, now: int)
    returns (outcome: FillOutcome)
    requires db.Valid()
    modifies db
    ensures db.Valid()
    ensures db.users == old(db.users) && db.sectors == old(db.sectors)
    ensures db.equipments == old(db.equipments) && db.templates == old(db.templates)
    ensures outcome == LoginRedirect <==> cu.Anonymous?
    ensures outcome == NotFound <==> cu.LoggedIn? && EquipmentRoutes.EquipmentIndex(db.equipments, equipmentId).None?
    ensures !outcome.Saved? ==> db.checklists == old(db.checklists) && db.alerts == old(db.alerts)
    ensures outcome == Failed ==>
      respostas.None? || EquipmentRoutes.ScanSpec(respostas.value) == EquipmentRoutes.Raised || assinatura.None?
    ensures outcome.Saved? ==>
      cu.LoggedIn? && respostas.Some? && assinatura.Some?
      && EquipmentRoutes.ScanSpec(respostas.value) == EquipmentRoutes.Found(outcome.alerted)
      && db.checklists == old(db.checklists) + [EquipmentRoutes.NewChecklist(old(db.nextId), equipmentId, cu.user.id,
                            now, respostas.value, observacoes, assinatura.value, outcome.alerted)]
    ensures outcome == Saved(false) ==> db.alerts == old(db.alerts)
  {
    if cu.Anonymous? {
      return LoginRedirect;
    }
    var k := EquipmentRoutes.EquipmentIndex(db.equipments, equipmentId);
    if k.None? {
      return NotFound;
    }
    var equipment := db.equipments[k.value];
    if respostas.None? {
      return Failed;
    }
    var scan := EquipmentRoutes.ScanAnswers(respostas.value);
    if scan.Raised? || assinatura.None? {
      return Failed;
    }
    var checklist := EquipmentRoutes.NewChecklist(db.nextId, equipment.id, cu.user.id, now, respostas.value,
                                                  observacoes, assinatura.value, scan.nonConforming);
    CommitAndAlert(db, checklist, equipment.setorId, scan.nonConforming);
    return Saved(scan.nonConforming);
  }
}
