/** The non-conformity alert of the earlier equipment application (checklist_system/app/email.py):
    the sector's manager first, then every coordinator, duplicates kept, and one `Alert` row per
    entry. As written the function raises on its first line, after the checklist is committed. */
module SystemAlertEmail {
  import opened Common
  import opened EquipmentModels
  import AlertEmail

  /** How a call of the alert function ends. */
  datatype AlertRun = Raised | NoRecipients | Recorded(recipients: seq<string>)

  /** Lines 29-30 as written: `setor.users` is a plain list (the backref is not `lazy='dynamic'`),
      so `.filter_by` raises `AttributeError`, and `User` is not imported either. No input
      reaches the recipient list. */
  function SendAsWritten(users: seq<User>, setorId: nat): (r: AlertRun)
    ensures r == Raised
  {
    Raised
  }

  /** The run of the intended function: nothing when there is neither a manager nor a
      coordinator, otherwise the list of lines 36-39 (`AlertEmail.RawRecipients`: the manager's
      address first, then every coordinator's in query order, nothing de-duplicated). */
  function SendIntended(users: seq<User>, setorId: nat): AlertRun
  {
    var gestor := FirstWhere(AlertEmail.SectorUsers(users, setorId), AlertEmail.IsManager);
    var coordenadores := AlertEmail.Coordinators(users);
    if gestor.None? && coordenadores == [] then NoRecipients
    else Recorded(AlertEmail.RawRecipients(gestor, coordenadores))
  }

  /** The alert table after the intended run for checklist `checklistId`, the new rows taking
      consecutive ids from `firstId`. */
  ghost predicate AlertsRecorded(users: seq<User>, setorId: nat, checklistId: nat, firstId: nat,
                                 before: seq<Alert>, after: seq<Alert>)
  {
    match SendIntended(users, setorId)
    case NoRecipients => after == before
    case Recorded(rs) => after == before + AlertEmail.AlertRows(checklistId, rs, firstId)
    case Raised => false
  }

  /** The intended function never raises, and it stays silent exactly when the sector has no
      manager and there is no coordinator at all. */
  lemma SendIntendedSilent(users: seq<User>, setorId: nat)
    ensures SendIntended(users, setorId) != Raised
    ensures SendIntended(users, setorId) == NoRecipients <==>
      (forall u :: u in users ==> !(u.setorId == setorId && AlertEmail.IsManager(u)))
      && (forall u :: u in users ==> u.cargo != Coordenador)
  {
    AlertEmail.SectorUsersMembers(users, setorId);
    AlertEmail.CoordinatorsMembers(users);
    var coordenadores := AlertEmail.Coordinators(users);
    assert coordenadores != [] ==> coordenadores[0] in coordenadores;
  }

  /** The defect: with a coordinator on record the intended function records an alert for them,
      while the function as written raises and records nothing. */
  lemma AsWrittenLosesAlert(coordinator: User)
    requires coordinator.cargo == Coordenador
    ensures SendAsWritten([coordinator], coordinator.setorId) == Raised
    ensures SendIntended([coordinator], coordinator.setorId) == Recorded([coordinator.email])
  {
    assert AlertEmail.Coordinators([coordinator]) == [coordinator];
    assert !AlertEmail.IsManager(coordinator);
    assert AlertEmail.SectorUsers([coordinator], coordinator.setorId) == [coordinator];
  }

  /** `send_non_compliance_alert(checklist)` as intended (lines 28-62) for a checklist whose
      equipment is in sector `setorId`: one alert per list entry, so a coordinator who is also
      the sector's manager is alerted twice. */
  method SendNonComplianceAlert(db: EquipmentDb, checklistId: nat, setorId: nat)
    returns (recipients: Option<seq<string>>)
    requires db.Valid()
    modifies db
    ensures db.Valid()
    ensures db.users == old(db.users) && db.sectors == old(db.sectors) && db.equipments == old(db.equipments)
    ensures db.templates == old(db.templates) && db.checklists == old(db.checklists)
    ensures recipients.None? <==> SendIntended(old(db.users), setorId) == NoRecipients
    ensures recipients.None? ==> db.alerts == old(db.alerts) && db.nextId == old(db.nextId)
    ensures recipients.Some? ==>
      SendIntended(old(db.users), setorId) == Recorded(recipients.value)
      && db.alerts == old(db.alerts) + AlertEmail.AlertRows(checklistId, recipients.value, old(db.nextId))
    ensures AlertsRecorded(old(db.users), setorId, checklistId, old(db.nextId), old(db.alerts), db.alerts)
  {
    var gestor := FirstWhere(AlertEmail.SectorUsers(db.users, setorId), AlertEmail.IsManager);
    var coordenadores := AlertEmail.Coordinators(db.users);
    if gestor.None? && coordenadores == [] {
      return None;
    }
    var list := AlertEmail.RawRecipients(gestor, coordenadores);
    AlertEmail.RecordAlerts(db, checklistId, list);
    return Some(list);
  }

  /** The addresses of the rows recorded for a recipient list are the list's addresses. */
  lemma AlertRowsAddresses(checklistId: nat, rs: seq<string>, firstId: nat)
    ensures (set r | r in AlertEmail.AlertRows(checklistId, rs, firstId) :: r.enviadoPara) == (set a | a in rs)
  {
    var rows := AlertEmail.AlertRows(checklistId, rs, firstId);
    forall a | a in rs
      ensures a in (set r | r in rows :: r.enviadoPara)
    {
      var k :| 0 <= k < |rs| && rs[k] == a;
      assert rows[k] in rows;
    }
  }

  /** The de-duplicating variant (app/email.py) against this one: when this one leaves the
      alert table `before` as `after`, the rows the variant records from the same users
      (`AlertEmail.AlertsFor`) are no more than the rows this one appended, and both sets of
      rows carry the same `enviado_para` addresses. */
  lemma {:induction false} DedupRecordsNoMore(users: seq<User>, setorId: nat, checklistId: nat, firstId: nat,
                                              before: seq<Alert>, after: seq<Alert>)
    requires AlertsRecorded(users, setorId, checklistId, firstId, before, after)
    ensures var dedup := AlertEmail.AlertsFor(users, setorId, checklistId, firstId);
      && |before| <= |after| && after[..|before|] == before
      && |dedup| <= |after| - |before|
      && (set r | r in dedup :: r.enviadoPara) == (set r | r in after[|before|..] :: r.enviadoPara)
  {
    var dedup := AlertEmail.AlertsFor(users, setorId, checklistId, firstId);
    var gestor := FirstWhere(AlertEmail.SectorUsers(users, setorId), AlertEmail.IsManager);
    var coordenadores := AlertEmail.Coordinators(users);
    match SendIntended(users, setorId)
    case NoRecipients =>
      assert dedup == [];
      assert after[|before|..] == [];
    case Recorded(rs) =>
      assert rs == AlertEmail.RawRecipients(gestor, coordenadores);
      var list := AlertEmail.Distinct(rs);
      assert dedup == AlertEmail.AlertRows(checklistId, list, firstId);
      assert after[|before|..] == AlertEmail.AlertRows(checklistId, rs, firstId);
      AlertRowsAddresses(checklistId, list, firstId);
      AlertRowsAddresses(checklistId, rs, firstId);
      assert (set a | a in list) == (set a | a in rs);
  }
}
