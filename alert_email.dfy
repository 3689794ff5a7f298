/** The non-conformity alert of the equipment application (app/email.py): the sector's manager
    and every coordinator are mailed once each, and one `Alert` row per recipient is recorded.
    The SMTP exchange is not modelled: `send_email` catches every failure, so whether the mail
    left has no effect on what is recorded. */
module AlertEmail {
  import opened Common
  import opened EquipmentModels

  // ---------------------------------------------------------------------------
  // The To header
  // ---------------------------------------------------------------------------

  /** `", ".join(recipients)` (line 12). */
  function ToHeader(recipients: seq<string>): string
  {
    if recipients == [] then ""
    else if |recipients| == 1 then recipients[0]
    else recipients[0] + ", " + ToHeader(recipients[1..])
  }

  /** Where the k-th recipient starts in the header: after every earlier recipient and its ", ". */
  function HeaderOffset(recipients: seq<string>, k: nat): nat
    requires k <= |recipients|
  {
    if k == 0 then 0 else |recipients[0]| + 2 + HeaderOffset(recipients[1..], k - 1)
  }

  /** The header lists the recipients in order: the k-th sits at its offset, followed by ", "
      unless it is the last, and the last one ends the header. */
  lemma {:induction false} HeaderLayout(recipients: seq<string>, k: nat)
    requires k < |recipients|
    ensures var h, at := ToHeader(recipients), HeaderOffset(recipients, k);
      OccursAt(h, recipients[k], at)
      && (k + 1 < |recipients| ==> OccursAt(h, ", ", at + |recipients[k]|))
      && (k + 1 == |recipients| ==> |h| == at + |recipients[k]|)
  {
    var h := ToHeader(recipients);
    var first := recipients[0];
    if |recipients| == 1 {
      assert h[0..|first|] == first;
    } else if k == 0 {
      assert h == first + ", " + ToHeader(recipients[1..]);
      assert h[0..|first|] == first;
      assert h[|first|..|first| + 2] == ", ";
    } else {
      var rest := ToHeader(recipients[1..]);
      assert h == (first + ", ") + rest;
      HeaderLayout(recipients[1..], k - 1);
      var at := HeaderOffset(recipients[1..], k - 1);
      assert recipients[1..][k - 1] == recipients[k];
      OccursAtShift(first + ", ", rest, recipients[k], at);
      if k + 1 < |recipients| {
        OccursAtShift(first + ", ", rest, ", ", at + |recipients[k]|);
      }
    }
  }

  // ---------------------------------------------------------------------------
  // Recipients
  // ---------------------------------------------------------------------------

  /** `checklist.equipamento.setor.users`: the users of the equipment's sector, in table order. */
  function SectorUsers(users: seq<User>, setorId: nat): seq<User>
  {
    if users == [] then []
    else (if users[0].setorId == setorId then [users[0]] else []) + SectorUsers(users[1..], setorId)
  }

  /** The sector's users are exactly the users whose `setor_id` is the sector's. */
  lemma {:induction false} SectorUsersMembers(users: seq<User>, setorId: nat)
    ensures forall u :: u in SectorUsers(users, setorId) <==> u in users && u.setorId == setorId
  {
    if users != [] {
      SectorUsersMembers(users[1..], setorId);
      assert users == [users[0]] + users[1..];
    }
  }

  /** `user.cargo.name == 'GESTOR'` */
  predicate IsManager(u: User)
  {
    RoleName(u.cargo) == "GESTOR"
  }

  /** Lines 38-42: the first user of the sector whose cargo is GESTOR, found by a loop with `break`. */
  method FindManager(sectorUsers: seq<User>) returns (gestor: Option<User>)
    ensures gestor == FirstWhere(sectorUsers, IsManager)
  {
    gestor := None;
    var i := 0;
    while i < |sectorUsers|
      invariant 0 <= i <= |sectorUsers|
      invariant forall j :: 0 <= j < i ==> !IsManager(sectorUsers[j])
    {
      if RoleName(sectorUsers[i].cargo) == "GESTOR" {
        gestor := Some(sectorUsers[i]);
        break;
      }
      i := i + 1;
    }
  }

  /** `User.query.filter_by(cargo='COORDENADOR').all()` (line 45), in table order. */
  function Coordinators(users: seq<User>): seq<User>
  {
    if users == [] then []
    else (if users[0].cargo == Coordenador then [users[0]] else []) + Coordinators(users[1..])
  }

  /** The coordinators are exactly the users whose cargo is COORDENADOR. */
  lemma {:induction false} CoordinatorsMembers(users: seq<User>)
    ensures forall u :: u in Coordinators(users) <==> u in users && u.cargo == Coordenador
  {
    if users != [] {
      CoordinatorsMembers(users[1..]);
      assert users == [users[0]] + users[1..];
    }
  }

  /** `[c.email for c in coordenadores]` */
  function Emails(us: seq<User>): (r: seq<string>)
    ensures |r| == |us| && forall k :: 0 <= k < |us| ==> r[k] == us[k].email
  {
    seq(|us|, k requires 0 <= k < |us| => us[k].email)
  }

  /** Lines 51-54: the manager's address first, when there is a manager, then every coordinator's
      in query order. */
  function RawRecipients(gestor: Option<User>, coordenadores: seq<User>): (r: seq<string>)
    ensures |r| == (if gestor.Some? then 1 else 0) + |coordenadores|
    ensures gestor.Some? ==> r[0] == gestor.value.email
    ensures forall c :: c in coordenadores ==> c.email in r
  {
    var head := if gestor.Some? then [gestor.value.email] else [];
    var tail := Emails(coordenadores);
    assert forall c :: c in coordenadores ==> c.email in tail;
    head + tail
  }

  /** The coordinators' addresses close the list, in query order. */
  lemma RawRecipientsOrder(gestor: Option<User>, coordenadores: seq<User>)
    ensures var r := RawRecipients(gestor, coordenadores);
      r[|r| - |coordenadores|..] == Emails(coordenadores)
  {
    var head := if gestor.Some? then [gestor.value.email] else [];
    assert RawRecipients(gestor, coordenadores) == head + Emails(coordenadores);
  }


  /** No address occurs twice. */
  predicate NoDuplicates(s: seq<string>)
  {
    forall i, j :: 0 <= i < j < |s| ==> s[i] != s[j]
  }

  /** `list(set(recipients))` (line 57): each address once. Python's set fixes no order; this
      keeps first occurrences. */
  function Distinct(s: seq<string>): (r: seq<string>)
    ensures NoDuplicates(r)
    ensures forall x :: x in r <==> x in s
    ensures |r| <= |s|
  {
    if s == [] then []
    else
      var rest := Distinct(s[..|s| - 1]);
      var last := s[|s| - 1];
      assert s == s[..|s| - 1] + [last];
      if last in rest then rest else rest + [last]
  }

  /** An address list without repetitions is its own de-duplication. */
  lemma {:induction false} DistinctOfDistinct(s: seq<string>)
    requires NoDuplicates(s)
    ensures Distinct(s) == s
  {
    if s != [] {
      var init := s[..|s| - 1];
      assert NoDuplicates(init);
      DistinctOfDistinct(init);
      assert s[|s| - 1] !in init;
      assert s == init + [s[|s| - 1]];
    }
  }

  // ---------------------------------------------------------------------------
  // Alert rows
  // ---------------------------------------------------------------------------

  /** One alert per recipient, all pointing to the checklist, with consecutive fresh ids. */
  function AlertRows(checklistId: nat, recipients: seq<string>, firstId: nat): (r: seq<Alert>)
  {
    seq(|recipients|, k requires 0 <= k < |recipients| => Alert(firstId + k, checklistId, recipients[k]))
  }

  /** The alert rows `send_non_compliance_alert` records for a checklist whose equipment is
      in sector `setorId`, with ids from `firstId`: none when the sector has no manager and
      there is no coordinator, otherwise one per distinct address among them. */
  function AlertsFor(users: seq<User>, setorId: nat, checklistId: nat, firstId: nat): (r: seq<Alert>)
    ensures var gestor := FirstWhere(SectorUsers(users, setorId), IsManager);
      var coordenadores := Coordinators(users);
      && (r == [] <==> gestor.None? && coordenadores == [])
      && (forall k :: 0 <= k < |r| ==> r[k].checklistId == checklistId && r[k].id == firstId + k)
  {
    var gestor := FirstWhere(SectorUsers(users, setorId), IsManager);
    var coordenadores := Coordinators(users);
    if gestor.None? && coordenadores == [] then []
    else
      var list := Distinct(RawRecipients(gestor, coordenadores));
      assert list != [] by {
        assert RawRecipients(gestor, coordenadores) != [];
        assert RawRecipients(gestor, coordenadores)[0] in list;
      }
      AlertRows(checklistId, list, firstId)
  }

  /** The recorded alerts reach the manager and every coordinator, each address once. */
  lemma AlertsForReachEveryone(users: seq<User>, setorId: nat, checklistId: nat, firstId: nat)
    ensures var gestor := FirstWhere(SectorUsers(users, setorId), IsManager);
      var coordenadores := Coordinators(users);
      var r := AlertsFor(users, setorId, checklistId, firstId);
      && (forall a :: a in RawRecipients(gestor, coordenadores) <==> exists k :: 0 <= k < |r| && r[k].enviadoPara == a)
      && (forall j, k :: 0 <= j < k < |r| ==> r[j].enviadoPara != r[k].enviadoPara)
  {
    var gestor := FirstWhere(SectorUsers(users, setorId), IsManager);
    var coordenadores := Coordinators(users);
    var raw := RawRecipients(gestor, coordenadores);
    var r := AlertsFor(users, setorId, checklistId, firstId);
    if gestor.None? && coordenadores == [] {
      assert raw == [];
    } else {
      var list := Distinct(raw);
      assert r == AlertRows(checklistId, list, firstId);
      assert forall k :: 0 <= k < |r| ==> r[k].enviadoPara == list[k];
      forall a | a in raw
        ensures exists k :: 0 <= k < |r| && r[k].enviadoPara == a
      {
        var k :| 0 <= k < |list| && list[k] == a;
        assert r[k].enviadoPara == a;
      }
    }
  }

  /** Lines 75-77: the loop adding one `Alert` per recipient to the session. */
  method BuildAlerts(checklistId: nat, recipients: seq<string>, firstId: nat) returns (rows: seq<Alert>)
    ensures |rows| == |recipients|
    ensures forall k :: 0 <= k < |rows| ==>
      rows[k].checklistId == checklistId && rows[k].enviadoPara == recipients[k] && rows[k].id == firstId + k
  {
    rows := [];
    for k := 0 to |recipients|
      invariant |rows| == k
      invariant forall j :: 0 <= j < k ==> rows[j] == Alert(firstId + j, checklistId, recipients[j])
    {
      rows := rows + [Alert(firstId + k, checklistId, recipients[k])];
    }
  }

  /** Lines 75-78: the alerts are added and committed together. */
  method RecordAlerts(db: EquipmentDb, checklistId: nat, recipients: seq<string>)
    modifies db
    ensures db.alerts == old(db.alerts) + AlertRows(checklistId, recipients, old(db.nextId))
    ensures db.nextId == old(db.nextId) + |recipients|
    ensures db.users == old(db.users) && db.sectors == old(db.sectors) && db.equipments == old(db.equipments)
    ensures db.templates == old(db.templates) && db.checklists == old(db.checklists)
  {
    var rows := BuildAlerts(checklistId, recipients, db.nextId);
    assert rows == AlertRows(checklistId, recipients, db.nextId);
    db.alerts := db.alerts + rows;
    db.nextId := db.nextId + |recipients|;
  }

  /** `send_non_compliance_alert(checklist)` (lines 36-78) for a checklist whose equipment is in
      sector `setorId`. Without a manager and without coordinators nothing is sent or recorded
      (`None`); otherwise the distinct recipients are returned and one alert per recipient is
      recorded, whatever the SMTP server did. */
  method SendNonComplianceAlert(db: EquipmentDb, checklistId: nat, setorId: nat)
    returns (recipients: Option<seq<string>>)
    requires db.Valid()
    modifies db
    ensures db.Valid()
    ensures db.users == old(db.users) && db.sectors == old(db.sectors) && db.equipments == old(db.equipments)
    ensures db.templates == old(db.templates) && db.checklists == old(db.checklists)
    ensures var gestor := FirstWhere(SectorUsers(old(db.users), setorId), IsManager);
            var coordenadores := Coordinators(old(db.users));
      && (recipients.None? <==> gestor.None? && coordenadores == [])
      && (recipients.None? ==> db.alerts == old(db.alerts) && db.nextId == old(db.nextId))
      && (recipients.Some? ==>
            NoDuplicates(recipients.value)
            && (forall a :: a in recipients.value <==> a in RawRecipients(gestor, coordenadores))
            && db.alerts == old(db.alerts) + AlertRows(checklistId, recipients.value, old(db.nextId)))
    ensures db.alerts == old(db.alerts) + AlertsFor(old(db.users), setorId, checklistId, old(db.nextId))
    ensures db.nextId == old(db.nextId) + |AlertsFor(old(db.users), setorId, checklistId, old(db.nextId))|
  {
    var gestor := FindManager(SectorUsers(db.users, setorId));
    var coordenadores := Coordinators(db.users);
    if gestor.None? && coordenadores == [] {
      return None;
    }
    var list := Distinct(RawRecipients(gestor, coordenadores));
    RecordAlerts(db, checklistId, list);
    return Some(list);
  }

  /** The recorded alerts: exactly one per distinct address among the manager and the
      coordinators; with a single coordinator and no manager, exactly one alert to that address. */
  lemma SingleCoordinatorGetsOneAlert(checklistId: nat, coordinator: User, firstId: nat)
    ensures var list := Distinct(RawRecipients(None, [coordinator]));
      var rows := AlertRows(checklistId, list, firstId);
      |rows| == 1 && rows[0].enviadoPara == coordinator.email && rows[0].checklistId == checklistId
  {
    var raw := RawRecipients(None, [coordinator]);
    assert raw == [coordinator.email];
    DistinctOfDistinct(raw);
  }
}
