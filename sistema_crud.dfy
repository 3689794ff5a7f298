/** The data-access layer of the FastAPI service (sistema_checklist/app/crud.py): user lookup
    and creation, the authentication dependencies, paging of sectors and equipment, and
    checklist submission with its responses. */
module SistemaCrud {
  import opened Common
  import opened SistemaModels

  // ---------------------------------------------------------------------------
  // Users
  // ---------------------------------------------------------------------------

  /** `get_user_by_username` (lines 8-10): the first user with that username. */
  function GetUserByUsername(users: seq<User>, username: string): (r: Option<User>)
    ensures r.Some? ==> r.value in users && r.value.username == username
    ensures r.None? <==> forall u :: u in users ==> u.username != username
  {
    FirstWhere(users, (u: User) => u.username == username)
  }

  /** With unique usernames the lookup finds each user by its own username. */
  lemma LookupFindsOwner(users: seq<User>, u: User)
    requires UniqueAccounts(users) && u in users
    ensures GetUserByUsername(users, u.username) == Some(u)
  {
    var r := GetUserByUsername(users, u.username);
    var i :| 0 <= i < |users| && users[i] == r.value;
    var j :| 0 <= j < |users| && users[j] == u;
    assert i == j;
  }

  /** The body of `POST /users/`. */
  datatype UserCreate = UserCreate(username: string, email: string, fullName: string, password: string, role: UserRole)

  /** `create_user` (lines 12-25): the password is stored only as its hash (`hash` stands for
      the bcrypt context), and the account is active and in no sector. A username or e-mail
      already in use breaks a unique column: the commit fails and nothing is stored (`None`). */
  method CreateUser(db: SistemaDb, user: UserCreate, hash: string -> string) returns (created: Option<User>)
    requires db.Valid()
    modifies db
    ensures db.Valid()
    ensures db.sectors == old(db.sectors) && db.equipments == old(db.equipments)
    ensures db.checklists == old(db.checklists) && db.responses == old(db.responses)
    ensures created.None? <==> exists u :: u in old(db.users) && (u.username == user.username || u.email == user.email)
    ensures created.None? ==> db.users == old(db.users)
    ensures created.Some? ==>
      created.value == User(old(db.nextId), user.username, hash(user.password), user.fullName, user.email,
                            user.role, None, true)
      && db.users == old(db.users) + [created.value]
      && GetUserByUsername(db.users, user.username) == created
  {
    if exists u :: u in db.users && (u.username == user.username || u.email == user.email) {
      return None;
    }
    var u := User(db.nextId, user.username, hash(user.password), user.fullName, user.email, user.role, None, true);
    db.users := db.users + [u];
    db.nextId := db.nextId + 1;
    LookupFindsOwner(db.users, u);
    return Some(u);
  }

  // ---------------------------------------------------------------------------
  // Authentication
  // ---------------------------------------------------------------------------

  /** What the `get_current_user` dependency gives: a 401 or the user. */
  datatype Auth = Unauthorized | Authenticated(user: User)

  /** `get_current_user` (lines 28-41). `decode` stands for `jwt.decode` with the service's key
      and algorithm: `None` for a bad signature or an expired token. A token that does not
      decode, has no `sub`, or names no user gets the same 401. */
  function GetCurrentUser(token: string, decode: string -> Option<map<string, string>>, users: seq<User>): (r: Auth)
    ensures r.Authenticated? ==>
      r.user in users && decode(token).Some? && "sub" in decode(token).value
      && r.user.username == decode(token).value["sub"]
    ensures r == Unauthorized <==>
      decode(token).None? || "sub" !in decode(token).value
      || forall u :: u in users ==> u.username != decode(token).value["sub"]
  {
    match decode(token)
    case None => Unauthorized
    case Some(payload) =>
      if "sub" !in payload then Unauthorized
      else
        match GetUserByUsername(users, payload["sub"])
        case None => Unauthorized
        case Some(u) => Authenticated(u)
  }

  /** A token issued at login (`{"sub": username}`) authenticates that user. */
  lemma LoginTokenAuthenticates(token: string, decode: string -> Option<map<string, string>>, users: seq<User>, u: User)
    requires UniqueAccounts(users) && u in users
    requires decode(token) == Some(map["sub" := u.username])
    ensures GetCurrentUser(token, decode, users) == Authenticated(u)
  {
    LookupFindsOwner(users, u);
  }

  /** How the `get_current_active_user` dependency ends, with the HTTP status of a refusal. */
  datatype ActiveCheck = NotAuthenticated | InactiveUser | InternalError | Active(user: User)

  function HttpStatus(a: ActiveCheck): (code: nat)
    ensures a.Active? <==> code == 200
  {
    match a
    case NotAuthenticated => 401
    case InactiveUser => 400
    case InternalError => 500
    case Active(_) => 200
  }

  /** Lines 43-46 as written: `HTTPException` is not imported in crud.py, so an inactive user
      makes the `raise` itself fail with `NameError`, which the server answers with 500. */
  function GetCurrentActiveUserAsWritten(auth: Auth): ActiveCheck
  {
    match auth
    case Unauthorized => NotAuthenticated
    case Authenticated(u) => if !u.isActive then InternalError else Active(u)
  }

  /** Lines 43-46 as intended: an inactive user is refused with 400 "Inactive user". */
  function GetCurrentActiveUser(auth: Auth): (r: ActiveCheck)
    ensures r != InternalError
    ensures r.Active? <==> auth.Authenticated? && auth.user.isActive
    ensures r.Active? ==> r.user == auth.user
  {
    match auth
    case Unauthorized => NotAuthenticated
    case Authenticated(u) => if !u.isActive then InactiveUser else Active(u)
  }

  /** The defect: an inactive user's request ends in a server error instead of the intended 400,
      while every other request is answered alike. */
  lemma InactiveUserGetsServerError(u: User)
    requires !u.isActive
    ensures HttpStatus(GetCurrentActiveUserAsWritten(Authenticated(u))) == 500
    ensures HttpStatus(GetCurrentActiveUser(Authenticated(u))) == 400
  {
  }

  lemma AsWrittenAgreesOtherwise(auth: Auth)
    requires auth.Authenticated? ==> auth.user.isActive
    ensures GetCurrentActiveUserAsWritten(auth) == GetCurrentActiveUser(auth)
  {
  }

  // ---------------------------------------------------------------------------
  // Paging
  // ---------------------------------------------------------------------------

  /** Where `OFFSET skip` starts in SQLite: a negative offset counts as none. */
  function Start(skip: int, n: nat): (s: nat)
    ensures s <= n
  {
    if skip < 0 then 0 else if skip > n then n else skip
  }

  /** `query.offset(skip).limit(limit).all()` (lines 51-52 and 61-62) on SQLite: the rows from
      `skip` on, at most `limit` of them; a negative limit puts no bound. */
  function Page<T>(rows: seq<T>, skip: int, limit: int): (r: seq<T>)
    ensures |r| <= |rows|
    ensures limit >= 0 ==> |r| <= limit
    ensures r <= rows[Start(skip, |rows|)..]
    ensures limit < 0 ==> r == rows[Start(skip, |rows|)..]
    ensures limit >= 0 && Start(skip, |rows|) + limit <= |rows| ==> |r| == limit
    ensures limit >= 0 && Start(skip, |rows|) + limit > |rows| ==> r == rows[Start(skip, |rows|)..]
  {
    var s := Start(skip, |rows|);
    var e := if limit < 0 || s + limit > |rows| then |rows| else s + limit;
    rows[s..e]
  }

  /** Two consecutive pages make up the page spanning both. */
  lemma PagesAdjacent<T>(rows: seq<T>, skip: nat, a: nat, b: nat)
    ensures Page(rows, skip, a) + Page(rows, skip + a, b) == Page(rows, skip, a + b)
  {
  }

  /** Walking the pages of size `limit` from the start lists the table in order. */
  lemma {:induction false} PagesCoverTable<T>(rows: seq<T>, limit: nat, pages: nat)
    requires limit > 0 && pages * limit >= |rows|
    ensures PagesConcat(rows, limit, pages) == rows
  {
    PagesConcatIsPage(rows, limit, pages);
    assert Page(rows, 0, pages * limit) == rows[0..|rows|];
  }

  /** The first `pages` pages of size `limit`, one after another. */
  function PagesConcat<T>(rows: seq<T>, limit: nat, pages: nat): seq<T>
  {
    if pages == 0 then [] else PagesConcat(rows, limit, pages - 1) + Page(rows, (pages - 1) * limit, limit)
  }

  lemma {:induction false} PagesConcatIsPage<T>(rows: seq<T>, limit: nat, pages: nat)
    ensures PagesConcat(rows, limit, pages) == Page(rows, 0, pages * limit)
  {
    if pages > 0 {
      var m: nat := (pages - 1) * limit;
      assert m + limit == pages * limit;
      PagesConcatIsPage(rows, limit, pages - 1);
      PagesAdjacent(rows, 0, m, limit);
      assert PagesConcat(rows, limit, pages) == Page(rows, 0, m) + Page(rows, m, limit);
    }
  }

  // ---------------------------------------------------------------------------
  // Sectors and equipment
  // ---------------------------------------------------------------------------

  /** `get_sector_by_name` (lines 48-49). */
  function GetSectorByName(sectors: seq<Sector>, name: string): (r: Option<Sector>)
    ensures r.Some? ==> r.value in sectors && r.value.name == name
    ensures r.None? <==> forall s :: s in sectors ==> s.name != name
  {
    FirstWhere(sectors, (s: Sector) => s.name == name)
  }

  /** `create_sector` (lines 54-59): a sector without a manager; a name already in use breaks
      the unique column and nothing is stored. */
  method CreateSector(db: SistemaDb, name: string) returns (created: Option<Sector>)
    requires db.Valid()
    modifies db
    ensures db.Valid()
    ensures db.users == old(db.users) && db.equipments == old(db.equipments)
    ensures db.checklists == old(db.checklists) && db.responses == old(db.responses)
    ensures created.None? <==> GetSectorByName(old(db.sectors), name).Some?
    ensures created.None? ==> db.sectors == old(db.sectors)
    ensures created.Some? ==>
      created.value == Sector(old(db.nextId), name, None) && db.sectors == old(db.sectors) + [created.value]
      && GetSectorByName(db.sectors, name) == created
  {
    if GetSectorByName(db.sectors, name).Some? {
      return None;
    }
    var s := Sector(db.nextId, name, None);
    db.sectors := db.sectors + [s];
    db.nextId := db.nextId + 1;
    assert db.sectors[|db.sectors| - 1] == s;
    return Some(s);
  }

  /** The body of `POST /equipments/`. */
  datatype EquipmentCreate = EquipmentCreate(name: string, location: Option<string>, sectorId: nat)

  /** `create_equipment` (lines 64-73). `qrCode` stands for the fresh UUID the column's default
      draws; one already on record would break the unique column and nothing is stored. The
      sector is not checked: SQLite does not enforce the foreign key. */
  method CreateEquipment(db: SistemaDb, equipment: EquipmentCreate, qrCode: string) returns (created: Option<Equipment>)
    requires db.Valid()
    modifies db
    ensures db.Valid()
    ensures db.users == old(db.users) && db.sectors == old(db.sectors)
    ensures db.checklists == old(db.checklists) && db.responses == old(db.responses)
    ensures created.None? <==> exists e :: e in old(db.equipments) && e.qrCode == qrCode
    ensures created.None? ==> db.equipments == old(db.equipments)
    ensures created.Some? ==>
      created.value == Equipment(old(db.nextId), equipment.name, equipment.location, qrCode, equipment.sectorId)
      && db.equipments == old(db.equipments) + [created.value]
  {
    if exists e :: e in db.equipments && e.qrCode == qrCode {
      return None;
    }
    var e := Equipment(db.nextId, equipment.name, equipment.location, qrCode, equipment.sectorId);
    db.equipments := db.equipments + [e];
    db.nextId := db.nextId + 1;
    return Some(e);
  }

  /** `get_sectors` (lines 51-52). */
  function GetSectors(sectors: seq<Sector>, skip: int, limit: int): (r: seq<Sector>)
    ensures r == Page(sectors, skip, limit)
    ensures limit >= 0 ==> |r| <= limit
  {
    Page(sectors, skip, limit)
  }

  /** `get_equipments` (lines 61-62): the same offset and limit `Page` as `get_sectors`,
      over the equipment table instead. */
  function GetEquipments(equipments: seq<Equipment>, skip: int, limit: int): (r: seq<Equipment>)
    ensures r == Page(equipments, skip, limit)
    ensures limit >= 0 ==> |r| <= limit
  {
    Page(equipments, skip, limit)
  }

  // ---------------------------------------------------------------------------
  // Submitting a checklist
  // ---------------------------------------------------------------------------

  datatype ResponseCreate = ResponseCreate(question: string, answer: QuestionResponse, comment: Option<string>)

  /** The body of `POST /checklists/`. */
  datatype ChecklistCreate = ChecklistCreate(equipmentId: nat, collaboratorSignature: string,
                                             responses: seq<ResponseCreate>)

  /** The stored responses of one submission: one per submitted response, in order, linked to
      the checklist, with consecutive ids from `firstId`. */
  function ResponseRows(checklistId: nat, submitted: seq<ResponseCreate>, firstId: nat): seq<Response>
  {
    seq(|submitted|, k requires 0 <= k < |submitted| =>
      Response(firstId + k, checklistId, submitted[k].question, submitted[k].answer, submitted[k].comment))
  }

  /** Each submitted response is stored once, under the new checklist, with its question, answer
      and comment. */
  lemma ResponseRowsLinked(checklistId: nat, submitted: seq<ResponseCreate>, firstId: nat)
    ensures var rows := ResponseRows(checklistId, submitted, firstId);
      |rows| == |submitted|
      && forall k :: 0 <= k < |rows| ==>
           rows[k].checklistId == checklistId && rows[k].question == submitted[k].question
           && rows[k].answer == submitted[k].answer && rows[k].comment == submitted[k].comment
  {
  }

  /** Lines 92-97: the loop adding one `Response` per submitted response. */
  method BuildResponses(checklistId: nat, submitted: seq<ResponseCreate>, firstId: nat) returns (rows: seq<Response>)
    ensures rows == ResponseRows(checklistId, submitted, firstId)
  {
    rows := [];
    for k := 0 to |submitted|
      invariant rows == ResponseRows(checklistId, submitted[..k], firstId)
    {
      var r := submitted[k];
      rows := rows + [Response(firstId + k, checklistId, r.question, r.answer, r.comment)];
    }
    assert submitted[..|submitted|] == submitted;
  }

  /** `create_checklist` (lines 75-104): the checklist, 'CONCLUÍDO' and not yet validated, and its
      responses are committed together. */
  method CreateChecklist(db: SistemaDb, checklist: ChecklistCreate, collaboratorId: nat, now: int)
    returns (c: Checklist)
    requires db.Valid()
    modifies db
    ensures db.Valid()
    ensures db.users == old(db.users) && db.sectors == old(db.sectors) && db.equipments == old(db.equipments)
    ensures c == Checklist(old(db.nextId), checklist.equipmentId, collaboratorId, None, now, None, Concluido,
                           checklist.collaboratorSignature, None)
    ensures db.checklists == old(db.checklists) + [c]
    ensures db.responses == old(db.responses) + ResponseRows(c.id, checklist.responses, c.id + 1)
  {
    c := Checklist(db.nextId, checklist.equipmentId, collaboratorId, None, now, None, Concluido,
                   checklist.collaboratorSignature, None);
    db.checklists := db.checklists + [c];
    db.nextId := db.nextId + 1;
    var rows := BuildResponses(c.id, checklist.responses, db.nextId);
    ResponseRowsLinked(c.id, checklist.responses, db.nextId);
    db.responses := db.responses + rows;
    db.nextId := db.nextId + |rows|;
  }

  /** The responses stored for a new checklist are exactly the submitted ones: none were there
      before it. */
  lemma NewChecklistResponses(before: seq<Response>, checklistId: nat, submitted: seq<ResponseCreate>)
    requires forall k :: 0 <= k < |before| ==> before[k].checklistId < checklistId
    ensures var rows := before + ResponseRows(checklistId, submitted, checklistId + 1);
      forall r :: r in rows && r.checklistId == checklistId <==> r in ResponseRows(checklistId, submitted, checklistId + 1)
  {
    forall r | r in before
      ensures r.checklistId != checklistId
    {
      var k :| 0 <= k < |before| && before[k] == r;
    }
  }
}
