/** The checklist flow of the device-checklist MVP (checklist_mvp/app/routes.py): the upload
    extension check, submitting a checklist (one response per item, the failure list and the
    alert), the history filter, and the rows of the Excel and PDF exports. */
module MvpRoutes {
  import opened Common
  import opened Ordering
  import opened MvpModels
  import opened Joins

  // ---------------------------------------------------------------------------
  // Uploads
  // ---------------------------------------------------------------------------

  const UPLOAD_FOLDER := "app/static/uploads"
  const ALLOWED_EXTENSIONS: set<string> := {"png", "jpg", "jpeg", "gif"}

  /** `str.lower` on one character, for the ASCII letters. */
  function LowerChar(c: char): char
  {
    if 'A' <= c <= 'Z' then (c as int + 32) as char else c
  }

  function Lower(s: string): (r: string)
    ensures |r| == |s| && forall i :: 0 <= i < |s| ==> r[i] == LowerChar(s[i])
  {
    seq(|s|, i requires 0 <= i < |s| => LowerChar(s[i]))
  }

  /** The position of the last '.', as `rsplit('.', 1)` finds it. */
  function LastDot(s: string): (r: Option<nat>)
    ensures r.None? <==> '.' !in s
    ensures r.Some? ==> r.value < |s| && s[r.value] == '.' && '.' !in s[r.value + 1..]
  {
    if s == [] then None
    else if s[|s| - 1] == '.' then Some(|s| - 1)
    else
      var r := LastDot(s[..|s| - 1]);
      assert r.Some? ==> s[r.value + 1..] == s[..|s| - 1][r.value + 1..] + [s[|s| - 1]];
      assert s == s[..|s| - 1] + [s[|s| - 1]];
      r
  }

  /** A '.' at position `m` lies after any earlier position `i`. */
  lemma DotAfter(s: string, i: int, m: int)
    ensures 0 <= i < m < |s| && s[m] == '.' ==> '.' in s[i + 1..]
  {
    if 0 <= i < m < |s| && s[m] == '.' {
      assert s[i + 1..][m - i - 1] == s[m];
    }
  }

  /** A '.' with no '.' after it is the last one. */
  lemma LastDotUnique(s: string)
    ensures forall k :: 0 <= k < |s| && s[k] == '.' && '.' !in s[k + 1..] ==> LastDot(s) == Some(k)
  {
    forall k | 0 <= k < |s| && s[k] == '.' && '.' !in s[k + 1..]
      ensures LastDot(s) == Some(k)
    {
      var j := LastDot(s).value;
      DotAfter(s, j, k);
      DotAfter(s, k, j);
    }
  }

  /** The '.' at `k` is the last one in the name, and the text after it, lower-cased, is an
      allowed extension. */
  predicate AllowedAfter(filename: string, k: int)
  {
    0 <= k < |filename| && filename[k] == '.' && '.' !in filename[k + 1..]
    && Lower(filename[k + 1..]) in ALLOWED_EXTENSIONS
  }

  /** `allowed_file(filename)` (lines 90-92): the name has a '.' and the text after the last one,
      lower-cased, is an allowed extension. */
  function AllowedFile(filename: string): (r: bool)
    ensures r <==> exists k :: AllowedAfter(filename, k)
  {
    var dot := LastDot(filename);
    LastDotUnique(filename);
    if dot.None? then false
    else
      var k := dot.value;
      assert Lower(filename[k + 1..]) in ALLOWED_EXTENSIONS ==> AllowedAfter(filename, k);
      Lower(filename[k + 1..]) in ALLOWED_EXTENSIONS
  }

  /** A name ending in "." and a dot-free extension is accepted exactly when the lower-cased
      extension is allowed, whatever comes before it. */
  lemma AllowedFileOfExtension(name: string, ext: string)
    requires '.' !in ext
    ensures AllowedFile(name + "." + ext) <==> Lower(ext) in ALLOWED_EXTENSIONS
  {
    var f := name + "." + ext;
    var k := |name|;
    assert f[k] == '.' && f[k + 1..] == ext;
    LastDotUnique(f);
    assert Lower(ext) in ALLOWED_EXTENSIONS ==> AllowedAfter(f, k);
  }

  /** A name without a '.' is always refused. */
  lemma DotlessRejected(filename: string)
    requires '.' !in filename
    ensures !AllowedFile(filename)
  {
  }

  // ---------------------------------------------------------------------------
  // Submitting a checklist
  // ---------------------------------------------------------------------------

  function StatusKey(itemId: nat): string { "status_" + NatToString(itemId) }
  function ObsKey(itemId: nat): string { "obs_" + NatToString(itemId) }
  function FotoKey(itemId: nat): string { "foto_" + NatToString(itemId) }

  /** Lines 114-121: the stored path of the item's photo. A file is taken only when the field is
      present with a non-empty name (an upload without a name is false in Python) that
      `allowed_file` accepts; `secure` stands for werkzeug's `secure_filename`, and the file is
      saved under that name in the upload folder. */
  function FotoPath(checklistId: nat, itemId: nat, files: map<string, string>, secure: string -> string)
    : (r: Option<string>)
    ensures r.Some? <==> FotoKey(itemId) in files && files[FotoKey(itemId)] != "" && AllowedFile(files[FotoKey(itemId)])
    ensures r.Some? ==>
      r.value == UPLOAD_FOLDER + "/" + secure(NatToString(checklistId) + "_" + NatToString(itemId) + "_" + files[FotoKey(itemId)])
  {
    var key := FotoKey(itemId);
    if key in files && files[key] != "" && AllowedFile(files[key]) then
      Some(UPLOAD_FOLDER + "/" + secure(NatToString(checklistId) + "_" + NatToString(itemId) + "_" + files[key]))
    else None
  }

  /** Lines 112-129: the response for one item, from the form fields named after the item id. */
  function RespostaFor(id: nat, checklistId: nat, item: ItemTemplate, form: map<string, string>,
                       files: map<string, string>, secure: string -> string): Resposta
  {
    Resposta(id, checklistId, item.id, FormGet(form, StatusKey(item.id)), FormGetOr(form, ObsKey(item.id), ""),
             FotoPath(checklistId, item.id, files, secure))
  }

  /** The responses of one submission: one per item template, in template order, with
      consecutive ids from `firstId`. */
  function RespostaRows(checklistId: nat, itens: seq<ItemTemplate>, firstId: nat, form: map<string, string>,
                        files: map<string, string>, secure: string -> string): seq<Resposta>
  {
    seq(|itens|, k requires 0 <= k < |itens| => RespostaFor(firstId + k, checklistId, itens[k], form, files, secure))
  }

  predicate IsFailure(r: Resposta)
  {
    r.status == Some(FAILURE)
  }

  /** `respostas_com_falha`: the responses whose status is 'Falha', in order. */
  function Failures(rows: seq<Resposta>): seq<Resposta>
  {
    if rows == [] then []
    else Failures(rows[..|rows| - 1]) + (if IsFailure(rows[|rows| - 1]) then [rows[|rows| - 1]] else [])
  }

  /** The failure list holds exactly the failed responses. */
  lemma {:induction false} FailuresMembers(rows: seq<Resposta>)
    ensures forall r :: r in Failures(rows) <==> r in rows && IsFailure(r)
  {
    if rows != [] {
      FailuresMembers(rows[..|rows| - 1]);
      assert rows == rows[..|rows| - 1] + [rows[|rows| - 1]];
    }
  }

  /** The failure list is empty exactly when no response failed. */
  lemma {:induction false} FailuresEmpty(rows: seq<Resposta>)
    ensures Failures(rows) == [] <==> forall k :: 0 <= k < |rows| ==> !IsFailure(rows[k])
  {
    if rows != [] {
      FailuresEmpty(rows[..|rows| - 1]);
    }
  }

  /** Every response of a submission belongs to the new checklist and answers its item. */
  lemma RespostaRowsLinked(checklistId: nat, itens: seq<ItemTemplate>, firstId: nat, form: map<string, string>,
                           files: map<string, string>, secure: string -> string)
    ensures var rows := RespostaRows(checklistId, itens, firstId, form, files, secure);
      |rows| == |itens|
      && forall k :: 0 <= k < |itens| ==>
           rows[k].id == firstId + k && rows[k].checklistId == checklistId && rows[k].itemTemplateId == itens[k].id
           && rows[k].status == FormGet(form, StatusKey(itens[k].id))
  {
  }

  /** A submission has failures exactly when the form marks some item 'Falha'. */
  lemma FailuresIffFormFailure(checklistId: nat, itens: seq<ItemTemplate>, firstId: nat, form: map<string, string>,
                               files: map<string, string>, secure: string -> string)
    ensures Failures(RespostaRows(checklistId, itens, firstId, form, files, secure)) != [] <==>
      exists item :: item in itens && FormGet(form, StatusKey(item.id)) == Some(FAILURE)
  {
    var rows := RespostaRows(checklistId, itens, firstId, form, files, secure);
    FailuresMembers(rows);
    if exists item :: item in itens && FormGet(form, StatusKey(item.id)) == Some(FAILURE) {
      var item :| item in itens && FormGet(form, StatusKey(item.id)) == Some(FAILURE);
      var k :| 0 <= k < |itens| && itens[k] == item;
      assert rows[k] in Failures(rows);
    } else {
      forall k | 0 <= k < |rows|
        ensures !IsFailure(rows[k])
      {
        assert itens[k] in itens;
      }
      FailuresEmpty(rows);
    }
  }

  /** One more item template adds its response at the end. */
  lemma RespostaRowsStep(checklistId: nat, itens: seq<ItemTemplate>, firstId: nat, form: map<string, string>,
                         files: map<string, string>, secure: string -> string, k: nat)
    requires k < |itens|
    ensures RespostaRows(checklistId, itens[..k + 1], firstId, form, files, secure)
         == RespostaRows(checklistId, itens[..k], firstId, form, files, secure)
            + [RespostaFor(firstId + k, checklistId, itens[k], form, files, secure)]
  {
  }

  /** One more response extends the failure list exactly when it failed. */
  lemma FailuresStep(rows: seq<Resposta>, r: Resposta)
    ensures Failures(rows + [r]) == Failures(rows) + (if IsFailure(r) then [r] else [])
  {
    assert (rows + [r])[..|rows|] == rows;
  }

  /** Lines 110-133: the loop over the item templates building each response and the failure list. */
  method BuildRespostas(checklistId: nat, itens: seq<ItemTemplate>, firstId: nat, form: map<string, string>,
                        files: map<string, string>, secure: string -> string)
    returns (rows: seq<Resposta>, falhas: seq<Resposta>)
    ensures rows == RespostaRows(checklistId, itens, firstId, form, files, secure)
    ensures falhas == Failures(rows)
  {
    rows, falhas := [], [];
    for k := 0 to |itens|
      invariant rows == RespostaRows(checklistId, itens[..k], firstId, form, files, secure)
      invariant falhas == Failures(rows)
    {
      var item := itens[k];
      var status := FormGet(form, StatusKey(item.id));
      var observacao := FormGetOr(form, ObsKey(item.id), "");
      var fotoPath := FotoPath(checklistId, item.id, files, secure);
      var resposta := Resposta(firstId + k, checklistId, item.id, status, observacao, fotoPath);
      RespostaRowsStep(checklistId, itens, firstId, form, files, secure, k);
      FailuresStep(rows, resposta);
      rows := rows + [resposta];
      if status == Some(FAILURE) {
        falhas := falhas + [resposta];
      }
    }
    assert itens[..|itens|] == itens;
  }

  /** Appending a submission's responses keeps every response id, and the checklist each points
      to, below the advanced counter. */
  lemma AppendedRowsBelow(before: seq<Resposta>, rows: seq<Resposta>, cid: nat)
    requires forall k :: 0 <= k < |before| ==> before[k].id < cid && before[k].checklistId < cid
    requires forall k :: 0 <= k < |rows| ==> rows[k].id == cid + 1 + k && rows[k].checklistId == cid
    ensures var all, next := before + rows, cid + 1 + |rows|;
      forall k :: 0 <= k < |all| ==> all[k].id < next && all[k].checklistId < next
  {
    var all := before + rows;
    forall k | 0 <= k < |all|
      ensures all[k].id < cid + 1 + |rows| && all[k].checklistId < cid + 1 + |rows|
    {
      if k >= |before| {
        assert all[k] == rows[k - |before|];
      }
    }
  }

  /** Lines 101-135: the checklist, then its responses, are committed for `user` and the asset;
      the ids continue the counter. */
  method SaveSubmission(db: MvpDb, user: Usuario, ativoId: nat, form: map<string, string>,
                        files: map<string, string>, now: int, secure: string -> string)
    returns (cid: nat, falhas: seq<Resposta>)
    requires db.Valid()
    modifies db
    ensures db.Valid()
    ensures db.usuarios == old(db.usuarios) && db.ativos == old(db.ativos) && db.itens == old(db.itens)
    ensures cid == old(db.nextId)
    ensures var rows := RespostaRows(cid, old(db.itens), cid + 1, form, files, secure);
      && db.checklists == old(db.checklists) + [Checklist(cid, now, user.id, ativoId, "Manhã", "1.0")]
      && db.respostas == old(db.respostas) + rows
      && falhas == Failures(rows)
  {
    cid := db.nextId;
    var rows;
    rows, falhas := BuildRespostas(cid, db.itens, cid + 1, form, files, secure);
    RespostaRowsLinked(cid, db.itens, cid + 1, form, files, secure);
    AppendedRowsBelow(db.respostas, rows, cid);
    db.checklists := db.checklists + [Checklist(cid, now, user.id, ativoId, "Manhã", "1.0")];
    db.respostas := db.respostas + rows;
    db.nextId := cid + 1 + |rows|;
  }

  /** How a POST to `/checklist/<ativo_id>` ends. */
  datatype SubmitOutcome = LoginRedirect | NotFound | Saved(checklistId: nat, falhas: seq<Resposta>, alerted: bool)

  /** POST `/checklist/<ativo_id>` (lines 94-157): the checklist is created with the fixed shift
      and version, then one response per item template, and the alert goes out exactly when some
      response failed. The timestamp is the column default, `now`. */
  method SubmitChecklist(db: MvpDb, cu: CurrentUser, ativoId: nat, form: map<string, string>,
                         files: map<string, string>, now: int, secure: string -> string)
    returns (outcome: SubmitOutcome)
    requires db.Valid()
    modifies db
    ensures db.Valid()
    ensures db.usuarios == old(db.usuarios) && db.ativos == old(db.ativos) && db.itens == old(db.itens)
    ensures outcome == LoginRedirect <==> cu.Anonymous?
    ensures outcome == NotFound <==> cu.LoggedIn? && forall a :: a in db.ativos ==> a.id != ativoId
    ensures !outcome.Saved? ==> db.checklists == old(db.checklists) && db.respostas == old(db.respostas)
    ensures outcome.Saved? ==>
      var cid := old(db.nextId);
      var rows := RespostaRows(cid, old(db.itens), cid + 1, form, files, secure);
      && cu.LoggedIn? && outcome.checklistId == cid
      && db.checklists == old(db.checklists) + [Checklist(cid, now, cu.user.id, ativoId, "Manhã", "1.0")]
      && db.respostas == old(db.respostas) + rows
      && outcome.falhas == Failures(rows)
      && (outcome.alerted <==> outcome.falhas != [])
  {
    if cu.Anonymous? {
      return LoginRedirect;
    }
    var ativo := FirstWhere(db.ativos, (a: Ativo) => a.id == ativoId);
    if ativo.None? {
      return NotFound;
    }
    var cid, falhas := SaveSubmission(db, cu.user, ativo.value.id, form, files, now, secure);
    return Saved(cid, falhas, falhas != []);
  }

  // ---------------------------------------------------------------------------
  // The PDF status column
  // ---------------------------------------------------------------------------

  /** Line 250: `'Com Falhas'` when the checklist has some response with status 'Falha'
      (`respostas.filter_by(status='Falha').first()`), `'OK'` otherwise. */
  function PdfStatus(respostas: seq<Resposta>, checklistId: nat): (s: string)
    ensures s == "Com Falhas" <==> exists r :: r in respostas && r.checklistId == checklistId && IsFailure(r)
    ensures s != "Com Falhas" ==> s == "OK"
  {
    if FirstWhere(respostas, (r: Resposta) => r.checklistId == checklistId && IsFailure(r)).Some? then "Com Falhas"
    else "OK"
  }

  /** A checklist just saved reads 'Com Falhas' in the report exactly when its submission had
      failures: the responses already stored belong to older checklists. */
  lemma SavedChecklistPdfStatus(before: seq<Resposta>, checklistId: nat, itens: seq<ItemTemplate>, form: map<string, string>,
                                files: map<string, string>, secure: string -> string)
    requires forall k :: 0 <= k < |before| ==> before[k].checklistId < checklistId
    ensures var rows := RespostaRows(checklistId, itens, checklistId + 1, form, files, secure);
      PdfStatus(before + rows, checklistId) == "Com Falhas" <==> Failures(rows) != []
  {
    var rows := RespostaRows(checklistId, itens, checklistId + 1, form, files, secure);
    FailuresMembers(rows);
    RespostaRowsLinked(checklistId, itens, checklistId + 1, form, files, secure);
    forall r | r in before
      ensures r.checklistId != checklistId
    {
      var k :| 0 <= k < |before| && before[k] == r;
    }
    if Failures(rows) != [] {
      assert Failures(rows)[0] in rows;
    }
  }

  // ---------------------------------------------------------------------------
  // The history filter
  // ---------------------------------------------------------------------------

  const START_ARG := "data_inicio"
  const END_ARG := "data_fim"
  const ATIVO_ARG := "ativo_id"

  /** `args.get(key)` is present and non-empty. */
  predicate Supplied(args: map<string, string>, key: string)
  {
    key in args && args[key] != ""
  }

  /** A supplied date that `strptime(..., '%Y-%m-%d')` rejects; `parseDate` stands for it and
      gives a day number. */
  predicate BadDate(args: map<string, string>, key: string, parseDate: string -> Option<int>)
  {
    Supplied(args, key) && parseDate(args[key]).None?
  }

  /** `Checklist.ativo_id == args.get('ativo_id')`: SQLite compares the integer column with the
      text argument as a number when the text is a decimal numeral, and never matches otherwise. */
  predicate AtivoMatches(c: Checklist, arg: string)
  {
    AllDigits(arg) && DecimalValue(arg) == c.ativoId
  }

  /** The history filter's test for one checklist: each bound applies only when supplied; the
      end bound is 23:59:59 of the end day. */
  predicate Selected(c: Checklist, args: map<string, string>, parseDate: string -> Option<int>)
  {
    && (Supplied(args, START_ARG) ==>
          parseDate(args[START_ARG]).Some? && c.timestamp >= parseDate(args[START_ARG]).value * DAY)
    && (Supplied(args, END_ARG) ==>
          parseDate(args[END_ARG]).Some? && c.timestamp <= parseDate(args[END_ARG]).value * DAY + 86399 * SECOND)
    && (Supplied(args, ATIVO_ARG) ==> AtivoMatches(c, args[ATIVO_ARG]))
  }

  function Timestamp(c: Checklist): int
  {
    c.timestamp
  }

  /** The answer of `query_checklists_filtrados`: a malformed date raises `ValueError`. */
  datatype Listing = Unparsable | Listed(checklists: seq<Checklist>)

  /** `query_checklists_filtrados(args)` (lines 161-176): the query narrowed step by step, newest
      first. */
  method QueryChecklistsFiltrados(checklists: seq<Checklist>, args: map<string, string>,
                                  parseDate: string -> Option<int>)
    returns (r: Listing)
    ensures r == Unparsable <==> BadDate(args, START_ARG, parseDate) || BadDate(args, END_ARG, parseDate)
    ensures r.Listed? ==> SortedDesc(r.checklists, Timestamp)
    ensures r.Listed? ==> forall c :: c in r.checklists <==> c in checklists && Selected(c, args, parseDate)
    ensures r.Listed? ==> |r.checklists| <= |checklists|
  {
    var query := checklists;
    if Supplied(args, START_ARG) {
      var d := parseDate(args[START_ARG]);
      if d.None? {
        return Unparsable;
      }
      query := Filter(query, (c: Checklist) => c.timestamp >= d.value * DAY);
    }
    if Supplied(args, END_ARG) {
      var d := parseDate(args[END_ARG]);
      if d.None? {
        return Unparsable;
      }
      query := Filter(query, (c: Checklist) => c.timestamp <= d.value * DAY + 86399 * SECOND);
    }
    if Supplied(args, ATIVO_ARG) {
      var arg := args[ATIVO_ARG];
      query := Filter(query, (c: Checklist) => AtivoMatches(c, arg));
    }
    r := Listed(SortDesc(query, Timestamp));
    forall c ensures c in r.checklists <==> c in query {
      SortDescSameRows(query, Timestamp, c);
    }
  }

  // ---------------------------------------------------------------------------
  // The Excel export
  // ---------------------------------------------------------------------------

  /** One spreadsheet row (lines 203-211); `data` is the checklist's timestamp, which the source
      formats as '%Y-%m-%d %H:%M'. */
  datatype ExcelRow = ExcelRow(checklistId: nat, data: int, ativo: string, operador: string, item: string,
                               status: Option<string>, observacao: string)

  /** `cl.respostas`: a response belongs to the checklist it points to. */
  predicate OwnResposta(c: Checklist, r: Resposta)
  {
    r.checklistId == c.id
  }

  /** The row for one (checklist, response) pair; `cl.ativo`, `cl.usuario` and
      `resp.item_template` are looked up by key, and a dangling key raises (`None`). */
  function RowFor(pair: (Checklist, Resposta), ativos: seq<Ativo>, usuarios: seq<Usuario>, itens: seq<ItemTemplate>)
    : Option<ExcelRow>
  {
    var (cl, resp) := pair;
    var ativo := FirstWhere(ativos, (a: Ativo) => a.id == cl.ativoId);
    var usuario := FirstWhere(usuarios, (u: Usuario) => u.id == cl.usuarioId);
    var item := FirstWhere(itens, (i: ItemTemplate) => i.id == resp.itemTemplateId);
    if ativo.None? || usuario.None? || item.None? then None
    else Some(ExcelRow(cl.id, cl.timestamp, ativo.value.codigo, usuario.value.nome, item.value.descricao,
                       resp.status, resp.observacao))
  }

  function RowOf(ativos: seq<Ativo>, usuarios: seq<Usuario>, itens: seq<ItemTemplate>)
    : ((Checklist, Resposta)) -> Option<ExcelRow>
  {
    p => RowFor(p, ativos, usuarios, itens)
  }

  /** The sheet of `export_excel`, or `None` when it raises. */
  function ExcelSpec(checklists: seq<Checklist>, respostas: seq<Resposta>, ativos: seq<Ativo>,
                     usuarios: seq<Usuario>, itens: seq<ItemTemplate>): Option<seq<ExcelRow>>
  {
    Collect(Flatten(checklists, respostas, OwnResposta), RowOf(ativos, usuarios, itens))
  }

  /** The sheet holds one row per (checklist, response) pair, in query order, carrying the
      checklist's id and time and the response's status and remark; there are as many rows as
      the listed checklists have responses. */
  lemma ExcelRowsPerPair(checklists: seq<Checklist>, respostas: seq<Resposta>, ativos: seq<Ativo>,
                         usuarios: seq<Usuario>, itens: seq<ItemTemplate>)
    ensures var r, ps := ExcelSpec(checklists, respostas, ativos, usuarios, itens), Flatten(checklists, respostas, OwnResposta);
      r.Some? ==>
        |r.value| == |ps| == ChildCount(checklists, respostas, OwnResposta)
        && forall k :: 0 <= k < |ps| ==>
             r.value[k].checklistId == ps[k].0.id && r.value[k].data == ps[k].0.timestamp
             && r.value[k].status == ps[k].1.status && r.value[k].observacao == ps[k].1.observacao
  {
    CollectPerElement(Flatten(checklists, respostas, OwnResposta), RowOf(ativos, usuarios, itens));
    FlattenLength(checklists, respostas, OwnResposta);
  }

  /** The export does not raise when every listed checklist's asset and operator and every
      response's item exist. */
  lemma ExcelSucceedsWhenLinked(checklists: seq<Checklist>, respostas: seq<Resposta>, ativos: seq<Ativo>,
                                usuarios: seq<Usuario>, itens: seq<ItemTemplate>)
    requires forall c :: c in checklists ==> (exists a :: a in ativos && a.id == c.ativoId)
    requires forall c :: c in checklists ==> (exists u :: u in usuarios && u.id == c.usuarioId)
    requires forall r :: r in respostas ==> (exists i :: i in itens && i.id == r.itemTemplateId)
    ensures ExcelSpec(checklists, respostas, ativos, usuarios, itens).Some?
  {
    var ps := Flatten(checklists, respostas, OwnResposta);
    FlattenLinked(checklists, respostas, OwnResposta);
    forall k | 0 <= k < |ps|
      ensures RowOf(ativos, usuarios, itens)(ps[k]).Some?
    {
      var (cl, resp) := ps[k];
      assert ps[k] in ps;
      var a :| a in ativos && a.id == cl.ativoId;
      var u :| u in usuarios && u.id == cl.usuarioId;
      var i :| i in itens && i.id == resp.itemTemplateId;
      assert FirstWhere(ativos, (a: Ativo) => a.id == cl.ativoId).Some?;
      assert FirstWhere(usuarios, (u: Usuario) => u.id == cl.usuarioId).Some?;
      assert FirstWhere(itens, (i: ItemTemplate) => i.id == resp.itemTemplateId).Some?;
    }
    CollectPerElement(ps, RowOf(ativos, usuarios, itens));
  }

  /** `export_excel` (lines 196-211): the nested loop over the listed checklists and each one's
      responses, appending one row per response. */
  method ExportExcel(checklists: seq<Checklist>, respostas: seq<Resposta>, ativos: seq<Ativo>,
                     usuarios: seq<Usuario>, itens: seq<ItemTemplate>)
    returns (r: Option<seq<ExcelRow>>)
    ensures r == ExcelSpec(checklists, respostas, ativos, usuarios, itens)
  {
    r := FlattenRows(checklists, respostas, OwnResposta, RowOf(ativos, usuarios, itens));
  }
}
