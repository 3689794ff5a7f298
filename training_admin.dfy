/** The administration blueprint of the training application (checklist_app/blueprints/admin.py):
    the gate in front of every route, template creation from a text area, sectors,
    user editing and deletion, and the filtered report. */
module TrainingAdmin {
  import opened Common
  import opened TrainingModels
  import TrainingChecklists

  /** What the `before_request` hook decides for a request. */
  datatype Gate = LoginRedirect | Refused | Admitted

  datatype AdminOutcome = Blocked(gate: Gate) | Saved | NotFound | Duplicate | NoItems | SelfDeletion | Failed

  // ---------------------------------------------------------------------------
  // Access
  // ---------------------------------------------------------------------------

  /** `has_permission(perfil_requerido)` */
  function HasPermission(cu: CurrentUser, perfil: string): (r: bool)
    ensures r <==> cu.LoggedIn? && cu.user.perfil == perfil
  {
    cu.LoggedIn? && cu.user.perfil == perfil
  }

  /** `@login_required` followed by `check_admin_permission`. */
  function AdminGate(cu: CurrentUser): (g: Gate)
    ensures g == LoginRedirect <==> cu.Anonymous?
    ensures g == Admitted <==> cu.LoggedIn? && cu.user.perfil in {ADMINISTRATOR, COORDINATOR}
  {
    if cu.Anonymous? then LoginRedirect
    else if cu.user.perfil == ADMINISTRATOR || cu.user.perfil == COORDINATOR then Admitted
    else Refused
  }

  /** The gate admits exactly the users holding the administrador or the coordenador permission. */
  lemma GateMatchesPermission(cu: CurrentUser)
    ensures AdminGate(cu) == Admitted <==> HasPermission(cu, ADMINISTRATOR) || HasPermission(cu, COORDINATOR)
  {
  }

  // ---------------------------------------------------------------------------
  // Template items from a text area
  // ---------------------------------------------------------------------------

  /** `s.split('\n')` */
  function SplitLines(s: string): (r: seq<string>)
    ensures |r| >= 1
    ensures forall k :: 0 <= k < |r| ==> '\n' !in r[k]
    decreases |s|
  {
    if '\n' !in s then [s]
    else
      var k := IndexOf(s, '\n');
      [s[..k]] + SplitLines(s[k + 1..])
  }

  /** `'\n'.join(lines)` */
  function JoinLines(lines: seq<string>): string
  {
    if lines == [] then ""
    else if |lines| == 1 then lines[0]
    else lines[0] + "\n" + JoinLines(lines[1..])
  }

  /** Joining the pieces of a split gives the text back. */
  lemma {:induction false} JoinSplitLines(s: string)
    ensures JoinLines(SplitLines(s)) == s
    decreases |s|
  {
    if '\n' in s {
      var k := IndexOf(s, '\n');
      var line, tail := s[..k], s[k + 1..];
      var rest := SplitLines(tail);
      JoinSplitLines(tail);
      var lines := SplitLines(s);
      assert lines == [line] + rest;
      assert |lines| > 1 && lines[0] == line && lines[1..] == rest;
      assert JoinLines(lines) == line + "\n" + tail;
      assert s == line + [s[k]] + tail;
    }
  }

  /** Splitting joined lines gives the lines back, when none of them holds a line break. */
  lemma {:induction false} SplitJoinLines(lines: seq<string>)
    requires |lines| >= 1
    requires forall k :: 0 <= k < |lines| ==> '\n' !in lines[k]
    ensures SplitLines(JoinLines(lines)) == lines
  {
    if |lines| > 1 {
      var s := JoinLines(lines);
      var x, tail := lines[0], JoinLines(lines[1..]);
      assert s == x + "\n" + tail;
      assert s[|x|] == '\n';
      var k := IndexOf(s, '\n');
      assert k == |x|;
      assert s[..k] == x && s[k + 1..] == tail;
      assert SplitLines(s) == [x] + SplitLines(tail);
      SplitJoinLines(lines[1..]);
      assert lines == [x] + lines[1..];
    }
  }

  /** Each line stripped, in order. */
  function StripEach(lines: seq<string>): (r: seq<string>)
    ensures |r| == |lines| && forall k :: 0 <= k < |lines| ==> r[k] == Strip(lines[k])
  {
    seq(|lines|, k requires 0 <= k < |lines| => Strip(lines[k]))
  }

  /** Python truthiness of a string. */
  predicate NonBlank(item: string)
  {
    item != []
  }

  /** `[item.strip() for item in lines if item.strip()]`: the stripped lines, blank ones
      dropped, in order. */
  function KeepItems(lines: seq<string>): (r: seq<string>)
    ensures r == Filter(StripEach(lines), NonBlank)
    ensures forall k :: 0 <= k < |r| ==> r[k] != [] && Stripped(r[k])
  {
    if lines == [] then []
    else
      var item := Strip(lines[0]);
      var rest := KeepItems(lines[1..]);
      KeepItemsStep(lines);
      var r := if item != [] then [item] + rest else rest;
      assert forall k :: 0 <= k < |r| ==> r[k] != [] && Stripped(r[k]) by {
        forall k | 0 <= k < |r|
          ensures r[k] != [] && Stripped(r[k])
        {
          if item != [] && k > 0 {
            assert r[k] == rest[k - 1];
          }
        }
      }
      r
  }

  /** The filtered stripped lines: the first line's stripped text when it is not blank, then
      those of the other lines. */
  lemma KeepItemsStep(lines: seq<string>)
    requires lines != []
    ensures var item := Strip(lines[0]);
      var rest := Filter(StripEach(lines[1..]), NonBlank);
      Filter(StripEach(lines), NonBlank) == if item != [] then [item] + rest else rest
  {
    assert StripEach(lines)[0] == Strip(lines[0]) && StripEach(lines)[1..] == StripEach(lines[1..]);
  }

  /** The template items typed one per line: the text is stripped and split at line breaks,
      each line stripped, and blank lines dropped. */
  function ParseItems(text: string): (r: seq<string>)
    ensures r == Filter(StripEach(SplitLines(Strip(text))), NonBlank)
    ensures forall k :: 0 <= k < |r| ==> r[k] != [] && Stripped(r[k])
  {
    KeepItems(TextLines(text))
  }

  /** `text.strip().split('\n')` */
  function TextLines(text: string): (r: seq<string>)
    ensures |r| >= 1
  {
    SplitLines(Strip(text))
  }

  /** The first and last characters of joined lines are those of the first and last line. */
  lemma {:induction false} JoinLinesEnds(lines: seq<string>)
    requires |lines| >= 1 && forall k :: 0 <= k < |lines| ==> lines[k] != []
    ensures var s := JoinLines(lines);
      |s| > 0 && s[0] == lines[0][0] && s[|s| - 1] == lines[|lines| - 1][|lines[|lines| - 1]| - 1]
  {
    if |lines| > 1 {
      JoinLinesEnds(lines[1..]);
    }
  }

  /** Items typed one per line, none blank, none with whitespace at either end or a line break. */
  ghost predicate CleanItems(items: seq<string>)
  {
    forall k :: 0 <= k < |items| ==> items[k] != [] && Stripped(items[k]) && '\n' !in items[k]
  }

  /** Joined clean items have no whitespace at either end, so the outer strip keeps them. */
  lemma JoinedItemsStripped(items: seq<string>)
    requires items != [] && CleanItems(items)
    ensures Strip(JoinLines(items)) == JoinLines(items)
  {
    JoinLinesEnds(items);
    assert Stripped(items[0]) && Stripped(items[|items| - 1]);
  }

  /** Typing the items one per line gives exactly those items back, in order. */
  lemma ParseItemsRoundTrip(items: seq<string>)
    requires CleanItems(items)
    ensures ParseItems(JoinLines(items)) == items
  {
    var text := JoinLines(items);
    if items == [] {
      assert Strip(text) == "";
      assert TextLines(text) == [""];
      assert KeepItems([""]) == [];
    } else {
      JoinedItemsStripped(items);
      SplitJoinLines(items);
      assert TextLines(text) == items;
      KeepCleanItems(items);
    }
  }

  /** Lines that are already stripped and non-blank are all kept as they are. */
  lemma {:induction false} KeepCleanItems(lines: seq<string>)
    requires forall k :: 0 <= k < |lines| ==> lines[k] != [] && Stripped(lines[k])
    ensures KeepItems(lines) == lines
  {
    if lines != [] {
      assert Strip(lines[0]) == lines[0];
      KeepCleanItems(lines[1..]);
      assert lines == [lines[0]] + lines[1..];
    }
  }

  // ---------------------------------------------------------------------------
  // Handlers that change the database
  // ---------------------------------------------------------------------------

  /** POST `/cadastrar_modelo`: `itens` absent makes `.strip()` raise, an empty item list creates
      nothing, and an absent `tipo_checklist` violates the NOT NULL column. */
  method CadastrarModelo(db: TrainingDb, cu: CurrentUser, tipo: Option<string>, itens: Option<string>)
    returns (outcome: AdminOutcome)
    requires db.Valid()
    modifies db
    ensures db.Valid()
    ensures db.usuarios == old(db.usuarios) && db.setores == old(db.setores)
    ensures db.colaboradores == old(db.colaboradores) && db.respostas == old(db.respostas)
    ensures AdminGate(cu) != Admitted ==> outcome == Blocked(AdminGate(cu))
    ensures outcome == NoItems <==> AdminGate(cu) == Admitted && itens.Some? && ParseItems(itens.value) == []
    ensures outcome == Failed <==>
      AdminGate(cu) == Admitted && (itens.None? || (ParseItems(itens.value) != [] && tipo.None?))
    ensures outcome == Saved <==>
      AdminGate(cu) == Admitted && itens.Some? && ParseItems(itens.value) != [] && tipo.Some?
    ensures outcome != Saved ==> db.modelos == old(db.modelos)
    ensures outcome == Saved ==>
      && tipo.Some? && itens.Some?
      && db.modelos == old(db.modelos) + [ChecklistModelo(old(db.nextId), tipo.value, ParseItems(itens.value))]
      && TrainingChecklists.LatestModelo(db.modelos, tipo.value) == Some(db.modelos[|db.modelos| - 1])
  {
    var gate := AdminGate(cu);
    if gate != Admitted {
      return Blocked(gate);
    }
    if itens.None? {
      return Failed;
    }
    var lista := ParseItems(itens.value);
    if lista == [] {
      return NoItems;
    }
    if tipo.None? {
      return Failed;
    }
    AddModelo(db, tipo.value, lista);
    outcome := Saved;
  }

  /** Inserts a template with the next id; it becomes the newest of its tipo. */
  method AddModelo(db: TrainingDb, tipo: string, itens: seq<string>)
    requires db.Valid()
    modifies db
    ensures db.Valid()
    ensures db.usuarios == old(db.usuarios) && db.setores == old(db.setores)
    ensures db.colaboradores == old(db.colaboradores) && db.respostas == old(db.respostas)
    ensures db.modelos == old(db.modelos) + [ChecklistModelo(old(db.nextId), tipo, itens)]
    ensures TrainingChecklists.LatestModelo(db.modelos, tipo) == Some(db.modelos[|db.modelos| - 1])
  {
    var modelo := ChecklistModelo(db.nextId, tipo, itens);
    TrainingChecklists.AppendedModeloIsLatest(db.modelos, modelo, tipo);
    db.modelos := db.modelos + [modelo];
    db.nextId := db.nextId + 1;
  }

  /** POST `/cadastrar_setor`: a name already taken adds nothing, so names stay unique;
      an absent name violates the NOT NULL column. */
  method CadastrarSetor(db: TrainingDb, cu: CurrentUser, nome: Option<string>) returns (outcome: AdminOutcome)
    requires db.Valid()
    modifies db
    ensures db.Valid()
    ensures db.usuarios == old(db.usuarios) && db.colaboradores == old(db.colaboradores)
    ensures db.modelos == old(db.modelos) && db.respostas == old(db.respostas)
    ensures AdminGate(cu) != Admitted ==> outcome == Blocked(AdminGate(cu))
    ensures outcome == Failed <==> AdminGate(cu) == Admitted && nome.None?
    ensures outcome == Duplicate <==>
      AdminGate(cu) == Admitted && nome.Some? && exists s :: s in old(db.setores) && s.nome == nome.value
    ensures outcome == Saved <==>
      AdminGate(cu) == Admitted && nome.Some? && forall s :: s in old(db.setores) ==> s.nome != nome.value
    ensures outcome != Saved ==> db.setores == old(db.setores)
    ensures outcome == Saved ==> db.setores == old(db.setores) + [Setor(old(db.nextId), nome.value)]
  {
    var gate := AdminGate(cu);
    if gate != Admitted {
      return Blocked(gate);
    }
    if nome.None? {
      return Failed;
    }
    var existente := FirstWhere(db.setores, (s: Setor) => s.nome == nome.value);
    if existente.Some? {
      return Duplicate;
    }
    db.setores := db.setores + [Setor(db.nextId, nome.value)];
    db.nextId := db.nextId + 1;
    outcome := Saved;
  }

  /** A user other than the one at position `k` already holds `login`. */
  ghost predicate LoginTakenByOther(usuarios: seq<Usuario>, k: nat, login: string)
  {
    exists j :: 0 <= j < |usuarios| && j != k && usuarios[j].login == login
  }

  /** POST `/editar_usuario/<usuario_id>`: only nome, login and perfil change. An absent field
      violates a NOT NULL column and a login held by another user the unique one. */
  method EditarUsuario(db: TrainingDb, cu: CurrentUser, usuarioId: nat,
                       nome: Option<string>, login: Option<string>, perfil: Option<string>)
    returns (outcome: AdminOutcome)
    requires db.Valid()
    modifies db
    ensures db.Valid()
    ensures db.setores == old(db.setores) && db.colaboradores == old(db.colaboradores)
    ensures db.modelos == old(db.modelos) && db.respostas == old(db.respostas) && db.nextId == old(db.nextId)
    ensures AdminGate(cu) != Admitted ==> outcome == Blocked(AdminGate(cu))
    ensures outcome == NotFound <==> AdminGate(cu) == Admitted && UsuarioIndex(old(db.usuarios), usuarioId).None?
    ensures outcome == Failed <==>
      && AdminGate(cu) == Admitted && UsuarioIndex(old(db.usuarios), usuarioId).Some?
      && (|| nome.None? || login.None? || perfil.None?
          || LoginTakenByOther(old(db.usuarios), UsuarioIndex(old(db.usuarios), usuarioId).value, login.value))
    ensures outcome == Saved <==>
      && AdminGate(cu) == Admitted && UsuarioIndex(old(db.usuarios), usuarioId).Some?
      && nome.Some? && login.Some? && perfil.Some?
      && !LoginTakenByOther(old(db.usuarios), UsuarioIndex(old(db.usuarios), usuarioId).value, login.value)
    ensures outcome != Saved ==> db.usuarios == old(db.usuarios)
    ensures outcome == Saved ==>
      nome.Some? && login.Some? && perfil.Some? && UsuarioIndex(old(db.usuarios), usuarioId).Some? &&
      var k := UsuarioIndex(old(db.usuarios), usuarioId).value;
      var u := old(db.usuarios)[k];
      db.usuarios == old(db.usuarios)[k := Usuario(u.id, nome.value, login.value, u.senha, perfil.value)]
  {
    var gate := AdminGate(cu);
    if gate != Admitted {
      return Blocked(gate);
    }
    var k := UsuarioIndex(db.usuarios, usuarioId);
    if k.None? {
      return NotFound;
    }
    if nome.None? || login.None? || perfil.None? {
      return Failed;
    }
    var taken := IndexWhere(db.usuarios, (u: Usuario) => u.login == login.value);
    var other := taken.Some? && taken.value != k.value;
    if other {
      return Failed;
    }
    assert !LoginTakenByOther(db.usuarios, k.value, login.value);
    var u := db.usuarios[k.value];
    ghost var before := db.usuarios;
    db.usuarios := db.usuarios[k.value := Usuario(u.id, nome.value, login.value, u.senha, perfil.value)];
    forall i, j | 0 <= i < j < |db.usuarios| ensures db.usuarios[i].login != db.usuarios[j].login {
      if i == k.value || j == k.value {
        var o := if i == k.value then j else i;
        assert before[o].login != login.value;
      }
    }
    outcome := Saved;
  }

  /** POST `/excluir_usuario/<usuario_id>`: nobody deletes their own account; otherwise exactly
      that user is removed. */
  method ExcluirUsuario(db: TrainingDb, cu: CurrentUser, usuarioId: nat) returns (outcome: AdminOutcome)
    requires db.Valid()
    modifies db
    ensures db.Valid()
    ensures db.setores == old(db.setores) && db.colaboradores == old(db.colaboradores)
    ensures db.modelos == old(db.modelos) && db.respostas == old(db.respostas) && db.nextId == old(db.nextId)
    ensures AdminGate(cu) != Admitted ==> outcome == Blocked(AdminGate(cu))
    ensures outcome == NotFound <==> AdminGate(cu) == Admitted && UsuarioIndex(old(db.usuarios), usuarioId).None?
    ensures outcome == SelfDeletion <==>
      AdminGate(cu) == Admitted && UsuarioIndex(old(db.usuarios), usuarioId).Some? && usuarioId == cu.user.id
    ensures outcome == Saved <==>
      AdminGate(cu) == Admitted && UsuarioIndex(old(db.usuarios), usuarioId).Some? && usuarioId != cu.user.id
    ensures outcome != Saved ==> db.usuarios == old(db.usuarios)
    ensures outcome == Saved ==>
      var k := UsuarioIndex(old(db.usuarios), usuarioId).value;
      db.usuarios == old(db.usuarios)[..k] + old(db.usuarios)[k + 1..]
  {
    var gate := AdminGate(cu);
    if gate != Admitted {
      return Blocked(gate);
    }
    var k := UsuarioIndex(db.usuarios, usuarioId);
    if k.None? {
      return NotFound;
    }
    if db.usuarios[k.value].id == cu.user.id {
      return SelfDeletion;
    }
    ghost var before := db.usuarios;
    db.usuarios := db.usuarios[..k.value] + db.usuarios[k.value + 1..];
    forall i, j | 0 <= i < j < |db.usuarios| ensures db.usuarios[i].login != db.usuarios[j].login {
      var i', j' := if i < k.value then i else i + 1, if j < k.value then j else j + 1;
      assert db.usuarios[i] == before[i'] && db.usuarios[j] == before[j'];
    }
    outcome := Saved;
  }

  // ---------------------------------------------------------------------------
  // The report
  // ---------------------------------------------------------------------------

  /** The query string of `/relatorios`: the two ids as read with `type=int` (`None` when absent
      or not a number), the two dates as typed. */
  datatype ReportArgs = ReportArgs(colaboradorId: Option<int>, setorId: Option<int>,
                                   dataInicio: Option<string>, dataFim: Option<string>)

  datatype ReportResult = Denied(gate: Gate) | InvalidDate | Rows(rows: seq<ChecklistRespostas>)

  /** `if colaborador_id:` on an integer argument: absent and 0 both mean "no filter". */
  predicate Given(v: Option<int>)
  {
    v.Some? && v.value != 0
  }

  /** The collaborator a sheet belongs to, through the `colaborador_id` foreign key. */
  function ColaboradorOf(colaboradores: seq<Colaborador>, x: ChecklistRespostas): (r: Option<Colaborador>)
    ensures r.Some? ==> r.value in colaboradores && r.value.id == x.colaboradorId
    ensures r.None? <==> forall c :: c in colaboradores ==> c.id != x.colaboradorId
  {
    FirstWhere(colaboradores, (c: Colaborador) => c.id == x.colaboradorId)
  }

  /** The sheet survives `join(Colaborador).join(Setor)`. */
  predicate Joined(colaboradores: seq<Colaborador>, setores: seq<Setor>, x: ChecklistRespostas)
  {
    var c := ColaboradorOf(colaboradores, x);
    c.Some? && exists s :: s in setores && s.id == c.value.setorId
  }

  /** A date argument after `strptime(..., '%Y-%m-%d')`: `None` when it is absent or empty. */
  function DayArg(s: Option<string>, parseDate: string -> Option<int>): Option<int>
  {
    if Truthy(s) then parseDate(s.value) else None
  }

  /** The date arguments do not parse: `strptime` raises. */
  predicate BadDates(args: ReportArgs, parseDate: string -> Option<int>)
  {
    (Truthy(args.dataInicio) && parseDate(args.dataInicio.value).None?)
    || (Truthy(args.dataFim) && parseDate(args.dataFim.value).None?)
  }

  predicate ColaboradorOk(args: ReportArgs, x: ChecklistRespostas)
  {
    Given(args.colaboradorId) ==> x.colaboradorId == args.colaboradorId.value
  }

  predicate SetorOk(colaboradores: seq<Colaborador>, args: ReportArgs, x: ChecklistRespostas)
  {
    Given(args.setorId) ==>
      var c := ColaboradorOf(colaboradores, x);
      c.Some? && c.value.setorId == args.setorId.value
  }

  /** Filled at or after midnight of the start day. */
  predicate FromOk(inicio: Option<int>, x: ChecklistRespostas)
  {
    inicio.Some? ==> x.dataPreenchimento >= inicio.value * DAY
  }

  /** Filled no later than 23:59:59 of the end day. */
  predicate UntilOk(fim: Option<int>, x: ChecklistRespostas)
  {
    fim.Some? ==> x.dataPreenchimento <= fim.value * DAY + 86399 * SECOND
  }

  /** Whether a sheet belongs in the report: it joins to its collaborator and sector and meets
      every filter that was supplied. */
  predicate ReportMatch(colaboradores: seq<Colaborador>, setores: seq<Setor>, args: ReportArgs,
                        parseDate: string -> Option<int>, x: ChecklistRespostas)
  {
    && Joined(colaboradores, setores, x)
    && ColaboradorOk(args, x)
    && SetorOk(colaboradores, args, x)
    && FromOk(DayArg(args.dataInicio, parseDate), x)
    && UntilOk(DayArg(args.dataFim, parseDate), x)
  }

  /** GET `/relatorios`: the sheets matching every supplied filter, in table order. */
  method GerarRelatorios(cu: CurrentUser, colaboradores: seq<Colaborador>, setores: seq<Setor>,
                         respostas: seq<ChecklistRespostas>, args: ReportArgs, parseDate: string -> Option<int>)
    returns (r: ReportResult)
    ensures AdminGate(cu) != Admitted <==> r == Denied(AdminGate(cu))
    ensures r == InvalidDate <==> AdminGate(cu) == Admitted && BadDates(args, parseDate)
    ensures r.Rows? ==>
      r.rows == Filter(respostas, (x: ChecklistRespostas) => ReportMatch(colaboradores, setores, args, parseDate, x))
  {
    var gate := AdminGate(cu);
    if gate != Admitted {
      return Denied(gate);
    }
    ghost var l0 := (x: ChecklistRespostas) => Joined(colaboradores, setores, x);
    ghost var l1 := (x: ChecklistRespostas) => l0(x) && ColaboradorOk(args, x);
    ghost var l2 := (x: ChecklistRespostas) => l1(x) && SetorOk(colaboradores, args, x);
    var query := Filter(respostas, (x: ChecklistRespostas) => Joined(colaboradores, setores, x));
    assert query == Filter(respostas, l0);

    if Given(args.colaboradorId) {
      var id := args.colaboradorId.value;
      NarrowFilter(respostas, l0, (x: ChecklistRespostas) => x.colaboradorId == id, l1);
      query := Filter(query, (x: ChecklistRespostas) => x.colaboradorId == id);
    } else {
      FilterSamePredicate(respostas, l0, l1);
    }
    assert query == Filter(respostas, l1);

    if Given(args.setorId) {
      var id := args.setorId.value;
      var inSetor := (x: ChecklistRespostas) =>
        var c := ColaboradorOf(colaboradores, x); c.Some? && c.value.setorId == id;
      NarrowFilter(respostas, l1, inSetor, l2);
      query := Filter(query, inSetor);
    } else {
      FilterSamePredicate(respostas, l1, l2);
    }
    assert query == Filter(respostas, l2);

    var inicio: Option<int> := None;
    if Truthy(args.dataInicio) {
      inicio := parseDate(args.dataInicio.value);
      if inicio.None? {
        return InvalidDate;
      }
      var start := inicio.value * DAY;
      ghost var l3 := (x: ChecklistRespostas) => l2(x) && FromOk(inicio, x);
      NarrowFilter(respostas, l2, (x: ChecklistRespostas) => x.dataPreenchimento >= start, l3);
      query := Filter(query, (x: ChecklistRespostas) => x.dataPreenchimento >= start);
      FilterSamePredicate(respostas, l3, (x: ChecklistRespostas) => l2(x) && FromOk(inicio, x));
    }
    ghost var l3 := (x: ChecklistRespostas) => l2(x) && FromOk(inicio, x);
    if inicio.None? {
      FilterSamePredicate(respostas, l2, l3);
    }
    assert query == Filter(respostas, l3);

    var fim: Option<int> := None;
    if Truthy(args.dataFim) {
      fim := parseDate(args.dataFim.value);
      if fim.None? {
        return InvalidDate;
      }
      var end := fim.value * DAY + 86399 * SECOND;
      ghost var l4 := (x: ChecklistRespostas) => l3(x) && UntilOk(fim, x);
      NarrowFilter(respostas, l3, (x: ChecklistRespostas) => x.dataPreenchimento <= end, l4);
      query := Filter(query, (x: ChecklistRespostas) => x.dataPreenchimento <= end);
    }
    ghost var l4 := (x: ChecklistRespostas) => l3(x) && UntilOk(fim, x);
    if fim.None? {
      FilterSamePredicate(respostas, l3, l4);
    }
    assert query == Filter(respostas, l4);

    assert inicio == DayArg(args.dataInicio, parseDate) && fim == DayArg(args.dataFim, parseDate);
    FilterSamePredicate(respostas, l4,
      (x: ChecklistRespostas) => ReportMatch(colaboradores, setores, args, parseDate, x));
    r := Rows(query);
  }
}
