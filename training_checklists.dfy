/** Filling a training checklist (checklist_app/blueprints/checklists.py): the perfil gate,
    the choice of the newest template of the requested tipo, the weekly score, the
    pass/fail situação and the saved answer sheet. */
module TrainingChecklists {
  import opened Common
  import opened Ordering
  import opened TrainingModels

  /** The perfis allowed to fill a checklist. */
  const FILL_PERFIS: set<string> := {ADMINISTRATOR, COORDINATOR, LEADER, EVALUATOR}

  /** The lowest weekly score that passes. */
  const PASS_SCORE := 8

  const SIGNATURE_FIELD := "assinatura_digital"
  const NOTES_FIELD := "observacoes"

  datatype FillOutcome = Saved | NotFound | NotAllowed | NoTemplate | Failed

  // ---------------------------------------------------------------------------
  // Choosing the template
  // ---------------------------------------------------------------------------

  /** `ChecklistModelo.query.filter_by(tipo=tipo).order_by(ChecklistModelo.id.desc()).first()` */
  function LatestModelo(modelos: seq<ChecklistModelo>, tipo: string): (r: Option<ChecklistModelo>)
    ensures r.None? <==> forall m :: m in modelos ==> m.tipo != tipo
    ensures r.Some? ==> r.value in modelos && r.value.tipo == tipo
    ensures r.Some? ==> forall m :: m in modelos && m.tipo == tipo ==> m.id <= r.value.id
  {
    if modelos == [] then None
    else
      var m := modelos[0];
      var rest := LatestModelo(modelos[1..], tipo);
      assert modelos == [m] + modelos[1..];
      if m.tipo != tipo then rest
      else if rest.Some? && rest.value.id > m.id then rest
      else Some(m)
  }

  /** A template added with a fresh id becomes the one chosen for its tipo, and the choice
      for every other tipo stays what it was. */
  lemma {:induction false} AppendedModeloIsLatest(modelos: seq<ChecklistModelo>, m: ChecklistModelo, tipo: string)
    requires ModeloIdsBelow(modelos, m.id)
    ensures LatestModelo(modelos + [m], m.tipo) == Some(m)
    ensures tipo != m.tipo ==> LatestModelo(modelos + [m], tipo) == LatestModelo(modelos, tipo)
  {
    if modelos == [] {
      assert [m][1..] == [];
    } else {
      assert (modelos + [m])[1..] == modelos[1..] + [m];
      AppendedModeloIsLatest(modelos[1..], m, tipo);
    }
  }

  // ---------------------------------------------------------------------------
  // Python's int() and the weekly score
  // ---------------------------------------------------------------------------

  /** Python's `str(n)` for any integer. */
  function IntToString(n: int): (s: string)
    ensures s != [] && Stripped(s)
  {
    if n < 0 then "-" + NatToString(-n) else NatToString(n)
  }

  /** A sign character. */
  predicate IsSign(c: char)
  {
    c == '-' || c == '+'
  }

  /** Decimal digits, at least one, after an optional sign. */
  predicate IntLiteral(t: string)
  {
    (t != [] && AllDigits(t)) || (|t| >= 2 && IsSign(t[0]) && AllDigits(t[1..]))
  }

  /** An optional sign followed by decimal digits, the form `int` accepts once whitespace is gone. */
  function ParseSigned(t: string): (r: Option<int>)
    ensures r.Some? <==> IntLiteral(t)
    ensures t != [] && AllDigits(t) ==> r == Some(DecimalValue(t))
    ensures |t| >= 2 && t[0] == '+' && AllDigits(t[1..]) ==> r == Some(DecimalValue(t[1..]))
    ensures |t| >= 2 && t[0] == '-' && AllDigits(t[1..]) ==> r == Some(-(DecimalValue(t[1..]) as int))
  {
    if t != [] && (t[0] == '-' || t[0] == '+') then
      var digits := t[1..];
      if digits != [] && AllDigits(digits) then
        var v: int := DecimalValue(digits);
        Some(if t[0] == '-' then -v else v)
      else None
    else if t != [] && AllDigits(t) then Some(DecimalValue(t))
    else None
  }

  /** Python's `int(s)` on a string: surrounding whitespace, an optional sign and decimal
      digits; `None` where Python raises ValueError. */
  function ParseInt(s: string): (r: Option<int>)
    ensures r.Some? <==> IntLiteral(Strip(s))
    ensures var t := Strip(s);
      && (t != [] && AllDigits(t) ==> r == Some(DecimalValue(t)))
      && (|t| >= 2 && t[0] == '+' && AllDigits(t[1..]) ==> r == Some(DecimalValue(t[1..])))
      && (|t| >= 2 && t[0] == '-' && AllDigits(t[1..]) ==> r == Some(-(DecimalValue(t[1..]) as int)))
  {
    ParseSigned(Strip(s))
  }

  /** Reading back a printed integer gives the integer. */
  lemma ParseSignedRoundTrip(n: int)
    ensures ParseSigned(IntToString(n)) == Some(n)
  {
    var s := IntToString(n);
    if n < 0 {
      assert s[1..] == NatToString(-n);
      DecimalRoundTrip(-n);
    } else {
      DecimalRoundTrip(n);
    }
  }

  /** `int(str(n)) == n` */
  lemma ParseIntRoundTrip(n: int)
    ensures ParseInt(IntToString(n)) == Some(n)
  {
    var s := IntToString(n);
    assert Strip(s) == s;
    ParseSignedRoundTrip(n);
  }

  /** What one answer adds to the weekly score: nothing when it is absent or empty,
      `int(answer)` otherwise; `None` when `int` raises. */
  function AnswerPoints(value: Option<string>): (r: Option<int>)
    ensures !Truthy(value) ==> r == Some(0)
    ensures Truthy(value) ==> r == ParseInt(value.value)
  {
    if Truthy(value) then ParseInt(value.value) else Some(0)
  }

  /** Points summed over the items in order; `None` as soon as one item's points are `None`. */
  function Tally(itens: seq<string>, points: string -> Option<int>): Option<int>
  {
    if itens == [] then Some(0)
    else
      var prev := Tally(itens[..|itens| - 1], points);
      var last := points(itens[|itens| - 1]);
      if prev.Some? && last.Some? then Some(prev.value + last.value) else None
  }

  /** A tally fails exactly when some item's points are `None`. */
  lemma {:induction false} TallyFailsExactly(itens: seq<string>, points: string -> Option<int>)
    ensures Tally(itens, points).None? <==> exists k :: 0 <= k < |itens| && points(itens[k]).None?
  {
    if itens != [] {
      var init := itens[..|itens| - 1];
      TallyFailsExactly(init, points);
      if exists k :: 0 <= k < |itens| && points(itens[k]).None? {
        var k :| 0 <= k < |itens| && points(itens[k]).None?;
        if k < |init| {
          assert points(init[k]).None?;
        }
      }
      if exists k :: 0 <= k < |init| && points(init[k]).None? {
        var k :| 0 <= k < |init| && points(init[k]).None?;
        assert points(itens[k]).None?;
      }
    }
  }

  /** The tally of one more item. */
  lemma TallyStep(itens: seq<string>, i: nat, points: string -> Option<int>)
    requires i < |itens|
    ensures var prev, last := Tally(itens[..i], points), points(itens[i]);
      Tally(itens[..i + 1], points) == if prev.Some? && last.Some? then Some(prev.value + last.value) else None
  {
    assert itens[..i + 1][..i] == itens[..i];
  }

  /** The sum of `points` over the items. */
  function SumPoints(itens: seq<string>, points: string -> int): int
  {
    if itens == [] then 0 else SumPoints(itens[..|itens| - 1], points) + points(itens[|itens| - 1])
  }

  /** A tally in which every item's points are present is their plain sum. */
  lemma {:induction false} TallyOfPresent(itens: seq<string>, points: string -> Option<int>, values: string -> int)
    requires forall k :: 0 <= k < |itens| ==> points(itens[k]) == Some(values(itens[k]))
    ensures Tally(itens, points) == Some(SumPoints(itens, values))
  {
    if itens != [] {
      var init := itens[..|itens| - 1];
      assert forall k :: 0 <= k < |init| ==> init[k] == itens[k];
      TallyOfPresent(init, points, values);
    }
  }

  /** The points of every item of a submitted form. */
  function FormPoints(form: map<string, string>): string -> Option<int>
  {
    (item: string) => AnswerPoints(FormGet(form, item))
  }

  /** The weekly score of a submitted form: the answers' points summed over the items in order;
      `None` once an answer is not a number. */
  function WeeklyScore(itens: seq<string>, form: map<string, string>): Option<int>
  {
    Tally(itens, FormPoints(form))
  }

  /** The weekly score of one more item adds that item's points, or fails with them. */
  lemma WeeklyScoreStep(itens: seq<string>, i: nat, form: map<string, string>)
    requires i < |itens|
    ensures var prev, last := WeeklyScore(itens[..i], form), AnswerPoints(FormGet(form, itens[i]));
      WeeklyScore(itens[..i + 1], form) == if prev.Some? && last.Some? then Some(prev.value + last.value) else None
  {
    TallyStep(itens, i, FormPoints(form));
  }

  /** The weekly score fails exactly when some item carries a non-empty answer that is not a number. */
  lemma WeeklyScoreFailsExactly(itens: seq<string>, form: map<string, string>)
    ensures WeeklyScore(itens, form).None?
        <==> exists k :: 0 <= k < |itens| && Truthy(FormGet(form, itens[k]))
                                         && ParseInt(form[itens[k]]).None?
  {
    TallyFailsExactly(itens, FormPoints(form));
  }

  /** When every non-empty answer is a printed number, the score is the sum of those numbers,
      blank and absent answers counting nothing. */
  lemma WeeklyScoreOfNumbers(itens: seq<string>, form: map<string, string>, values: string -> int)
    requires forall k :: 0 <= k < |itens| ==>
      FormGet(form, itens[k]) == Some(IntToString(values(itens[k])))
      || (!Truthy(FormGet(form, itens[k])) && values(itens[k]) == 0)
    ensures WeeklyScore(itens, form) == Some(SumPoints(itens, values))
  {
    forall k | 0 <= k < |itens| && FormGet(form, itens[k]) == Some(IntToString(values(itens[k]))) {
      ParseIntRoundTrip(values(itens[k]));
    }
    TallyOfPresent(itens, FormPoints(form), values);
  }

  /** The score of a sheet: summed for 'semanal', 0 for any other tipo. */
  function SheetScore(tipo: string, itens: seq<string>, form: map<string, string>): Option<int>
  {
    if tipo == WEEKLY then WeeklyScore(itens, form) else Some(0)
  }

  /** `respostas` holds the submitted value of exactly the given items. */
  ghost predicate Recorded(respostas: map<string, Option<string>>, itens: seq<string>, form: map<string, string>)
  {
    respostas.Keys == (set i | i in itens) && forall i :: i in itens ==> respostas[i] == FormGet(form, i)
  }

  /** The `respostas` dict the loop builds: each item in turn mapped to its submitted value. */
  function Answers(itens: seq<string>, form: map<string, string>): map<string, Option<string>>
  {
    if itens == [] then map[]
    else Answers(itens[..|itens| - 1], form)[itens[|itens| - 1] := FormGet(form, itens[|itens| - 1])]
  }

  /** The answers hold the submitted value of every item of the template and of nothing else. */
  lemma {:induction false} AnswersRecorded(itens: seq<string>, form: map<string, string>)
    ensures Recorded(Answers(itens, form), itens, form)
  {
    if itens != [] {
      var init, last := itens[..|itens| - 1], itens[|itens| - 1];
      AnswersRecorded(init, form);
      assert itens == init + [last];
    }
  }

  /** One more item adds its submitted value to the answers. */
  lemma AnswersStep(itens: seq<string>, i: nat, form: map<string, string>)
    requires i < |itens|
    ensures Answers(itens[..i + 1], form) == Answers(itens[..i], form)[itens[i] := FormGet(form, itens[i])]
  {
    assert itens[..i + 1][..i] == itens[..i];
  }

  /** Reads the form for every item and accumulates the score, stopping where `int` raises. */
  method ScoreSheet(tipo: string, itens: seq<string>, form: map<string, string>)
    returns (respostas: map<string, Option<string>>, score: Option<int>)
    ensures score == SheetScore(tipo, itens, form)
    ensures score.Some? ==> respostas == Answers(itens, form)
  {
    respostas := map[];
    var total := 0;
    var i := 0;
    while i < |itens|
      invariant 0 <= i <= |itens|
      invariant respostas == Answers(itens[..i], form)
      invariant tipo == WEEKLY ==> WeeklyScore(itens[..i], form) == Some(total)
      invariant tipo != WEEKLY ==> total == 0
    {
      var item := itens[i];
      var valor := FormGet(form, item);
      AnswersStep(itens, i, form);
      respostas := respostas[item := valor];
      if tipo == WEEKLY {
        // nothing is added for an empty answer, `int(resposta_valor)` otherwise
        var points := AnswerPoints(valor);
        WeeklyScoreStep(itens, i, form);
        if points.None? {
          TallyFailsExactly(itens, FormPoints(form));
          return respostas, None;
        }
        total := total + points.value;
        assert WeeklyScore(itens[..i + 1], form) == Some(total);
      }
      i := i + 1;
    }
    assert itens[..i] == itens;
    score := Some(total);
  }

  /** 'Aprovado' at 8 points or more and 'Reprovado' below for 'semanal'; nothing for other tipos. */
  function Situacao(tipo: string, score: int): (r: Option<string>)
    ensures r.None? <==> tipo != WEEKLY
    ensures r == Some(APPROVED) <==> tipo == WEEKLY && score >= PASS_SCORE
    ensures r == Some(REJECTED) <==> tipo == WEEKLY && score < PASS_SCORE
  {
    if tipo == WEEKLY then Some(if score >= PASS_SCORE then APPROVED else REJECTED) else None
  }

  // ---------------------------------------------------------------------------
  // The fill handler
  // ---------------------------------------------------------------------------

  ghost predicate HasColaborador(colaboradores: seq<Colaborador>, id: nat)
  {
    exists c :: c in colaboradores && c.id == id
  }

  /** What a saved sheet holds: the template's items mapped to the submitted values, the score
      and situação of the form, the notes, and the signature as a one-element list. */
  ghost predicate SheetFor(row: ChecklistRespostas, modelo: ChecklistModelo, colaboradorId: nat,
                           tipo: string, form: map<string, string>, now: int)
  {
    && row.colaboradorId == colaboradorId
    && row.modeloId == modelo.id
    && row.dataPreenchimento == now
    && row.observacoes == FormGet(form, NOTES_FIELD)
    && row.assinaturas == [FormGet(form, SIGNATURE_FIELD)]
    && row.respostas == Answers(modelo.itens, form)
    && SheetScore(tipo, modelo.itens, form) == Some(row.pontuacaoFinal)
    && row.situacao == Situacao(tipo, row.pontuacaoFinal)
  }

  /** POST `/preencher_checklist/<colaborador_id>/<tipo>` by the logged-in `actor` at time `now`. */
  method PreencherChecklist(db: TrainingDb, actor: Usuario, colaboradorId: nat, tipo: string,
                            form: map<string, string>, now: int) returns (outcome: FillOutcome)
    requires db.Valid()
    modifies db
    ensures db.Valid()
    ensures db.usuarios == old(db.usuarios) && db.setores == old(db.setores)
    ensures db.colaboradores == old(db.colaboradores) && db.modelos == old(db.modelos)
    ensures outcome == NotFound <==> !HasColaborador(db.colaboradores, colaboradorId)
    ensures outcome == NotAllowed <==> HasColaborador(db.colaboradores, colaboradorId) && actor.perfil !in FILL_PERFIS
    ensures outcome == NoTemplate <==>
      HasColaborador(db.colaboradores, colaboradorId) && actor.perfil in FILL_PERFIS
      && LatestModelo(db.modelos, tipo).None?
    ensures outcome == Failed <==>
      HasColaborador(db.colaboradores, colaboradorId) && actor.perfil in FILL_PERFIS
      && LatestModelo(db.modelos, tipo).Some?
      && SheetScore(tipo, LatestModelo(db.modelos, tipo).value.itens, form).None?
    ensures outcome != Saved ==> db.respostas == old(db.respostas) && db.nextId == old(db.nextId)
    ensures outcome == Saved ==>
      && |db.respostas| == |old(db.respostas)| + 1
      && db.respostas[..|old(db.respostas)|] == old(db.respostas)
      && db.respostas[|old(db.respostas)|].id == old(db.nextId)
      && SheetFor(db.respostas[|old(db.respostas)|], LatestModelo(db.modelos, tipo).value,
                  colaboradorId, tipo, form, now)
  {
    var colaborador := FirstWhere(db.colaboradores, (c: Colaborador) => c.id == colaboradorId);
    if colaborador.None? {
      return NotFound;
    }
    if actor.perfil !in FILL_PERFIS {
      return NotAllowed;
    }
    var modelo := LatestModelo(db.modelos, tipo);
    if modelo.None? {
      return NoTemplate;
    }
    var respostas, score := ScoreSheet(tipo, modelo.value.itens, form);
    if score.None? {
      return Failed;
    }
    var row := ChecklistRespostas(db.nextId, now, FormGet(form, NOTES_FIELD), [FormGet(form, SIGNATURE_FIELD)],
                                  respostas, score.value, Situacao(tipo, score.value),
                                  colaborador.value.id, modelo.value.id);
    db.respostas := db.respostas + [row];
    db.nextId := db.nextId + 1;
    outcome := Saved;
  }

  /** GET `/historico/<colaborador_id>`: the collaborator's sheets, newest first. */
  function Historico(colaboradores: seq<Colaborador>, respostas: seq<ChecklistRespostas>, colaboradorId: nat)
    : (r: Option<seq<ChecklistRespostas>>)
    ensures r.None? <==> !HasColaborador(colaboradores, colaboradorId)
    ensures r.Some? ==> SortedDesc(r.value, (x: ChecklistRespostas) => x.dataPreenchimento)
    ensures r.Some? ==> forall x :: x in r.value <==> x in respostas && x.colaboradorId == colaboradorId
  {
    if FirstWhere(colaboradores, (c: Colaborador) => c.id == colaboradorId).None? then None
    else
      var own := Filter(respostas, (x: ChecklistRespostas) => x.colaboradorId == colaboradorId);
      var key := (x: ChecklistRespostas) => x.dataPreenchimento;
      forall x ensures x in SortDesc(own, key) <==> x in own {
        SortDescSameRows(own, key, x);
      }
      Some(SortDesc(own, key))
  }
}
