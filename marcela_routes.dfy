/** The MarcelaLSL checklist application: administrators define templates, an evaluator
    starts and fills a checklist, then several validators (one per role holder) sign it
    off, each leaving a ValidationLog. The spreadsheet export flattens a checklist into
    one row per answer. Times are integer seconds, dates integer day numbers. */
module MarcelaRoutes {
  import opened Common
  import opened SignatureDataUrl

  const ADMIN_ROLE := "Administrador"
  const IN_PROGRESS := "Em Andamento"
  const AWAITING_VALIDATION := "Aguardando Validação"
  const APPROVED := "Aprovado"
  const NOT_APPLICABLE := "NSP"
  const DEFAULT_EMPLOYEE_NAME := "Colaborador"
  const NOT_AVAILABLE := "N/A"
  /** The roles allowed to validate (line 228). */
  const VALIDATOR_ROLES: set<string> := {"Líder", "Gestor", "Qualidade", "Seguranca", "Coordenação"}

  datatype User = User(id: nat, username: string, role: string)

  datatype ItemTemplate = ItemTemplate(id: nat, templateId: nat, questionNumber: nat, questionText: string,
                                       requiresCommentIfNo: bool, orderIndex: nat)

  /** A template with its items, in `order_index` order. */
  datatype Template = Template(id: nat, name: string, description: Option<string>, sector: string,
                               isActive: bool, items: seq<ItemTemplate>)

  datatype Checklist = Checklist(
    id: nat, templateId: nat, createdBy: nat, evaluatorId: nat,
    employeeName: string, matricula: Option<string>, position: Option<string>, shift: string, area: string,
    trainingDate: int, coach: string, loadHours: Option<string>, processDesc: Option<string>,
    startTime: Option<int>, endTime: Option<int>, status: string, savedPartially: bool,
    evaluatorSignature: Option<Bytes>, evaluatorSignatureName: Option<string>, evaluatorSignatureTime: Option<int>)

  datatype Answer = Answer(id: nat, checklistId: nat, itemTemplateId: nat, answer: string, comment: Option<string>)

  datatype ValidationLog = ValidationLog(checklistId: nat, validatorId: nat, status: string, comment: Option<string>,
                                         time: int, signature: Bytes, signatureName: string)

  /** The header fields of the fill form; `None` is a field the form did not send. */
  datatype EditForm = EditForm(employeeName: Option<string>, matricula: Option<string>, position: Option<string>,
                               shift: Option<string>, area: Option<string>, trainingDate: Option<int>,
                               coach: Option<string>, loadHours: Option<string>, processDesc: Option<string>)

  datatype Outcome = Done | Denied | NotFound | AlreadyValidated | SignatureRequired | Failed

  /** Lines 111-120: item i (from 0) is question i+1, in position i+1; it requires a comment
      only when a matching checkbox entry exists and contains "on". */
  method BuildItems(templateId: nat, firstId: nat, questions: seq<string>, commentFlags: seq<string>)
    returns (items: seq<ItemTemplate>)
    ensures |items| == |questions|
    ensures forall i :: 0 <= i < |items| ==>
      items[i].id == firstId + i && items[i].templateId == templateId
      && items[i].questionNumber == i + 1 && items[i].orderIndex == i + 1
      && items[i].questionText == questions[i]
      && (items[i].requiresCommentIfNo <==> i < |commentFlags| && HasSubstring(commentFlags[i], "on"))
  {
    items := [];
    for i := 0 to |questions|
      invariant |items| == i
      invariant forall j :: 0 <= j < i ==>
        items[j].id == firstId + j && items[j].templateId == templateId
        && items[j].questionNumber == j + 1 && items[j].orderIndex == j + 1
        && items[j].questionText == questions[j]
        && (items[j].requiresCommentIfNo <==> j < |commentFlags| && HasSubstring(commentFlags[j], "on"))
    {
      var requiresComment := if i < |commentFlags| then HasSubstring(commentFlags[i], "on") else false;
      items := items + [ItemTemplate(firstId + i, templateId, i + 1, questions[i], requiresComment, i + 1)];
    }
  }

  /** Item positions follow the question order: earlier questions come first in `order_index`. */
  lemma ItemsOrderedByPosition(items: seq<ItemTemplate>, templateId: nat, firstId: nat,
                               questions: seq<string>, commentFlags: seq<string>)
    requires |items| == |questions|
    requires forall i :: 0 <= i < |items| ==> items[i].orderIndex == i + 1 && items[i].questionNumber == i + 1
    ensures forall i, j :: 0 <= i < j < |items| ==> items[i].orderIndex < items[j].orderIndex
    ensures forall i :: 0 <= i < |items| ==> 1 <= items[i].questionNumber <= |questions|
  {
  }

  /** Lines 166-174: one 'NSP' answer with an empty comment per template item, in item order. */
  method SeedAnswers(checklistId: nat, firstId: nat, items: seq<ItemTemplate>) returns (rows: seq<Answer>)
    ensures |rows| == |items|
    ensures forall k :: 0 <= k < |rows| ==>
      rows[k] == Answer(firstId + k, checklistId, items[k].id, NOT_APPLICABLE, Some(""))
  {
    rows := [];
    for k := 0 to |items|
      invariant |rows| == k
      invariant forall j :: 0 <= j < k ==> rows[j] == Answer(firstId + j, checklistId, items[j].id, NOT_APPLICABLE, Some(""))
    {
      rows := rows + [Answer(firstId + k, checklistId, items[k].id, NOT_APPLICABLE, Some(""))];
    }
  }

  /** Lines 146-161: the checklist opened on a template: placeholder header, today's date, in progress. */
  function NewChecklist(id: nat, templateId: nat, actor: User, today: int, now: int): (c: Checklist)
    ensures c.status == IN_PROGRESS && c.savedPartially && c.evaluatorSignature.None?
    ensures c.createdBy == actor.id && c.evaluatorId == actor.id && c.employeeName == DEFAULT_EMPLOYEE_NAME
  {
    Checklist(id, templateId, actor.id, actor.id, DEFAULT_EMPLOYEE_NAME, Some(""), Some(""), "", "",
              today, "", Some(""), Some(""), Some(now), None, IN_PROGRESS, true, None, None, None)
  }

  /** The fields `editar_checklist` cannot do without (lines 184-191): the name, shift, area,
      coach and a readable training date; the others may be absent and are stored as null. */
  predicate FormComplete(form: EditForm)
  {
    form.employeeName.Some? && form.shift.Some? && form.area.Some? && form.coach.Some? && form.trainingDate.Some?
  }

  /** Lines 184-206 for the checklist row: every header field taken from the form, the
      evaluator's signature (`decoded`, with the signer's name and the time) when one was sent,
      then the status awaiting validation and the end time. */
  function Edited(c: Checklist, form: EditForm, decoded: Option<Bytes>, signatureName: Option<string>, now: int)
    : (r: Checklist)
    requires FormComplete(form)
    ensures r.id == c.id && r.templateId == c.templateId && r.createdBy == c.createdBy
    ensures r.evaluatorId == c.evaluatorId && r.startTime == c.startTime
    ensures r.status == AWAITING_VALIDATION && !r.savedPartially && r.endTime == Some(now)
    ensures r.employeeName == form.employeeName.value && r.matricula == form.matricula && r.position == form.position
    ensures r.shift == form.shift.value && r.area == form.area.value && r.trainingDate == form.trainingDate.value
    ensures r.coach == form.coach.value && r.loadHours == form.loadHours && r.processDesc == form.processDesc
    ensures decoded.None? ==>
      (r.evaluatorSignature, r.evaluatorSignatureName, r.evaluatorSignatureTime)
      == (c.evaluatorSignature, c.evaluatorSignatureName, c.evaluatorSignatureTime)
    ensures decoded.Some? ==>
      (r.evaluatorSignature, r.evaluatorSignatureName, r.evaluatorSignatureTime) == (decoded, signatureName, Some(now))
  {
    var header := c.(employeeName := form.employeeName.value, matricula := form.matricula,
                     position := form.position, shift := form.shift.value, area := form.area.value,
                     trainingDate := form.trainingDate.value, coach := form.coach.value,
                     loadHours := form.loadHours, processDesc := form.processDesc);
    var signed := if decoded.Some? then header.(evaluatorSignature := decoded, evaluatorSignatureName := signatureName,
                                                evaluatorSignatureTime := Some(now))
                  else header;
    signed.(status := AWAITING_VALIDATION, savedPartially := false, endTime := Some(now))
  }

  /** Lines 195-197: an answer takes its submitted value, 'NSP' when absent; its comment
      the submitted text, '' when absent. Answers are keyed by their own id. */
  function Resubmitted(a: Answer, answerForm: map<nat, string>, commentForm: map<nat, string>): (r: Answer)
    ensures r.id == a.id && r.checklistId == a.checklistId && r.itemTemplateId == a.itemTemplateId
    ensures a.id !in answerForm ==> r.answer == NOT_APPLICABLE
    ensures a.id in answerForm ==> r.answer == answerForm[a.id]
    ensures a.id !in commentForm ==> r.comment == Some("")
    ensures a.id in commentForm ==> r.comment == Some(commentForm[a.id])
  {
    a.(answer := FormGetOr(answerForm, a.id, NOT_APPLICABLE), comment := Some(FormGetOr(commentForm, a.id, "")))
  }

  /** Lines 195-197: the loop over `checklist.answers`; answers of other checklists are untouched. */
  method ResubmitAnswers(rows: seq<Answer>, checklistId: nat, answerForm: map<nat, string>, commentForm: map<nat, string>)
    returns (updated: seq<Answer>)
    ensures |updated| == |rows|
    ensures forall k :: 0 <= k < |rows| && rows[k].checklistId == checklistId ==>
      updated[k] == Resubmitted(rows[k], answerForm, commentForm)
    ensures forall k :: 0 <= k < |rows| && rows[k].checklistId != checklistId ==> updated[k] == rows[k]
  {
    updated := rows;
    for k := 0 to |rows|
      invariant |updated| == |rows|
      invariant forall j :: 0 <= j < k && rows[j].checklistId == checklistId ==>
        updated[j] == Resubmitted(rows[j], answerForm, commentForm)
      invariant forall j :: 0 <= j < |rows| && (j >= k || rows[j].checklistId != checklistId) ==> updated[j] == rows[j]
    {
      if rows[k].checklistId == checklistId {
        updated := updated[k := Resubmitted(rows[k], answerForm, commentForm)];
      }
    }
  }

  /** The first log of a (checklist, validator) pair: `ValidationLog.query.filter_by(...).first()`. */
  function LogOf(logs: seq<ValidationLog>, checklistId: nat, validatorId: nat): (r: Option<nat>)
    ensures r.Some? ==> r.value < |logs| && logs[r.value].checklistId == checklistId && logs[r.value].validatorId == validatorId
    ensures r.None? ==> forall k :: 0 <= k < |logs| ==> !(logs[k].checklistId == checklistId && logs[k].validatorId == validatorId)
  {
    IndexWhere(logs, (l: ValidationLog) => l.checklistId == checklistId && l.validatorId == validatorId)
  }

  /** No validator has signed the same checklist twice. */
  ghost predicate OneLogPerValidator(logs: seq<ValidationLog>)
  {
    forall j, k :: 0 <= j < k < |logs| ==>
      logs[j].checklistId != logs[k].checklistId || logs[j].validatorId != logs[k].validatorId
  }

  /** Appending the log of a pair that has none yet keeps one log per validator. */
  lemma AppendNewPairKeepsOneLog(logs: seq<ValidationLog>, log: ValidationLog)
    requires OneLogPerValidator(logs)
    requires LogOf(logs, log.checklistId, log.validatorId).None?
    ensures OneLogPerValidator(logs + [log])
  {
    var s := logs + [log];
    forall j, k | 0 <= j < k < |s|
      ensures s[j].checklistId != s[k].checklistId || s[j].validatorId != s[k].validatorId
    {
      if k == |logs| {
        assert s[j] == logs[j];
      }
    }
  }

  /** The checks of lines 223-239, in order: why a validation is refused, if it is. */
  function ValidationGate(logs: seq<ValidationLog>, checklistId: nat, actor: User, signature: Option<string>): (r: Option<Outcome>)
    ensures LogOf(logs, checklistId, actor.id).Some? ==> r == Some(AlreadyValidated)
    ensures r.None? <==> LogOf(logs, checklistId, actor.id).None? && actor.role in VALIDATOR_ROLES && Truthy(signature)
    ensures r.Some? ==> r.value in {AlreadyValidated, Denied, SignatureRequired}
  {
    if LogOf(logs, checklistId, actor.id).Some? then Some(AlreadyValidated)
    else if actor.role !in VALIDATOR_ROLES then Some(Denied)
    else if !Truthy(signature) then Some(SignatureRequired)
    else None
  }

  /** Once a validator's log is in, the same validator is refused on that checklist from then on. */
  lemma SecondValidationRefused(logs: seq<ValidationLog>, log: ValidationLog, actor: User, signature: Option<string>)
    requires log.validatorId == actor.id
    ensures ValidationGate(logs + [log], log.checklistId, actor, signature) == Some(AlreadyValidated)
  {
    var s := logs + [log];
    assert s[|logs|] == log;
  }

  /** `not modelo.is_active` */
  function Toggled(t: Template): (r: Template)
    ensures r.isActive == !t.isActive
    ensures r.id == t.id && r.name == t.name && r.items == t.items && r.sector == t.sector && r.description == t.description
  {
    t.(isActive := !t.isActive)
  }

  /** Toggling twice restores the template. */
  lemma ToggleTwiceRestores(t: Template)
    ensures Toggled(Toggled(t)) == t
  {
  }

  /** A spreadsheet cell. Dates and times stand for their formatted text. */
  datatype Cell = Text(text: string) | Int(n: int) | Date(day: int) | Time(seconds: int) | Empty

  function OptionalText(s: Option<string>): Cell
  {
    if s.Some? then Text(s.value) else Empty
  }

  /** The five columns written for each validation log. */
  datatype LogField = ValidatorName | ValidationStatus | ValidationComment | ValidationDate | ValidationSignature

  /** A spreadsheet column: a fixed header, or a log field numbered by the log's position. */
  datatype Column = Named(name: string) | Numbered(field: LogField, n: nat)

  function FieldPrefix(f: LogField): string
  {
    match f
    case ValidatorName => "Validador_"
    case ValidationStatus => "Status_Validacao_"
    case ValidationComment => "Comentario_Validacao_"
    case ValidationDate => "Data_Validacao_"
    case ValidationSignature => "Assinatura_Validacao_"
  }

  /** The header text of a column, e.g. `Validador_2`. */
  function Header(c: Column): string
  {
    match c
    case Named(name) => name
    case Numbered(f, n) => FieldPrefix(f) + NatToString(n)
  }

  /** Distinct numbered columns have distinct headers, so no log's column overwrites another's. */
  lemma NumberedHeadersDistinct(f: LogField, j: nat, g: LogField, n: nat)
    ensures Header(Numbered(f, j)) == Header(Numbered(g, n)) ==> f == g && j == n
  {
    var p, q := FieldPrefix(f), FieldPrefix(g);
    if p + NatToString(j) == q + NatToString(n) {
      assert (p + NatToString(j))[0] == p[0];
      assert (q + NatToString(n))[0] == q[0];
      assert p == q;
      assert f == g;
      assert NatToString(j) == (p + NatToString(j))[|p|..];
      assert NatToString(n) == (q + NatToString(n))[|q|..];
      NatToStringInjective(j, n);
    }
  }

  /** What the export reads of a validation log: the validator's username, status,
      comment, time and signature name. */
  datatype LogView = LogView(validatorName: string, status: string, comment: Option<string>,
                             time: Option<int>, signatureName: Option<string>)

  /** What the export reads of an answer: its question text, answer and comment. */
  datatype AnswerView = AnswerView(question: string, answer: string, comment: Option<string>)

  type Row = map<Column, Cell>

  /** Lines 393-409: the checklist's own columns. */
  function FixedColumns(c: Checklist, templateName: string, evaluatorName: string): Row
  {
    map[
      Named("ID do Checklist") := Int(c.id),
      Named("Modelo") := Text(templateName),
      Named("Avaliador") := Text(evaluatorName),
      Named("Colaborador Avaliado") := Text(c.employeeName),
      Named("Matrícula") := OptionalText(c.matricula),
      Named("Cargo") := OptionalText(c.position),
      Named("Turno") := Text(c.shift),
      Named("Área") := Text(c.area),
      Named("Data de Treinamento") := Date(c.trainingDate),
      Named("Treinador") := Text(c.coach),
      Named("Carga Horária") := OptionalText(c.loadHours),
      Named("Processo de Treinamento") := OptionalText(c.processDesc),
      Named("Status") := Text(c.status),
      Named("Assinatura Avaliador") := OptionalText(c.evaluatorSignatureName),
      Named("Data Assinatura") := if c.evaluatorSignatureTime.Some? then Time(c.evaluatorSignatureTime.value) else Text(NOT_AVAILABLE)
    ]
  }

  /** Lines 413-417: the value of one log field; absent comments, times and names read 'N/A'. */
  function LogCell(f: LogField, log: LogView): Cell
  {
    match f
    case ValidatorName => Text(log.validatorName)
    case ValidationStatus => Text(log.status)
    case ValidationComment => Text(OrDefault(log.comment, NOT_AVAILABLE))
    case ValidationDate => if log.time.Some? then Time(log.time.value) else Text(NOT_AVAILABLE)
    case ValidationSignature => Text(OrDefault(log.signatureName, NOT_AVAILABLE))
  }

  /** Lines 413-417: the five columns of the n-th validation log (numbered from 1). */
  function LogColumns(n: nat, log: LogView): (r: Row)
    ensures forall col :: col in r ==> col.Numbered? && col.n == n
  {
    map[
      Numbered(ValidatorName, n) := LogCell(ValidatorName, log),
      Numbered(ValidationStatus, n) := LogCell(ValidationStatus, log),
      Numbered(ValidationComment, n) := LogCell(ValidationComment, log),
      Numbered(ValidationDate, n) := LogCell(ValidationDate, log),
      Numbered(ValidationSignature, n) := LogCell(ValidationSignature, log)
    ]
  }

  /** Each of the five fields of the n-th log is present with its value. */
  lemma LogColumnsAt(n: nat, log: LogView, f: LogField)
    ensures Numbered(f, n) in LogColumns(n, log) && LogColumns(n, log)[Numbered(f, n)] == LogCell(f, log)
  {
    match f
    case ValidatorName =>
    case ValidationStatus =>
    case ValidationComment =>
    case ValidationDate =>
    case ValidationSignature =>
  }

  /** The columns of all logs, numbered 1..n in log order. */
  function ValidatorColumns(logs: seq<LogView>): (r: Row)
    ensures forall col :: col in r ==> col.Numbered? && 1 <= col.n <= |logs|
  {
    if logs == [] then map[] else ValidatorColumns(logs[..|logs| - 1]) + LogColumns(|logs|, logs[|logs| - 1])
  }

  /** Lines 423-425: the question, answer and comment of one answer; an absent or empty
      comment reads 'N/A'. */
  function AnswerColumns(a: AnswerView): (r: Row)
    ensures forall col :: col in r ==> col.Named?
    ensures Named("Pergunta") in r && r[Named("Pergunta")] == Text(a.question)
    ensures Named("Resposta") in r && r[Named("Resposta")] == Text(a.answer)
    ensures Named("Comentário") in r
    ensures Truthy(a.comment) ==> r[Named("Comentário")] == Text(a.comment.value)
    ensures !Truthy(a.comment) ==> r[Named("Comentário")] == Text(NOT_AVAILABLE)
  {
    map[Named("Pergunta") := Text(a.question), Named("Resposta") := Text(a.answer),
        Named("Comentário") := Text(OrDefault(a.comment, NOT_AVAILABLE))]
  }

  /** Line 422: a copy of the base columns extended with one answer. */
  function AnswerRow(base: Row, a: AnswerView): Row
  {
    base + AnswerColumns(a)
  }

  /** Lines 420-428: one row per answer, or the base row alone when there are none. */
  function ExportTable(base: Row, answers: seq<AnswerView>): seq<Row>
  {
    if answers == [] then [base] else seq(|answers|, k requires 0 <= k < |answers| => AnswerRow(base, answers[k]))
  }

  /** One more log adds its five numbered columns. */
  lemma ValidatorColumnsStep(logs: seq<LogView>, i: nat)
    requires i < |logs|
    ensures ValidatorColumns(logs[..i + 1]) == ValidatorColumns(logs[..i]) + LogColumns(i + 1, logs[i])
  {
    assert logs[..i + 1][..i] == logs[..i];
  }

  /** Lines 412-417: the logs' columns are added to the base row one log at a time. */
  method AddValidatorColumns(fixed: Row, logs: seq<LogView>) returns (base: Row)
    ensures base == fixed + ValidatorColumns(logs)
  {
    base := fixed;
    for i := 0 to |logs|
      invariant base == fixed + ValidatorColumns(logs[..i])
    {
      ValidatorColumnsStep(logs, i);
      MergeAssociative(fixed, ValidatorColumns(logs[..i]), LogColumns(i + 1, logs[i]));
      base := base + LogColumns(i + 1, logs[i]);
    }
    assert logs[..|logs|] == logs;
  }

  /** Lines 420-428: one copy of the base row per answer, or the base row alone. */
  method CopyPerAnswer(base: Row, answers: seq<AnswerView>) returns (rows: seq<Row>)
    ensures rows == ExportTable(base, answers)
  {
    if |answers| > 0 {
      rows := [];
      for k := 0 to |answers|
        invariant |rows| == k
        invariant forall j :: 0 <= j < k ==> rows[j] == AnswerRow(base, answers[j])
      {
        rows := rows + [AnswerRow(base, answers[k])];
      }
    } else {
      rows := [base];
    }
  }

  /** `gerar_excel` (lines 387-428): the base row, then one copy of it per answer. */
  method ExportRows(c: Checklist, templateName: string, evaluatorName: string,
                    logs: seq<LogView>, answers: seq<AnswerView>)
    returns (rows: seq<Row>)
    ensures rows == ExportTable(FixedColumns(c, templateName, evaluatorName) + ValidatorColumns(logs), answers)
  {
    var base := AddValidatorColumns(FixedColumns(c, templateName, evaluatorName), logs);
    rows := CopyPerAnswer(base, answers);
  }

  /** The spreadsheet has one row per answer, or a single row when there are none, and
      the k-th row holds the k-th answer. */
  lemma ExportRowCount(base: Row, answers: seq<AnswerView>)
    ensures |ExportTable(base, answers)| == if answers == [] then 1 else |answers|
    ensures forall k :: 0 <= k < |answers| ==>
      ExportTable(base, answers)[k][Named("Pergunta")] == Text(answers[k].question)
      && ExportTable(base, answers)[k][Named("Resposta")] == Text(answers[k].answer)
  {
  }

  /** The columns of the k-th log (from 1) keep their values in the base row, whatever
      the logs after it. */
  lemma {:induction false} ValidatorColumnsNumbered(logs: seq<LogView>, k: nat, f: LogField)
    requires 1 <= k <= |logs|
    ensures Numbered(f, k) in ValidatorColumns(logs)
    ensures ValidatorColumns(logs)[Numbered(f, k)] == LogCell(f, logs[k - 1])
  {
    var n := |logs|;
    if k < n {
      var prefix := logs[..n - 1];
      assert prefix[k - 1] == logs[k - 1];
      ValidatorColumnsNumbered(prefix, k, f);
      assert Numbered(f, k) !in LogColumns(n, logs[n - 1]);
    } else {
      LogColumnsAt(n, logs[n - 1], f);
    }
  }

  /** Every exported row carries every log's five columns, numbered 1..n in log order. */
  lemma ExportRowsCarryLogs(base: Row, logs: seq<LogView>, answers: seq<AnswerView>, row: nat, k: nat, f: LogField)
    requires 1 <= k <= |logs|
    requires row < |ExportTable(base + ValidatorColumns(logs), answers)|
    ensures Numbered(f, k) in ExportTable(base + ValidatorColumns(logs), answers)[row]
    ensures ExportTable(base + ValidatorColumns(logs), answers)[row][Numbered(f, k)] == LogCell(f, logs[k - 1])
  {
    ValidatorColumnsNumbered(logs, k, f);
    var v := base + ValidatorColumns(logs);
    assert Numbered(f, k) in v && v[Numbered(f, k)] == LogCell(f, logs[k - 1]);
    if answers != [] {
      assert ExportTable(v, answers)[row] == v + AnswerColumns(answers[row]);
      assert Numbered(f, k) !in AnswerColumns(answers[row]);
    }
  }

  /** The application's tables used by these routes. */
  class Store {
    var templates: seq<Template>
    var checklists: seq<Checklist>
    var answers: seq<Answer>
    var logs: seq<ValidationLog>
    var nextId: nat

    ghost predicate Valid()
      reads this
    {
      OneLogPerValidator(logs)
    }

    constructor ()
      ensures Valid() && templates == [] && checklists == [] && answers == [] && logs == []
    {
      templates, checklists, answers, logs := [], [], [], [];
      nextId := 0;
    }

    /** `cadastrar_modelo` (lines 90-131). A missing name or sector, or a name already in use,
        makes the insert fail and nothing is kept. */
    method CreateTemplate(actor: User, name: Option<string>, description: Option<string>, sector: Option<string>,
                          questions: seq<string>, commentFlags: seq<string>)
      returns (outcome: Outcome)
      requires Valid()
      modifies this
      ensures Valid()
      ensures checklists == old(checklists) && answers == old(answers) && logs == old(logs)
      ensures actor.role != ADMIN_ROLE ==> outcome == Denied
      ensures outcome != Done ==> templates == old(templates)
      ensures outcome == Done <==> actor.role == ADMIN_ROLE && name.Some? && sector.Some?
                                   && forall t :: t in old(templates) ==> t.name != name.value
      ensures outcome == Done ==>
        |templates| == |old(templates)| + 1 && templates[..|old(templates)|] == old(templates)
        && var t := templates[|old(templates)|];
        t.id == old(nextId) && t.name == name.value && t.sector == sector.value && t.description == description
        && t.isActive && |t.items| == |questions|
        && forall i :: 0 <= i < |t.items| ==>
             t.items[i].questionNumber == i + 1 && t.items[i].orderIndex == i + 1
             && t.items[i].questionText == questions[i] && t.items[i].templateId == t.id
             && (t.items[i].requiresCommentIfNo <==> i < |commentFlags| && HasSubstring(commentFlags[i], "on"))
    {
      if actor.role != ADMIN_ROLE {
        return Denied;
      }
      if name.None? || sector.None? || exists t :: t in templates && t.name == name.value {
        return Failed;
      }
      var templateId := nextId;
      var items := BuildItems(templateId, nextId + 1, questions, commentFlags);
      templates := templates + [Template(templateId, name.value, description, sector.value, true, items)];
      nextId := nextId + 1 + |questions|;
      return Done;
    }

    /** `preencher_checklist` GET (lines 140-177): opens a checklist on the template and
        seeds one 'NSP' answer per template item. */
    method StartChecklist(actor: User, templateId: nat, today: int, now: int) returns (outcome: Outcome)
      requires Valid()
      modifies this
      ensures Valid()
      ensures templates == old(templates) && logs == old(logs)
      ensures outcome in {Done, NotFound}
      ensures outcome == NotFound <==> FirstWhere(templates, (t: Template) => t.id == templateId).None?
      ensures outcome == NotFound ==> checklists == old(checklists) && answers == old(answers)
      ensures outcome == Done ==>
        var items := FirstWhere(templates, (t: Template) => t.id == templateId).value.items;
        checklists == old(checklists) + [NewChecklist(old(nextId), templateId, actor, today, now)]
        && |answers| == |old(answers)| + |items| && answers[..|old(answers)|] == old(answers)
        && nextId == old(nextId) + 1 + |items|
        && forall k :: 0 <= k < |items| ==>
             answers[|old(answers)| + k].id == old(nextId) + 1 + k
             && answers[|old(answers)| + k].checklistId == old(nextId)
             && answers[|old(answers)| + k].itemTemplateId == items[k].id
             && answers[|old(answers)| + k].answer == NOT_APPLICABLE
             && answers[|old(answers)| + k].comment == Some("")
    {
      var template := FirstWhere(templates, (t: Template) => t.id == templateId);
      if template.None? {
        return NotFound;
      }
      var checklistId := nextId;
      checklists := checklists + [NewChecklist(checklistId, templateId, actor, today, now)];
      var seeded := SeedAnswers(checklistId, nextId + 1, template.value.items);
      answers := answers + seeded;
      nextId := nextId + 1 + |seeded|;
      return Done;
    }

    /** `editar_checklist` POST (lines 179-215). Nothing guards this handler: a missing
        required field, an unreadable date, or a signature without a comma or that does not
        decode fails the whole request and nothing is saved. */
    method EditChecklist(checklistId: nat, form: EditForm, answerForm: map<nat, string>, commentForm: map<nat, string>,
                         signature: Option<string>, signatureName: Option<string>, now: int,
                         b64: string -> Option<Bytes>)
      returns (outcome: Outcome)
      requires Valid()
      modifies this
      ensures Valid()
      ensures templates == old(templates) && logs == old(logs) && nextId == old(nextId)
      ensures outcome in {Done, NotFound, Failed}
      ensures outcome != Done ==> checklists == old(checklists) && answers == old(answers)
      ensures outcome == NotFound <==> IndexWhere(old(checklists), (c: Checklist) => c.id == checklistId).None?
      ensures outcome == Failed <==>
        IndexWhere(old(checklists), (c: Checklist) => c.id == checklistId).Some?
        && (!FormComplete(form) || (Truthy(signature) && DecodeDataUrlUnrepaired(signature.value, b64).None?))
      ensures outcome == Done ==>
        IndexWhere(old(checklists), (c: Checklist) => c.id == checklistId).Some? && FormComplete(form)
        && var k := IndexWhere(old(checklists), (c: Checklist) => c.id == checklistId).value;
        var decoded := if Truthy(signature) then DecodeDataUrlUnrepaired(signature.value, b64) else None;
        checklists == old(checklists)[k := Edited(old(checklists)[k], form, decoded, signatureName, now)]
      ensures outcome == Done ==>
        |answers| == |old(answers)|
        && (forall j :: 0 <= j < |answers| && old(answers)[j].checklistId == checklistId ==>
              answers[j] == Resubmitted(old(answers)[j], answerForm, commentForm))
        && (forall j :: 0 <= j < |answers| && old(answers)[j].checklistId != checklistId ==> answers[j] == old(answers)[j])
    {
      var found := IndexWhere(checklists, (c: Checklist) => c.id == checklistId);
      if found.None? {
        return NotFound;
      }
      if !FormComplete(form) {
        return Failed;
      }
      var k := found.value;
      var updated := ResubmitAnswers(answers, checklistId, answerForm, commentForm);
      var decoded := None;
      if Truthy(signature) {
        decoded := DecodeDataUrlUnrepaired(signature.value, b64);
        if decoded.None? {
          return Failed;
        }
      }
      checklists := checklists[k := Edited(checklists[k], form, decoded, signatureName, now)];
      answers := updated;
      return Done;
    }

    /** `validar_checklist` POST (lines 217-270): a validator not yet on record, holding an
        approval role, signs; one 'Aprovado' log is appended and the status names the role. */
    method Validate(actor: User, checklistId: nat, signature: Option<string>, comment: Option<string>, now: int,
                    b64: string -> Option<Bytes>)
      returns (outcome: Outcome)
      requires Valid()
      modifies this
      ensures Valid()
      ensures templates == old(templates) && answers == old(answers) && nextId == old(nextId)
      ensures outcome != Done ==> checklists == old(checklists) && logs == old(logs)
      ensures IndexWhere(old(checklists), (c: Checklist) => c.id == checklistId).None? ==> outcome == NotFound
      ensures IndexWhere(old(checklists), (c: Checklist) => c.id == checklistId).Some? ==>
        var k := IndexWhere(old(checklists), (c: Checklist) => c.id == checklistId).value;
        var gate := ValidationGate(old(logs), checklistId, actor, signature);
        (gate.Some? ==> outcome == gate.value)
        && (gate.None? && DecodeDataUrlUnrepaired(signature.value, b64).None? ==> outcome == Failed)
        && (gate.None? && DecodeDataUrlUnrepaired(signature.value, b64).Some? ==>
              outcome == Done
              && logs == old(logs) + [ValidationLog(checklistId, actor.id, APPROVED, comment, now,
                                                    DecodeDataUrlUnrepaired(signature.value, b64).value, actor.username)]
              && checklists == old(checklists)[k := old(checklists)[k].(status := "Aprovado por " + actor.role)])
    {
      var found := IndexWhere(checklists, (c: Checklist) => c.id == checklistId);
      if found.None? {
        return NotFound;
      }
      var k := found.value;
      var gate := ValidationGate(logs, checklistId, actor, signature);
      if gate.Some? {
        return gate.value;
      }
      var decoded := DecodeDataUrlUnrepaired(signature.value, b64);
      if decoded.None? {
        return Failed;
      }
      var log := ValidationLog(checklistId, actor.id, APPROVED, comment, now, decoded.value, actor.username);
      AppendNewPairKeepsOneLog(logs, log);
      logs := logs + [log];
      checklists := checklists[k := checklists[k].(status := "Aprovado por " + actor.role)];
      return Done;
    }

    /** `toggle_modelo` (lines 507-519): an administrator flips one template's active flag. */
    method ToggleTemplate(actor: User, templateId: nat) returns (outcome: Outcome)
      requires Valid()
      modifies this
      ensures Valid()
      ensures checklists == old(checklists) && answers == old(answers) && logs == old(logs) && nextId == old(nextId)
      ensures outcome in {Done, Denied, NotFound}
      ensures actor.role != ADMIN_ROLE ==> outcome == Denied
      ensures outcome != Done ==> templates == old(templates)
      ensures outcome == Done ==>
        IndexWhere(old(templates), (t: Template) => t.id == templateId).Some?
        && var k := IndexWhere(old(templates), (t: Template) => t.id == templateId).value;
        templates == old(templates)[k := Toggled(old(templates)[k])]
      ensures actor.role == ADMIN_ROLE && IndexWhere(old(templates), (t: Template) => t.id == templateId).None? ==> outcome == NotFound
      ensures actor.role == ADMIN_ROLE && IndexWhere(old(templates), (t: Template) => t.id == templateId).Some? ==> outcome == Done
    {
      if actor.role != ADMIN_ROLE {
        return Denied;
      }
      var found := IndexWhere(templates, (t: Template) => t.id == templateId);
      if found.None? {
        return NotFound;
      }
      templates := templates[found.value := Toggled(templates[found.value])];
      return Done;
    }
  }
}
