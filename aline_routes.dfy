/** The AlineLSL training application: onboarding an employee generates a 30-day and
    4-week schedule of checklist instances; instances are started, filled (answers are
    upserted, three signatures decoded) and finally validated by a coordinator.
    Dates are day numbers; the checklist number (a UUID in the application) is drawn
    from a counter, so it is fresh by construction. */
module AlineRoutes {
  import opened Common
  import opened SignatureDataUrl

  const ADMIN_ROLE := "Administrador"
  const COORDINATION_ROLE := "Coordenação"
  const IN_PROGRESS := "Em Andamento"
  const COMPLETED := "Concluído"
  const APPROVED := "Aprovado"
  const REJECTED := "Reprovado"
  const NOT_APPLICABLE := "NSP"
  const DAILY_TYPE := "diario"
  const WEEKLY_TYPE := "semanal"
  const TRAINING_DAYS := 30
  const TRAINING_WEEKS := 4

  datatype User = User(id: nat, username: string, role: string)

  datatype ItemTemplate = ItemTemplate(id: nat, questionText: string)

  datatype Template = Template(id: nat, name: string, checklistType: string, isActive: bool, items: seq<ItemTemplate>)

  datatype Employee = Employee(id: nat, name: string, position: string, matricula: string, sectorId: nat, startDate: int)

  /** The people an instance belongs to. */
  datatype Assignment = Assignment(employeeId: nat, leaderId: nat, evaluatorId: nat)

  datatype Instance = Instance(
    id: nat, checklistNumber: nat, templateId: nat, who: Assignment,
    fillDate: int, dayNumber: Option<nat>, weekNumber: Option<nat>, status: Option<string>,
    leaderSignature: Option<Bytes>, evaluatorSignature: Option<Bytes>, employeeSignature: Option<Bytes>,
    coordinatorComment: Option<string>, coordinatorSignature: Option<Bytes>)

  datatype Answer = Answer(instanceId: nat, itemId: nat, answer: Option<string>, comment: Option<string>)

  /** The fields typed into the onboarding form; `None` is a field the form did not send. */
  datatype EmployeeForm = EmployeeForm(name: Option<string>, position: Option<string>, matricula: Option<string>,
                                       sectorId: Option<nat>)

  /** `ScheduleFailed`: the employee was committed but the schedule's commit failed. */
  datatype Outcome = Done | Denied | NotFound | MissingTemplates | ScheduleFailed | AlreadyValidated
                   | SignatureRequired | Failed

  /** The employee row commits: every NOT NULL column is given and the matricula is not taken. */
  predicate EmployeeRowOk(employees: seq<Employee>, form: EmployeeForm)
  {
    && form.name.Some? && form.position.Some? && form.matricula.Some? && form.sectorId.Some?
    && forall k :: 0 <= k < |employees| ==> employees[k].matricula != form.matricula.value
  }

  /** The row an accepted form inserts. */
  function EmployeeOf(id: nat, form: EmployeeForm, startDate: int): Employee
    requires form.name.Some? && form.position.Some? && form.matricula.Some? && form.sectorId.Some?
  {
    Employee(id, form.name.value, form.position.value, form.matricula.value, form.sectorId.value, startDate)
  }

  /** A freshly scheduled or started instance: in progress, nothing signed. */
  function NewInstance(id: nat, number: nat, templateId: nat, who: Assignment, fillDate: int,
                       day: Option<nat>, week: Option<nat>): Instance
  {
    Instance(id, number, templateId, who, fillDate, day, week, Some(IN_PROGRESS), None, None, None, None, None)
  }

  /** Day k+1 of the training (k from 0): dated start+k, in week k div 7 + 1. */
  function DailyPlan(templateId: nat, who: Assignment, start: int, firstId: nat, firstNumber: nat): (r: seq<Instance>)
  {
    seq(TRAINING_DAYS, k requires 0 <= k < TRAINING_DAYS =>
      NewInstance(firstId + k, firstNumber + k, templateId, who, start + k, Some(k + 1), Some(k / 7 + 1)))
  }

  /** Week k+1 of the training (k from 0): dated start+7k, with no day number. */
  function WeeklyPlan(templateId: nat, who: Assignment, start: int, firstId: nat, firstNumber: nat): (r: seq<Instance>)
  {
    seq(TRAINING_WEEKS, k requires 0 <= k < TRAINING_WEEKS =>
      NewInstance(firstId + k, firstNumber + k, templateId, who, start + 7 * k, None, Some(k + 1)))
  }

  /** Every scheduled instance belongs to the employee, leader and evaluator given,
      uses the template given and is still in progress. */
  ghost predicate ScheduledFor(s: seq<Instance>, templateId: nat, who: Assignment)
  {
    forall k :: 0 <= k < |s| ==>
      s[k].templateId == templateId && s[k].who == who && s[k].status == Some(IN_PROGRESS)
      && s[k].leaderSignature.None? && s[k].evaluatorSignature.None? && s[k].employeeSignature.None?
      && s[k].coordinatorSignature.None?
  }

  /** The shape of the daily plan: thirty instances, day numbers 1..30 on consecutive
      dates, week numbers between 1 and 5 that never decrease. */
  lemma DailyPlanShape(templateId: nat, who: Assignment, start: int, firstId: nat, firstNumber: nat)
    ensures var d := DailyPlan(templateId, who, start, firstId, firstNumber);
      |d| == 30 && ScheduledFor(d, templateId, who)
      && (forall k :: 0 <= k < |d| ==> d[k].dayNumber == Some(k + 1) && d[k].fillDate == start + k)
      && (forall k :: 0 <= k < |d| ==> d[k].weekNumber.Some? && 1 <= d[k].weekNumber.value <= 5)
      && (forall j, k :: 0 <= j <= k < |d| ==> d[j].weekNumber.value <= d[k].weekNumber.value)
  {
  }

  /** The shape of the weekly plan: four instances, weeks 1..4, seven days apart, no day number. */
  lemma WeeklyPlanShape(templateId: nat, who: Assignment, start: int, firstId: nat, firstNumber: nat)
    ensures var w := WeeklyPlan(templateId, who, start, firstId, firstNumber);
      |w| == 4 && ScheduledFor(w, templateId, who)
      && (forall k :: 0 <= k < |w| ==> w[k].weekNumber == Some(k + 1) && w[k].dayNumber.None?)
      && (forall k :: 0 <= k && k + 1 < |w| ==> w[k + 1].fillDate == w[k].fillDate + 7)
  {
  }

  /** Lines 199-212: the daily loop `for i in range(1, 31)`. */
  method BuildDailySchedule(templateId: nat, who: Assignment, start: int, firstId: nat, firstNumber: nat)
    returns (daily: seq<Instance>)
    ensures daily == DailyPlan(templateId, who, start, firstId, firstNumber)
  {
    daily := [];
    var i := 1;
    while i <= TRAINING_DAYS
      invariant 1 <= i <= TRAINING_DAYS + 1
      invariant |daily| == i - 1
      invariant forall k :: 0 <= k < i - 1 ==>
        daily[k] == NewInstance(firstId + k, firstNumber + k, templateId, who, start + k, Some(k + 1), Some(k / 7 + 1))
    {
      var fillDate := start + (i - 1);
      daily := daily + [NewInstance(firstId + i - 1, firstNumber + i - 1, templateId, who, fillDate, Some(i), Some((i - 1) / 7 + 1))];
      i := i + 1;
    }
  }

  /** Lines 214-227: the weekly loop `for i in range(1, 5)`. */
  method BuildWeeklySchedule(templateId: nat, who: Assignment, start: int, firstId: nat, firstNumber: nat)
    returns (weekly: seq<Instance>)
    ensures weekly == WeeklyPlan(templateId, who, start, firstId, firstNumber)
  {
    weekly := [];
    var i := 1;
    while i <= TRAINING_WEEKS
      invariant 1 <= i <= TRAINING_WEEKS + 1
      invariant |weekly| == i - 1
      invariant forall k :: 0 <= k < i - 1 ==>
        weekly[k] == NewInstance(firstId + k, firstNumber + k, templateId, who, start + 7 * k, None, Some(k + 1))
    {
      var fillDate := start + 7 * (i - 1);
      weekly := weekly + [NewInstance(firstId + i - 1, firstNumber + i - 1, templateId, who, fillDate, None, Some(i))];
      i := i + 1;
    }
  }

  /** Lines 290-298: one 'NSP' answer with an empty comment per template item, in item order. */
  method SeedAnswers(instanceId: nat, items: seq<ItemTemplate>) returns (rows: seq<Answer>)
    ensures |rows| == |items|
    ensures forall k :: 0 <= k < |rows| ==>
      rows[k] == Answer(instanceId, items[k].id, Some(NOT_APPLICABLE), Some(""))
  {
    rows := [];
    for k := 0 to |items|
      invariant |rows| == k
      invariant forall j :: 0 <= j < k ==> rows[j] == Answer(instanceId, items[j].id, Some(NOT_APPLICABLE), Some(""))
    {
      rows := rows + [Answer(instanceId, items[k].id, Some(NOT_APPLICABLE), Some(""))];
    }
  }

  /** The answer row of an (instance, item) pair: `.filter_by(instance_id=…, item_id=…).first()`. */
  function AnswerFor(rows: seq<Answer>, instanceId: nat, itemId: nat): (r: Option<nat>)
    ensures r.Some? ==> r.value < |rows| && rows[r.value].instanceId == instanceId && rows[r.value].itemId == itemId
    ensures r.None? ==> forall k :: 0 <= k < |rows| ==> !(rows[k].instanceId == instanceId && rows[k].itemId == itemId)
  {
    IndexWhere(rows, (a: Answer) => a.instanceId == instanceId && a.itemId == itemId)
  }

  /** Lines 333-346: update the existing row of the pair, or add one. */
  function Upsert(rows: seq<Answer>, instanceId: nat, itemId: nat, answer: Option<string>, comment: Option<string>): (r: seq<Answer>)
    ensures |rows| <= |r| <= |rows| + 1
    ensures AnswerFor(r, instanceId, itemId).Some?
    ensures var k := AnswerFor(r, instanceId, itemId).value; r[k].answer == answer && r[k].comment == comment
    ensures forall i, t :: (i != instanceId || t != itemId) ==> AnswerFor(r, i, t) == AnswerFor(rows, i, t)
    ensures forall k :: 0 <= k < |rows| && rows[k].instanceId != instanceId ==> r[k] == rows[k]
    ensures forall k :: |rows| <= k < |r| ==> r[k].instanceId == instanceId
  {
    match AnswerFor(rows, instanceId, itemId)
    case Some(k) =>
      var r := rows[k := rows[k].(answer := answer, comment := comment)];
      forall i, t ensures AnswerFor(r, i, t) == AnswerFor(rows, i, t) || (i == instanceId && t == itemId) {
        IndexWhereSamePattern(r, rows, (a: Answer) => a.instanceId == i && a.itemId == t);
      }
      IndexWhereSamePattern(r, rows, (a: Answer) => a.instanceId == instanceId && a.itemId == itemId);
      r
    case None =>
      var x := Answer(instanceId, itemId, answer, comment);
      var r := rows + [x];
      forall i, t | i != instanceId || t != itemId ensures AnswerFor(r, i, t) == AnswerFor(rows, i, t) {
        IndexWhereAppendOther(rows, x, (a: Answer) => a.instanceId == i && a.itemId == t);
      }
      assert r[|rows|] == x;
      r
  }

  /** The answers table after the fill loop over `items` (lines 327-346). */
  function UpsertAll(rows: seq<Answer>, instanceId: nat, items: seq<ItemTemplate>,
                     answerForm: map<nat, string>, commentForm: map<nat, string>): (r: seq<Answer>)
    ensures |rows| <= |r| <= |rows| + |items|
    ensures forall k :: 0 <= k < |rows| && rows[k].instanceId != instanceId ==> r[k] == rows[k]
    ensures forall k :: |rows| <= k < |r| ==> r[k].instanceId == instanceId
  {
    if items == [] then rows
    else
      var item := items[|items| - 1];
      Upsert(UpsertAll(rows, instanceId, items[..|items| - 1], answerForm, commentForm),
             instanceId, item.id, FormGet(answerForm, item.id), FormGet(commentForm, item.id))
  }
  /** One more item of the form is one more upsert. */
  lemma UpsertAllStep(rows: seq<Answer>, instanceId: nat, items: seq<ItemTemplate>, i: nat,
                      answerForm: map<nat, string>, commentForm: map<nat, string>)
    requires i < |items|
    ensures UpsertAll(rows, instanceId, items[..i + 1], answerForm, commentForm)
         == Upsert(UpsertAll(rows, instanceId, items[..i], answerForm, commentForm), instanceId, items[i].id,
                   FormGet(answerForm, items[i].id), FormGet(commentForm, items[i].id))
  {
    assert items[..i + 1][..i] == items[..i];
  }


  /** After a fill every template item has exactly the submitted answer and comment
      for the instance, whether its row existed before or was created. */
  lemma {:induction false} UpsertAllCovers(rows: seq<Answer>, instanceId: nat, items: seq<ItemTemplate>,
                                          answerForm: map<nat, string>, commentForm: map<nat, string>, item: ItemTemplate)
    requires item in items
    ensures var r := UpsertAll(rows, instanceId, items, answerForm, commentForm);
      AnswerFor(r, instanceId, item.id).Some?
      && r[AnswerFor(r, instanceId, item.id).value].answer == FormGet(answerForm, item.id)
      && r[AnswerFor(r, instanceId, item.id).value].comment == FormGet(commentForm, item.id)
  {
    var last := items[|items| - 1];
    var prev := UpsertAll(rows, instanceId, items[..|items| - 1], answerForm, commentForm);
    var r := Upsert(prev, instanceId, last.id, FormGet(answerForm, last.id), FormGet(commentForm, last.id));
    assert r == UpsertAll(rows, instanceId, items, answerForm, commentForm);
    if item.id != last.id {
      assert item in items[..|items| - 1] by {
        var j :| 0 <= j < |items| && items[j] == item;
        assert j != |items| - 1;
        assert items[..|items| - 1][j] == item;
      }
      UpsertAllCovers(rows, instanceId, items[..|items| - 1], answerForm, commentForm, item);
      assert AnswerFor(r, instanceId, item.id) == AnswerFor(prev, instanceId, item.id);
    }
  }

  /** The signature column value stored by a fill (lines 348-388): none when the field is
      absent, lacks 'data:image', has no comma or does not decode; never an abort. */
  function FilledSignature(field: Option<string>, b64: string -> Option<Bytes>): (r: Option<Bytes>)
    ensures r.Some? ==> Truthy(field) && HasSubstring(field.value, DATA_IMAGE_TAG) && ',' in field.value
    ensures r.Some? ==> exists h, e :: ',' !in h && field.value == h + [','] + e && b64(RepairPadding(e)) == r
  {
    if Truthy(field) && HasSubstring(field.value, DATA_IMAGE_TAG) then DecodeDataUrl(field.value, b64) else None
  }

  /** A decoder that accepts only canonical base64, as Python's decoder does for payloads
      whose length is 1 more than a multiple of four. */
  ghost predicate StrictDecoder(b64: string -> Option<Bytes>)
  {
    forall s :: b64(s).Some? ==> CanonicalBase64(s)
  }

  /** A payload of alphabet characters whose length is 1 more than a multiple of four
      cannot be repaired, so a strict decoder refuses it and the fill stores none. Python's
      `b64decode` also drops characters outside the alphabet unless `validate=True`; the
      payload here holds only alphabet characters, so that leniency is abstracted away and
      the conclusion is unaffected. */
  lemma UnrepairablePayloadStoredAsNone(header: string, payload: string, b64: string -> Option<Bytes>)
    requires StrictDecoder(b64)
    requires ',' !in header && AllAlphabet(payload) && |payload| % 4 == 1
    ensures FilledSignature(Some(header + [','] + payload), b64).None?
    ensures DecodeDataUrl(header + [','] + payload, b64).None?
  {
    SplitHeaderRoundTrip(header, payload);
    RepairCanonicalExactly(payload);
  }

  /** The instance after a fill: three signature columns rewritten, status 'Concluído'. */
  function Filled(inst: Instance, leader: Option<string>, evaluator: Option<string>, employee: Option<string>,
                  b64: string -> Option<Bytes>): (r: Instance)
    ensures r.status == Some(COMPLETED)
    ensures r.id == inst.id && r.checklistNumber == inst.checklistNumber && r.who == inst.who
    ensures r.coordinatorSignature == inst.coordinatorSignature && r.coordinatorComment == inst.coordinatorComment
    ensures !Truthy(leader) ==> r.leaderSignature.None?
    ensures !Truthy(evaluator) ==> r.evaluatorSignature.None?
    ensures !Truthy(employee) ==> r.employeeSignature.None?
  {
    inst.(leaderSignature := FilledSignature(leader, b64),
          evaluatorSignature := FilledSignature(evaluator, b64),
          employeeSignature := FilledSignature(employee, b64),
          status := Some(COMPLETED))
  }

  /** The checks of lines 421-449 before any decoding: why a validation is refused, if it is. */
  function ValidationGate(inst: Instance, actor: User, signature: Option<string>): (r: Option<Outcome>)
    ensures inst.status == Some(APPROVED) || inst.status == Some(REJECTED) ==> r == Some(AlreadyValidated)
    ensures r.None? <==> inst.status != Some(APPROVED) && inst.status != Some(REJECTED)
                         && (actor.role == COORDINATION_ROLE || actor.role == ADMIN_ROLE)
                         && Truthy(signature) && HasSubstring(signature.value, DATA_IMAGE_TAG)
    ensures r.Some? ==> r.value in {AlreadyValidated, Denied, SignatureRequired}
  {
    if inst.status == Some(APPROVED) || inst.status == Some(REJECTED) then Some(AlreadyValidated)
    else if actor.role != COORDINATION_ROLE && actor.role != ADMIN_ROLE then Some(Denied)
    else if !Truthy(signature) || !HasSubstring(signature.value, DATA_IMAGE_TAG) then Some(SignatureRequired)
    else None
  }

  /** While an instance is approved or rejected, no validation gets through the gate. */
  lemma ValidatedInstanceIsFinal(inst: Instance, actor: User, signature: Option<string>, comment: Option<string>,
                                 sig: Bytes, statusFinal: string)
    requires statusFinal == APPROVED || statusFinal == REJECTED
    ensures ValidationGate(inst.(status := Some(statusFinal), coordinatorComment := comment,
                                 coordinatorSignature := Some(sig)), actor, signature) == Some(AlreadyValidated)
  {
  }

  /** The fill (lines 309-391) does not look at the status and sets 'Concluído' (line 390), so
      filling an approved or rejected instance again reopens it: a coordinator's validation that
      the gate refused before the fill passes it afterwards. */
  lemma FillReopensValidation(inst: Instance, leader: Option<string>, evaluator: Option<string>,
                              employee: Option<string>, b64: string -> Option<Bytes>, actor: User,
                              signature: Option<string>)
    requires inst.status == Some(APPROVED) || inst.status == Some(REJECTED)
    requires actor.role == COORDINATION_ROLE || actor.role == ADMIN_ROLE
    requires Truthy(signature) && HasSubstring(signature.value, DATA_IMAGE_TAG)
    ensures ValidationGate(inst, actor, signature) == Some(AlreadyValidated)
    ensures ValidationGate(Filled(inst, leader, evaluator, employee, b64), actor, signature).None?
  {
  }

  ghost predicate IdsBelow(s: seq<Instance>, bound: nat)
  {
    forall k :: 0 <= k < |s| ==> s[k].id < bound
  }

  ghost predicate NumbersBelow(s: seq<Instance>, bound: nat)
  {
    forall k :: 0 <= k < |s| ==> s[k].checklistNumber < bound
  }

  /** Ids and checklist numbers strictly increase along the table (so both are unique). */
  ghost predicate Increasing(s: seq<Instance>)
  {
    forall j, k :: 0 <= j < k < |s| ==> s[j].id < s[k].id && s[j].checklistNumber < s[k].checklistNumber
  }

  /** Appending a batch drawn from fresh counter values keeps ids and numbers increasing. */
  lemma AppendFresh(s: seq<Instance>, t: seq<Instance>, id: nat, number: nat)
    requires Increasing(s) && Increasing(t) && IdsBelow(s, id) && NumbersBelow(s, number)
    requires forall k :: 0 <= k < |t| ==> t[k].id >= id && t[k].checklistNumber >= number
    ensures Increasing(s + t)
  {
    forall j, k | 0 <= j < k < |s + t|
      ensures (s + t)[j].id < (s + t)[k].id && (s + t)[j].checklistNumber < (s + t)[k].checklistNumber
    {
      if k < |s| {
      } else if j < |s| {
        assert (s + t)[k] == t[k - |s|];
      } else {
        assert (s + t)[j] == t[j - |s|] && (s + t)[k] == t[k - |s|];
      }
    }
  }

  /** Rewriting one instance without touching its id or number keeps the table increasing. */
  lemma UpdateKeepsIncreasing(s: seq<Instance>, k: nat, x: Instance, idBound: nat, numberBound: nat)
    requires Increasing(s) && IdsBelow(s, idBound) && NumbersBelow(s, numberBound)
    requires k < |s| && x.id == s[k].id && x.checklistNumber == s[k].checklistNumber
    ensures Increasing(s[k := x]) && IdsBelow(s[k := x], idBound) && NumbersBelow(s[k := x], numberBound)
  {
  }

  /** The whole schedule draws increasing ids and numbers from the counters it starts at. */
  lemma PlansFresh(dailyTemplate: nat, weeklyTemplate: nat, who: Assignment, start: int, id: nat, number: nat)
    ensures var b := DailyPlan(dailyTemplate, who, start, id, number)
                     + WeeklyPlan(weeklyTemplate, who, start, id + TRAINING_DAYS, number + TRAINING_DAYS);
      Increasing(b) && |b| == TRAINING_DAYS + TRAINING_WEEKS
      && forall k :: 0 <= k < |b| ==> b[k].id == id + k && b[k].checklistNumber == number + k
  {
    var d := DailyPlan(dailyTemplate, who, start, id, number);
    var w := WeeklyPlan(weeklyTemplate, who, start, id + TRAINING_DAYS, number + TRAINING_DAYS);
    var b := d + w;
    forall k | 0 <= k < |b| ensures b[k].id == id + k && b[k].checklistNumber == number + k {
      if k < |d| { assert b[k] == d[k]; } else { assert b[k] == w[k - |d|]; }
    }
  }

  /** The tables of the application that these routes touch. */
  class Store {
    var templates: seq<Template>
    var employees: seq<Employee>
    var instances: seq<Instance>
    var answers: seq<Answer>
    var nextId: nat
    var nextNumber: nat

    /** Every checklist number is fresh: instances have increasing ids and numbers below the counters. */
    ghost predicate Valid()
      reads this
    {
      Increasing(instances) && IdsBelow(instances, nextId) && NumbersBelow(instances, nextNumber)
    }

    constructor ()
      ensures Valid()
      ensures templates == [] && employees == [] && instances == [] && answers == []
    {
      templates, employees, instances, answers := [], [], [], [];
      nextId, nextNumber := 0, 0;
    }

    /** `cadastrar_colaborador` (lines 163-241). An absent start date makes `strptime` raise; an
        absent name, position, matricula or sector, or a taken matricula, makes the first commit
        (line 190) fail. That commit comes before the templates are looked up, so the employee
        stays when no schedule can be made; an absent leader or evaluator then makes the second
        commit (line 229) fail, and only the schedule is rolled back. */
    method RegisterEmployee(actor: User, form: EmployeeForm, leaderId: Option<nat>, evaluatorId: Option<nat>,
                            startDate: Option<int>)
      returns (outcome: Outcome)
      requires Valid()
      modifies this
      ensures Valid()
      ensures templates == old(templates) && answers == old(answers)
      ensures outcome in {Done, Denied, Failed, MissingTemplates, ScheduleFailed}
      ensures outcome == Denied <==> actor.role != ADMIN_ROLE
      ensures outcome == Failed <==>
        actor.role == ADMIN_ROLE && (startDate.None? || !EmployeeRowOk(old(employees), form))
      ensures outcome in {Denied, Failed} ==> employees == old(employees) && instances == old(instances)
      ensures outcome in {Done, MissingTemplates, ScheduleFailed} ==>
        startDate.Some? && EmployeeRowOk(old(employees), form)
        && employees == old(employees) + [EmployeeOf(old(nextId), form, startDate.value)]
      ensures outcome in {MissingTemplates, ScheduleFailed} ==> instances == old(instances)
      ensures outcome == MissingTemplates <==>
        actor.role == ADMIN_ROLE && startDate.Some? && EmployeeRowOk(old(employees), form)
        && (FirstWhere(templates, (t: Template) => t.checklistType == DAILY_TYPE).None?
            || FirstWhere(templates, (t: Template) => t.checklistType == WEEKLY_TYPE).None?)
      ensures outcome == ScheduleFailed <==>
        actor.role == ADMIN_ROLE && startDate.Some? && EmployeeRowOk(old(employees), form)
        && FirstWhere(templates, (t: Template) => t.checklistType == DAILY_TYPE).Some?
        && FirstWhere(templates, (t: Template) => t.checklistType == WEEKLY_TYPE).Some?
        && (leaderId.None? || evaluatorId.None?)
      ensures outcome == Done ==>
        leaderId.Some? && evaluatorId.Some?
        && var who := Assignment(old(nextId), leaderId.value, evaluatorId.value);
        var daily := FirstWhere(templates, (t: Template) => t.checklistType == DAILY_TYPE);
        var weekly := FirstWhere(templates, (t: Template) => t.checklistType == WEEKLY_TYPE);
        daily.Some? && weekly.Some?
        && instances == old(instances)
             + DailyPlan(daily.value.id, who, startDate.value, old(nextId) + 1, old(nextNumber))
             + WeeklyPlan(weekly.value.id, who, startDate.value, old(nextId) + 1 + TRAINING_DAYS, old(nextNumber) + TRAINING_DAYS)
    {
      if actor.role != ADMIN_ROLE {
        return Denied;
      }
      if startDate.None? || !EmployeeRowOk(employees, form) {
        return Failed;
      }
      var start := startDate.value;
      var employeeId := nextId;
      employees := employees + [EmployeeOf(employeeId, form, start)];
      nextId := nextId + 1;

      var daily := FirstWhere(templates, (t: Template) => t.checklistType == DAILY_TYPE);
      var weekly := FirstWhere(templates, (t: Template) => t.checklistType == WEEKLY_TYPE);
      if daily.None? || weekly.None? {
        return MissingTemplates;
      }
      if leaderId.None? || evaluatorId.None? {
        return ScheduleFailed;
      }
      AddSchedule(daily.value.id, weekly.value.id, Assignment(employeeId, leaderId.value, evaluatorId.value), start);
      return Done;
    }

    /** Lines 199-229: the thirty daily and four weekly instances, added and committed together. */
    method AddSchedule(dailyTemplate: nat, weeklyTemplate: nat, who: Assignment, start: int)
      requires Valid()
      modifies this
      ensures Valid()
      ensures templates == old(templates) && employees == old(employees) && answers == old(answers)
      ensures instances == old(instances)
        + DailyPlan(dailyTemplate, who, start, old(nextId), old(nextNumber))
        + WeeklyPlan(weeklyTemplate, who, start, old(nextId) + TRAINING_DAYS, old(nextNumber) + TRAINING_DAYS)
      ensures nextId == old(nextId) + TRAINING_DAYS + TRAINING_WEEKS
      ensures nextNumber == old(nextNumber) + TRAINING_DAYS + TRAINING_WEEKS
    {
      var days := BuildDailySchedule(dailyTemplate, who, start, nextId, nextNumber);
      var weeks := BuildWeeklySchedule(weeklyTemplate, who, start, nextId + TRAINING_DAYS, nextNumber + TRAINING_DAYS);
      PlansFresh(dailyTemplate, weeklyTemplate, who, start, nextId, nextNumber);
      AppendFresh(instances, days + weeks, nextId, nextNumber);
      instances := instances + (days + weeks);
      nextId := nextId + TRAINING_DAYS + TRAINING_WEEKS;
      nextNumber := nextNumber + TRAINING_DAYS + TRAINING_WEEKS;
    }

    /** `iniciar_preenchimento` (lines 266-306): a new in-progress instance dated today,
        then one 'NSP' answer per template item. The leader and evaluator ids are read with
        `form.get` and their columns are NOT NULL, so an absent one makes the commit at line 288
        fail; the handler's `except` (lines 303-306) then rolls back and nothing is written. */
    method StartInstance(templateId: nat, employeeId: nat, leaderId: Option<nat>, evaluatorId: Option<nat>,
                         today: int)
      returns (outcome: Outcome)
      requires Valid()
      modifies this
      ensures Valid()
      ensures templates == old(templates) && employees == old(employees)
      ensures outcome in {Done, NotFound, Failed}
      ensures outcome == NotFound <==>
        FirstWhere(templates, (t: Template) => t.id == templateId).None?
        || FirstWhere(employees, (e: Employee) => e.id == employeeId).None?
      ensures outcome == Failed <==>
        FirstWhere(templates, (t: Template) => t.id == templateId).Some?
        && FirstWhere(employees, (e: Employee) => e.id == employeeId).Some?
        && (leaderId.None? || evaluatorId.None?)
      ensures outcome != Done ==>
        instances == old(instances) && answers == old(answers)
        && nextId == old(nextId) && nextNumber == old(nextNumber)
      ensures outcome == Done ==>
        var template := FirstWhere(templates, (t: Template) => t.id == templateId).value;
        leaderId.Some? && evaluatorId.Some?
        && instances == old(instances) + [NewInstance(old(nextId), old(nextNumber), templateId,
                                                      Assignment(employeeId, leaderId.value, evaluatorId.value),
                                                      today, None, None)]
        && |answers| == |old(answers)| + |template.items|
        && answers[..|old(answers)|] == old(answers)
        && forall k :: 0 <= k < |template.items| ==>
             answers[|old(answers)| + k] == Answer(old(nextId), template.items[k].id, Some(NOT_APPLICABLE), Some(""))
    {
      var template := FirstWhere(templates, (t: Template) => t.id == templateId);
      var employee := FirstWhere(employees, (e: Employee) => e.id == employeeId);
      if template.None? || employee.None? {
        return NotFound;
      }
      if leaderId.None? || evaluatorId.None? {
        return Failed;
      }
      var inst := NewInstance(nextId, nextNumber, templateId, Assignment(employeeId, leaderId.value, evaluatorId.value),
                              today, None, None);
      AppendFresh(instances, [inst], nextId, nextNumber);
      instances := instances + [inst];
      nextId := nextId + 1;
      nextNumber := nextNumber + 1;
      var seeded := SeedAnswers(inst.id, template.value.items);
      answers := answers + seeded;
      return Done;
    }

    /** `preencher_checklist` POST (lines 325-399): answers upserted for every item of the
        instance's template, the signature columns rewritten, status 'Concluído'. */
    method Fill(instanceId: nat, answerForm: map<nat, string>, commentForm: map<nat, string>,
                leader: Option<string>, evaluator: Option<string>, employee: Option<string>,
                b64: string -> Option<Bytes>)
      returns (outcome: Outcome)
      requires Valid()
      modifies this
      ensures Valid()
      ensures templates == old(templates) && employees == old(employees)
      ensures nextId == old(nextId) && nextNumber == old(nextNumber)
      ensures outcome in {Done, NotFound, Failed}
      ensures outcome != Done ==> instances == old(instances) && answers == old(answers)
      ensures outcome == Done ==>
        IndexWhere(old(instances), (i: Instance) => i.id == instanceId).Some?
        && var k := IndexWhere(old(instances), (i: Instance) => i.id == instanceId).value;
        var templateId := old(instances)[k].templateId;
        FirstWhere(templates, (t: Template) => t.id == templateId).Some?
        && var template := FirstWhere(templates, (t: Template) => t.id == templateId).value;
        instances == old(instances)[k := Filled(old(instances)[k], leader, evaluator, employee, b64)]
        && answers == UpsertAll(old(answers), instanceId, template.items, answerForm, commentForm)
      ensures outcome == NotFound <==> IndexWhere(old(instances), (i: Instance) => i.id == instanceId).None?
      ensures outcome == Failed <==>
        IndexWhere(old(instances), (i: Instance) => i.id == instanceId).Some?
        && var templateId := old(instances)[IndexWhere(old(instances), (i: Instance) => i.id == instanceId).value].templateId;
        FirstWhere(templates, (t: Template) => t.id == templateId).None?
    {
      var found := IndexWhere(instances, (i: Instance) => i.id == instanceId);
      if found.None? {
        return NotFound;
      }
      var k := found.value;
      var templateId := instances[k].templateId;
      var template := FirstWhere(templates, (t: Template) => t.id == templateId);
      if template.None? {
        // `checklist.template.items` on a dangling template raises inside the try: rollback.
        return Failed;
      }
      FillAnswers(instanceId, template.value.items, answerForm, commentForm);
      var filled := Filled(instances[k], leader, evaluator, employee, b64);
      UpdateKeepsIncreasing(instances, k, filled, nextId, nextNumber);
      instances := instances[k := filled];
      return Done;
    }

    /** Lines 327-346: the loop over the template items. */
    method FillAnswers(instanceId: nat, items: seq<ItemTemplate>, answerForm: map<nat, string>, commentForm: map<nat, string>)
      modifies this
      ensures answers == UpsertAll(old(answers), instanceId, items, answerForm, commentForm)
      ensures instances == old(instances) && templates == old(templates) && employees == old(employees)
      ensures nextId == old(nextId) && nextNumber == old(nextNumber)
    {
      ghost var start := answers;
      var i := 0;
      while i < |items|
        invariant 0 <= i <= |items|
        invariant answers == UpsertAll(start, instanceId, items[..i], answerForm, commentForm)
        invariant instances == old(instances) && templates == old(templates) && employees == old(employees)
        invariant nextId == old(nextId) && nextNumber == old(nextNumber)
      {
        var item := items[i];
        UpsertAllStep(start, instanceId, items, i, answerForm, commentForm);
        UpsertAnswer(instanceId, item.id, FormGet(answerForm, item.id), FormGet(commentForm, item.id));
        i := i + 1;
      }
      assert items[..i] == items;
    }

    /** Lines 333-346: the existing row of the pair is updated in place, or a new one is added. */
    method UpsertAnswer(instanceId: nat, itemId: nat, answer: Option<string>, comment: Option<string>)
      modifies this
      ensures answers == Upsert(old(answers), instanceId, itemId, answer, comment)
      ensures instances == old(instances) && templates == old(templates) && employees == old(employees)
      ensures nextId == old(nextId) && nextNumber == old(nextNumber)
    {
      var row := AnswerFor(answers, instanceId, itemId);
      if row.Some? {
        answers := answers[row.value := answers[row.value].(answer := answer, comment := comment)];
      } else {
        answers := answers + [Answer(instanceId, itemId, answer, comment)];
      }
    }

    /** `validar_checklist` POST (lines 415-468): a coordinator or administrator signs off
        an instance that is not yet approved or rejected. Any failure rolls back. */
    method Validate(actor: User, instanceId: nat, statusFinal: Option<string>, comment: Option<string>,
                    signature: Option<string>, b64: string -> Option<Bytes>)
      returns (outcome: Outcome)
      requires Valid()
      modifies this
      ensures Valid()
      ensures templates == old(templates) && employees == old(employees) && answers == old(answers)
      ensures nextId == old(nextId) && nextNumber == old(nextNumber)
      ensures outcome != Done ==> instances == old(instances)
      ensures IndexWhere(old(instances), (i: Instance) => i.id == instanceId).None? ==> outcome == NotFound
      ensures IndexWhere(old(instances), (i: Instance) => i.id == instanceId).Some? ==>
        var k := IndexWhere(old(instances), (i: Instance) => i.id == instanceId).value;
        var gate := ValidationGate(old(instances)[k], actor, signature);
        (gate.Some? ==> outcome == gate.value)
        && (gate.None? && DecodeDataUrl(signature.value, b64).None? ==> outcome == Failed)
        && (gate.None? && DecodeDataUrl(signature.value, b64).Some? ==>
              outcome == Done
              && instances == old(instances)[k := old(instances)[k].(
                   coordinatorSignature := DecodeDataUrl(signature.value, b64),
                   coordinatorComment := comment, status := statusFinal)])
    {
      var found := IndexWhere(instances, (i: Instance) => i.id == instanceId);
      if found.None? {
        return NotFound;
      }
      var k := found.value;
      var gate := ValidationGate(instances[k], actor, signature);
      if gate.Some? {
        return gate.value;
      }
      var decoded := DecodeDataUrl(signature.value, b64);
      if decoded.None? {
        return Failed;
      }
      instances := instances[k := instances[k].(coordinatorSignature := decoded,
                                                coordinatorComment := comment, status := statusFinal)];
      return Done;
    }
  }
}
