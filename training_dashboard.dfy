/** The `main` blueprint of the training application: the dashboard's counters and alert
    lists, and the collaborator listings, each filtered by the viewer's perfil. */
module TrainingDashboard {
  import opened Common
  import opened TrainingModels

  /** Planned training days per collaborator in training. */
  const PLANNED_DAYS := 30

  /** The distinct values `f` takes over `s` (Python's `set([f(x) for x in s])`). */
  function Image<T>(s: seq<T>, f: T -> nat): set<nat>
  {
    set i | 0 <= i < |s| :: f(s[i])
  }

  /** The image holds `f` of every element and nothing else. */
  lemma ImageMembers<T>(s: seq<T>, f: T -> nat)
    ensures forall x :: x in s ==> f(x) in Image(s, f)
    ensures forall y :: y in Image(s, f) <==> exists x :: x in s && f(x) == y
  {
    forall x | x in s
      ensures f(x) in Image(s, f)
    {
      var i :| 0 <= i < |s| && s[i] == x;
    }
  }

  /** A set built from a list has no more elements than the list. */
  lemma {:induction false} ImageBound<T>(s: seq<T>, f: T -> nat)
    ensures |Image(s, f)| <= |s|
  {
    if s != [] {
      var init, last := s[..|s| - 1], s[|s| - 1];
      ImageBound(init, f);
      assert Image(s, f) == Image(init, f) + {f(last)} by {
        forall y | y in Image(s, f)
          ensures y in Image(init, f) + {f(last)}
        {
          var i :| 0 <= i < |s| && f(s[i]) == y;
          if i < |s| - 1 {
            assert init[i] == s[i];
          }
        }
        forall y | y in Image(init, f)
          ensures y in Image(s, f)
        {
          var i :| 0 <= i < |init| && f(init[i]) == y;
          assert s[i] == init[i];
        }
        assert f(s[|s| - 1]) in Image(s, f);
      }
    }
  }

  /** Collaborators whose status is 'em_treinamento' (lines 18 and 59). */
  function InTraining(colaboradores: seq<Colaborador>): (r: seq<Colaborador>)
    ensures forall c :: c in r <==> c in colaboradores && c.status == IN_TRAINING
  {
    Filter(colaboradores, (c: Colaborador) => c.status == IN_TRAINING)
  }

  /** A sheet joined to its template (`.join(ChecklistModelo)`) whose tipo is `tipo`. */
  predicate JoinsTipo(modelos: seq<ChecklistModelo>, x: ChecklistRespostas, tipo: string)
  {
    exists m :: m in modelos && m.id == x.modeloId && m.tipo == tipo
  }

  /** The 'semanal' sheets marked 'Reprovado' (lines 20-23). */
  function FailedWeekly(modelos: seq<ChecklistModelo>, respostas: seq<ChecklistRespostas>): (r: seq<ChecklistRespostas>)
    ensures forall x :: x in r <==>
      x in respostas && JoinsTipo(modelos, x, WEEKLY) && x.situacao == Some(REJECTED)
  {
    Filter(respostas, (x: ChecklistRespostas) => JoinsTipo(modelos, x, WEEKLY) && x.situacao == Some(REJECTED))
  }

  /** The collaborators at risk (line 26): those with at least one failed weekly sheet. */
  function AtRisk(modelos: seq<ChecklistModelo>, respostas: seq<ChecklistRespostas>): (r: set<nat>)
    ensures forall id :: id in r <==> exists x :: x in FailedWeekly(modelos, respostas) && x.colaboradorId == id
  {
    var failed := FailedWeekly(modelos, respostas);
    ImageMembers(failed, (x: ChecklistRespostas) => x.colaboradorId);
    Image(failed, (x: ChecklistRespostas) => x.colaboradorId)
  }

  /** The planned number of training days (line 32): 30 per collaborator in training, and 1
      when there is none, so that the completion percentage never divides by zero. */
  function TotalDiasPrevistos(emTreinamento: nat): (r: nat)
    ensures r >= 1
    ensures emTreinamento > 0 ==> r / PLANNED_DAYS == emTreinamento && r % PLANNED_DAYS == 0
  {
    if emTreinamento > 0 then emTreinamento * PLANNED_DAYS else 1
  }

  /** The sheets of the given tipo (lines 33-35 and 53-56). */
  function SheetsOfTipo(modelos: seq<ChecklistModelo>, respostas: seq<ChecklistRespostas>, tipo: string)
    : (r: seq<ChecklistRespostas>)
    ensures forall x :: x in r <==> x in respostas && JoinsTipo(modelos, x, tipo)
  {
    Filter(respostas, (x: ChecklistRespostas) => JoinsTipo(modelos, x, tipo))
  }

  /** The 'diario' sheets filled on day `today` (lines 52-56). */
  function DailyOn(modelos: seq<ChecklistModelo>, respostas: seq<ChecklistRespostas>, today: int)
    : (r: seq<ChecklistRespostas>)
    ensures forall x :: x in r <==>
      x in respostas && JoinsTipo(modelos, x, DAILY) && DayOf(x.dataPreenchimento) == today
  {
    Filter(respostas, (x: ChecklistRespostas) => DayOf(x.dataPreenchimento) == today && JoinsTipo(modelos, x, DAILY))
  }

  /** The alert list (lines 57-62): collaborators in training without a daily sheet today. */
  function NaoPreenchidos(colaboradores: seq<Colaborador>, modelos: seq<ChecklistModelo>,
                          respostas: seq<ChecklistRespostas>, today: int): (r: set<nat>)
    ensures forall id :: id in r <==>
      (exists c :: c in colaboradores && c.status == IN_TRAINING && c.id == id)
      && !(exists x :: x in DailyOn(modelos, respostas, today) && x.colaboradorId == id)
  {
    var trainees := InTraining(colaboradores);
    var done := DailyOn(modelos, respostas, today);
    ImageMembers(trainees, (c: Colaborador) => c.id);
    ImageMembers(done, (x: ChecklistRespostas) => x.colaboradorId);
    Image(trainees, (c: Colaborador) => c.id) - Image(done, (x: ChecklistRespostas) => x.colaboradorId)
  }

  /** `/colaboradores` (lines 85-96): everyone for administrators and coordinators, a leader's
      own team for a leader, nobody for anyone else. */
  function Visible(colaboradores: seq<Colaborador>, viewer: Usuario): (r: seq<Colaborador>)
    ensures viewer.perfil in {ADMINISTRATOR, COORDINATOR} ==> r == colaboradores
    ensures viewer.perfil == LEADER ==>
      forall c :: c in r <==> c in colaboradores && c.liderId == viewer.id
    ensures viewer.perfil !in {ADMINISTRATOR, COORDINATOR, LEADER} ==> r == []
  {
    if viewer.perfil in {ADMINISTRATOR, COORDINATOR} then colaboradores
    else if viewer.perfil == LEADER then Filter(colaboradores, (c: Colaborador) => c.liderId == viewer.id)
    else []
  }

  /** The dashboard's listing (lines 64-70): the `/colaboradores` listing for administrators,
      coordinators and leaders; for anyone else a one-element list holding the collaborator
      whose id equals the viewer's user id, or `None` when there is no such collaborator. */
  function DashboardListing(colaboradores: seq<Colaborador>, viewer: Usuario): (r: seq<Option<Colaborador>>)
    ensures viewer.perfil in {ADMINISTRATOR, COORDINATOR, LEADER} ==>
      |r| == |Visible(colaboradores, viewer)|
      && forall i :: 0 <= i < |r| ==> r[i] == Some(Visible(colaboradores, viewer)[i])
    ensures viewer.perfil !in {ADMINISTRATOR, COORDINATOR, LEADER} ==>
      |r| == 1
      && (r[0].None? <==> forall c :: c in colaboradores ==> c.id != viewer.id)
      && (r[0].Some? ==> r[0].value in colaboradores && r[0].value.id == viewer.id)
  {
    if viewer.perfil in {ADMINISTRATOR, COORDINATOR, LEADER} then
      var v := Visible(colaboradores, viewer);
      seq(|v|, i requires 0 <= i < |v| => Some(v[i]))
    else
      [FirstWhere(colaboradores, (c: Colaborador) => c.id == viewer.id)]
  }

  /** What the dashboard shows, the redirect to the login page, or an unhandled exception
      answered with a server error. */
  datatype DashboardView =
    | LoginRequired
    | ServerError
    | Page(emTreinamento: nat, diasConcluidos: nat, totalDiasPrevistos: nat,
           emRisco: set<nat>, totalEmRisco: nat,
           naoPreenchidos: set<nat>, listing: seq<Option<Colaborador>>)

  /** `/dashboard` (lines 14-82) as intended, without the percentages and the weekly-average
      chart: the at-risk set is read through the sheets' `colaborador_id`. */
  function Dashboard(cu: CurrentUser, colaboradores: seq<Colaborador>, modelos: seq<ChecklistModelo>,
                     respostas: seq<ChecklistRespostas>, today: int): (r: DashboardView)
    ensures r.LoginRequired? <==> cu.Anonymous?
    ensures cu.LoggedIn? ==> r.Page?
    ensures r.Page? ==> r.emTreinamento == |InTraining(colaboradores)|
    ensures r.Page? ==> r.diasConcluidos == |SheetsOfTipo(modelos, respostas, DAILY)|
    ensures r.Page? ==> r.totalDiasPrevistos >= 1
    ensures r.Page? ==> r.emRisco == AtRisk(modelos, respostas) && r.totalEmRisco == |r.emRisco|
    ensures r.Page? ==> r.totalEmRisco <= |FailedWeekly(modelos, respostas)|
    ensures r.Page? ==> r.naoPreenchidos == NaoPreenchidos(colaboradores, modelos, respostas, today)
    ensures r.Page? ==> |r.naoPreenchidos| <= r.emTreinamento
    ensures r.Page? ==> cu.LoggedIn? && r.listing == DashboardListing(colaboradores, cu.user)
  {
    match cu
    case Anonymous => LoginRequired
    case LoggedIn(user) =>
      var trainees := InTraining(colaboradores);
      var risk := AtRisk(modelos, respostas);
      var missing := NaoPreenchidos(colaboradores, modelos, respostas, today);
      ImageBound(FailedWeekly(modelos, respostas), (x: ChecklistRespostas) => x.colaboradorId);
      ImageBound(trainees, (c: Colaborador) => c.id);
      assert missing <= Image(trainees, (c: Colaborador) => c.id);
      Page(|trainees|, |SheetsOfTipo(modelos, respostas, DAILY)|, TotalDiasPrevistos(|trainees|),
           risk, |risk|, missing, DashboardListing(colaboradores, user))
  }

  /** `/dashboard` as written. Line 26 reads `r.colaborador` on each failed weekly sheet, but
      `ChecklistRespostas` declares only the `colaborador_id` column and no relationship of
      that name (checklist_app/models.py:66-81), so the first failed sheet raises
      AttributeError and the request ends in a server error. */
  function DashboardAsWritten(cu: CurrentUser, colaboradores: seq<Colaborador>, modelos: seq<ChecklistModelo>,
                              respostas: seq<ChecklistRespostas>, today: int): (r: DashboardView)
    ensures r.ServerError? <==> cu.LoggedIn? && FailedWeekly(modelos, respostas) != []
    ensures !r.ServerError? ==> r == Dashboard(cu, colaboradores, modelos, respostas, today)
  {
    if cu.LoggedIn? && FailedWeekly(modelos, respostas) != [] then ServerError
    else Dashboard(cu, colaboradores, modelos, respostas, today)
  }

  /** One failed weekly sheet is enough: the intended page lists its collaborator as at risk,
      while the code as written answers with a server error. */
  lemma FailedWeeklySheetBreaksDashboard(user: Usuario, colaboradores: seq<Colaborador>, modelos: seq<ChecklistModelo>,
                                         respostas: seq<ChecklistRespostas>, today: int, x: ChecklistRespostas)
    requires x in respostas && JoinsTipo(modelos, x, WEEKLY) && x.situacao == Some(REJECTED)
    ensures DashboardAsWritten(LoggedIn(user), colaboradores, modelos, respostas, today) == ServerError
    ensures var page := Dashboard(LoggedIn(user), colaboradores, modelos, respostas, today);
      page.Page? && x.colaboradorId in page.emRisco && page.totalEmRisco >= 1
  {
    assert x in FailedWeekly(modelos, respostas);
    var page := Dashboard(LoggedIn(user), colaboradores, modelos, respostas, today);
    assert x.colaboradorId in page.emRisco;
  }
}
