/** How often the fetch and the refresh of the roles of one task are tried again. */
module TaskRunnerRetries {
  import opened Common
  import opened TaskRunnerModel
  import opened TaskRunnerInvariants
  import opened TaskRunnerTheorems

  /** The retries of a task that a run makes: a timer fires while the task is current. */
  function FetchRetries(a: App, run: seq<Event>, t: nat): nat
    requires IsRun(a, run)
    decreases |run|
  {
    if run == [] then 0
    else (if run[0].FetchRetry? && a.current == t then 1 else 0) + FetchRetries(Step(a, run[0]), run[1..], t)
  }

  function RoleRetries(a: App, run: seq<Event>, t: nat): nat
    requires IsRun(a, run)
    decreases |run|
  {
    if run == [] then 0
    else (if run[0].RolesRetry? && a.current == t then 1 else 0) + RoleRetries(Step(a, run[0]), run[1..], t)
  }

  /** The retries made so far for the current task. */
  datatype Made = Made(fetch: nat, roles: nat)

  const NONE := Made(0, 0)

  function Observe(m: Made, a: App, e: Event): Made {
    match e
    case FetchRetry => m.(fetch := m.fetch + 1)
    case RolesRetry => m.(roles := m.roles + 1)
    case OnTaskHandler(_) => if a.current < |a.tasks| && Cur(a).state.Next? then NONE else m
    case _ => m
  }

  /** The counter that the two kinds of retries share is the number made, plus the one whose timer runs. */
  predicate Counted(a: App, m: Made) {
    m.fetch <= TASK_FETCH_RETRIES && m.roles <= ROLE_REFRESH_RETRIES &&
    (a.current < |a.tasks| ==>
       match Cur(a).state
       case Idle => m == NONE
       case Fetch => m.roles == 0 && m.fetch + a.outstanding[FetchTimer] == a.fetchRetries <= TASK_FETCH_RETRIES
       case MetadataParse => m.roles == 0
       case RefreshRoles => m.roles + a.outstanding[RolesTimer] == a.fetchRetries <= ROLE_REFRESH_RETRIES
       case _ => true)
  }

  lemma EarlyCount(a: App, m: Made, c: Circumstances)
    requires a.current < |a.tasks| && a.outstanding == multiset{} && Counted(a, m)
    requires var s := Cur(a).state; s.Fetch? || s.MetadataParse? || s.RefreshRoles?
    ensures Counted(HandlerStep(a, c), m) && HandlerStep(a, c).current == a.current
  {
  }

  lemma IdleCount(a: App, m: Made, c: Circumstances)
    requires a.current < |a.tasks| && a.outstanding == multiset{} && Counted(a, m) && Cur(a).state.Idle?
    ensures Counted(HandlerStep(a, c), m) && HandlerStep(a, c).current == a.current
  {
    var s := Cur(HandlerStep(a, c)).state;
    assert m == NONE && !s.Idle? && !s.RefreshRoles? && (s.Fetch? ==> HandlerStep(a, c).fetchRetries == 0);
  }

  lemma MiddleCount(a: App, m: Made, c: Circumstances)
    requires a.current < |a.tasks| && a.outstanding == multiset{} && Counted(a, m)
    requires var s := Cur(a).state; s.Env? || s.Watchdog? || s.Dependencies? || s.Run?
    ensures Counted(HandlerStep(a, c), m) && HandlerStep(a, c).current == a.current
  {
  }

  lemma LateCount(a: App, m: Made, c: Circumstances)
    requires a.current < |a.tasks| && a.outstanding == multiset{} && Counted(a, m)
    requires var s := Cur(a).state; s.Complete? || s.Completed?
    ensures Counted(HandlerStep(a, c), m) && HandlerStep(a, c).current == a.current
  {
  }

  lemma NextCount(a: App, m: Made, c: Circumstances)
    requires a.current < |a.tasks| && a.outstanding == multiset{} && Cur(a).state.Next?
    ensures Counted(HandlerStep(a, c), NONE) && HandlerStep(a, c).current == a.current + 1
  {
  }

  lemma HandlerCount(a: App, m: Made, c: Circumstances)
    requires a.current < |a.tasks| && a.outstanding == multiset{} && Counted(a, m)
    ensures Counted(HandlerStep(a, c), Observe(m, a, OnTaskHandler(c)))
    ensures HandlerStep(a, c).current == a.current + (if Cur(a).state.Next? then 1 else 0)
  {
    hide HandlerStep, Counted;
    match Cur(a).state {
      case Idle => IdleCount(a, m, c);
      case Fetch => EarlyCount(a, m, c);
      case MetadataParse => EarlyCount(a, m, c);
      case RefreshRoles => EarlyCount(a, m, c);
      case Next => NextCount(a, m, c);
      case Complete => LateCount(a, m, c);
      case Completed => LateCount(a, m, c);
      case _ => MiddleCount(a, m, c);
    }
  }

  lemma FetchCount(a: App, m: Made, failed: bool)
    requires a.current < |a.tasks| && a.outstanding == multiset{} && Counted(a, m) && Cur(a).state.Fetch?
    ensures Counted(OnFetchDone(a, failed), m) && OnFetchDone(a, failed).current == a.current
  {
    hide Goto, Fails;
    CountEnds(a, m);
    CountGoes(a, m, MetadataParse);
  }

  lemma CountEnds(a: App, m: Made)
    requires a.current < |a.tasks| && Counted(a, m)
    ensures Counted(Adds(Fails(a), TaskHandler), m) && Fails(a).current == a.current
  {
  }

  /** Moving on to a state that has no retries of its own. */
  lemma CountGoes(a: App, m: Made, s: TaskState)
    requires a.current < |a.tasks| && Counted(a, m)
    requires !s.Idle? && !s.Fetch? && !s.RefreshRoles? && (s.MetadataParse? ==> m.roles == 0)
    ensures Counted(Adds(Goto(a, s), TaskHandler), m) && Goto(a, s).current == a.current
  {
  }

  lemma MetadataCount(a: App, m: Made, failed: bool, hasMetadata: bool)
    requires a.current < |a.tasks| && a.outstanding == multiset{} && Counted(a, m) && Cur(a).state.MetadataParse?
    ensures Counted(OnMetadataDone(a, failed, hasMetadata), m)
    ensures OnMetadataDone(a, failed, hasMetadata).current == a.current
  {
    assert m.roles == 0;
    hide Counted, Goto, Fails, Adds;
    CountEnds(a, m);
    CountGoes(a, m, Complete);
    RefreshCount(a, m);
  }

  lemma RefreshCount(a: App, m: Made)
    requires a.current < |a.tasks| && a.outstanding == multiset{} && m.roles == 0 && m.fetch <= TASK_FETCH_RETRIES
    ensures Counted(Adds(Goto(a, RefreshRoles).(fetchRetries := 0), TaskHandler), m)
    ensures Adds(Goto(a, RefreshRoles).(fetchRetries := 0), TaskHandler).current == a.current
    ensures Adds(Goto(a, Complete), TaskHandler).current == a.current
    ensures Adds(Fails(a), TaskHandler).current == a.current
  {
  }

  lemma RolesCount(a: App, m: Made, failed: bool, unusable: bool)
    requires a.current < |a.tasks| && a.outstanding == multiset{} && Counted(a, m) && Cur(a).state.RefreshRoles?
    ensures Counted(OnRolesDone(a, failed, unusable), m) && OnRolesDone(a, failed, unusable).current == a.current
  {
    hide Goto, Fails;
    CountEnds(a, m);
    CountGoes(a, m, Env);
  }

  lemma FetchRetryCount(a: App, m: Made)
    requires a.current < |a.tasks| && a.outstanding == multiset{FetchTimer} && Counted(a, m) && Cur(a).state.Fetch?
    ensures Counted(Adds(Goto(a.(outstanding := multiset{}), Fetch), TaskHandler), m.(fetch := m.fetch + 1))
  {
  }

  lemma RolesRetryCount(a: App, m: Made)
    requires a.current < |a.tasks| && a.outstanding == multiset{RolesTimer} && Counted(a, m) && Cur(a).state.RefreshRoles?
    ensures Counted(Adds(Goto(a.(outstanding := multiset{}), RefreshRoles), TaskHandler), m.(roles := m.roles + 1))
  {
  }

  lemma WaitingCount(a: App, m: Made)
    requires a.current < |a.tasks| && a.outstanding == multiset{} && Counted(a, m)
    ensures Counted(Adds(a, TaskHandler), m) && Adds(a, TaskHandler).current == a.current
  {
  }

  lemma RunCount(a: App, m: Made, rc: int, localWatchdog: bool)
    requires a.current < |a.tasks| && Counted(a, m)
    ensures Counted(OnRunDone(a, rc, localWatchdog), m) && OnRunDone(a, rc, localWatchdog).current == a.current
  {
  }

  lemma DependenciesCount(a: App, m: Made, failed: bool)
    requires a.current < |a.tasks| && Counted(a, m)
    ensures Counted(OnDependenciesDone(a, failed), m) && OnDependenciesDone(a, failed).current == a.current
  {
    hide Counted, Goto, Fails;
    CountEnds(a, m);
    CountGoes(a, m, Run);
  }

  /** Taking a source that is no retry timer leaves the count as it is. */
  lemma SourcelessCount(a: App, m: Made, s: Source)
    requires Counted(a, m) && Waits(a, s) && !s.FetchTimer? && !s.RolesTimer?
    ensures Counted(a.(outstanding := multiset{}), m)
  {
  }

  lemma AnswerCount(a: App, m: Made, e: Event)
    requires a.current < |a.tasks| && a.outstanding == multiset{} && Counted(a, m)
    requires SourceOf(e).Some? && NeedsTask(e) && Matches(SourceOf(e).value, Cur(a).state)
    requires !e.FetchRetry? && !e.RolesRetry?
    ensures Counted(Callback(a, e), Observe(m, a, e)) && Callback(a, e).current == a.current
  {
    hide Counted, OnFetchDone, OnMetadataDone, OnRolesDone, OnRunDone, OnDependenciesDone, Adds;
    match e {
      case FetchDone(failed) => FetchCount(a, m, failed);
      case MetadataDone(failed, hasMetadata) => MetadataCount(a, m, failed, hasMetadata);
      case RolesDone(failed, unusable) => RolesCount(a, m, failed, unusable);
      case RunDone(rc, localWatchdog) => RunCount(a, m, rc, localWatchdog);
      case DependenciesDone(failed) => DependenciesCount(a, m, failed);
      case _ => WaitingCount(a, m);
    }
  }

  lemma RetryStep(a: App, m: Made, e: Event)
    requires a.current < |a.tasks| && Counted(a, m) && (e.FetchRetry? || e.RolesRetry?)
    requires Waits(a, SourceOf(e).value) && Matches(SourceOf(e).value, Cur(a).state)
    ensures var b := Callback(a.(outstanding := multiset{}), e);
            Counted(b, Observe(m, a, e)) && b.current == a.current
  {
    hide Counted;
    if e.FetchRetry? {
      FetchRetryCount(a, m);
    } else {
      RolesRetryCount(a, m);
    }
  }

  lemma RequestCount(a: App, b: App, m: Made)
    requires Counted(a, m) && b == a.(aborted := b.aborted, cancelled := b.cancelled)
    ensures Counted(b, m)
  {
  }

  /** The count keeps up: it grows with every retry of the current task and starts again with the next. */
  predicate KeepsUp(a: App, b: App, m: Made, e: Event) {
    var k := Observe(m, a, e);
    && Counted(b, k)
    && if b.current == a.current then
         && k.fetch == m.fetch + (if e.FetchRetry? then 1 else 0)
         && k.roles == m.roles + (if e.RolesRetry? then 1 else 0)
       else
         b.current == a.current + 1 && k == NONE && e.OnTaskHandler?
  }

  lemma TaskCallbackCount(a: App, m: Made, e: Event, s: Source)
    requires Shape(a) && a.current < |a.tasks| && Counted(a, m)
    requires Waits(a, s) && Matches(s, Cur(a).state) && SourceOf(e) == Some(s) && !e.OnRecipeHandler?
    ensures KeepsUp(a, Callback(a.(outstanding := multiset{}), e), m, e)
  {
    hide Callback, Shape, Counted, HandlerStep;
    if e.FetchRetry? || e.RolesRetry? {
      RetryStep(a, m, e);
    } else {
      SourcelessCount(a, m, s);
      if e.OnTaskHandler? {
        HandlerCount(a.(outstanding := multiset{}), m, e.c);
        HandlerCallback(a.(outstanding := multiset{}), e);
      } else {
        AnswerCount(a.(outstanding := multiset{}), m, e);
      }
    }
  }

  lemma StepCount(a: App, m: Made, e: Event)
    requires Valid(a) && Enabled(a, e) && Counted(a, m)
    ensures KeepsUp(a, Step(a, e), m, e)
  {
    hide Step, Valid, Counted, Enabled, KeepsUp;
    if SourceOf(e).None? {
      RequestKeepsUp(a, m, e);
    } else if a.current < |a.tasks| {
      TaskKeepsUp(a, m, e);
    } else {
      LastKeepsUp(a, m, e);
    }
  }

  lemma RequestKeepsUp(a: App, m: Made, e: Event)
    requires Enabled(a, e) && SourceOf(e).None? && Counted(a, m)
    ensures KeepsUp(a, Step(a, e), m, e)
  {
    hide Step, Counted;
    RequestStep(a, e);
    RequestCount(a, Step(a, e), m);
  }

  lemma TaskKeepsUp(a: App, m: Made, e: Event)
    requires Valid(a) && Enabled(a, e) && SourceOf(e).Some? && a.current < |a.tasks| && Counted(a, m)
    ensures KeepsUp(a, Step(a, e), m, e)
  {
    hide Step, Callback, Shape, AtEnd, Counted, HandlerStep, KeepsUp;
    var s :| Waits(a, s) && Matches(s, Cur(a).state);
    TaskStep(a, e, s);
    TaskCallbackCount(a, m, e, s);
  }

  lemma LastKeepsUp(a: App, m: Made, e: Event)
    requires Valid(a) && Enabled(a, e) && SourceOf(e).Some? && a.current >= |a.tasks| && Counted(a, m)
    ensures KeepsUp(a, Step(a, e), m, e)
  {
    hide Step, AtEnd;
    LastStep(a, e);
  }

  /** How many of `limit` retries a task still has when `made` have been made for the current one; tasks
    * behind it are not tried again. */
  function Left(limit: nat, made: nat, current: nat, t: nat): int {
    if t < current then 0 else if t == current then limit - made else limit
  }

  lemma {:induction false} RetriesFrom(a: App, m: Made, run: seq<Event>, t: nat)
    requires Valid(a) && Counted(a, m) && IsRun(a, run)
    ensures FetchRetries(a, run, t) <= Left(TASK_FETCH_RETRIES, m.fetch, a.current, t)
    ensures RoleRetries(a, run, t) <= Left(ROLE_REFRESH_RETRIES, m.roles, a.current, t)
    decreases |run|
  {
    hide Step, Valid, Counted, Enabled, Observe;
    CountIsBounded(a, m);
    if run != [] {
      StepKeepsValid(a, run[0]);
      StepCount(a, m, run[0]);
      RetriesFrom(Step(a, run[0]), Observe(m, a, run[0]), run[1..], t);
    }
  }

  lemma CountIsBounded(a: App, m: Made)
    requires Counted(a, m)
    ensures m.fetch <= TASK_FETCH_RETRIES && m.roles <= ROLE_REFRESH_RETRIES
  {
  }

  /** Whatever happens, a recipe makes at most 30 fetch retries and 3 role retries for any one task. */
  lemma RetriesAreLimited(tasks: seq<Task>, url: bool, run: seq<Event>, t: nat)
    requires FreshRecipe(tasks) && IsRun(Begin(tasks, url), run)
    ensures FetchRetries(Begin(tasks, url), run, t) <= 30
    ensures RoleRetries(Begin(tasks, url), run, t) <= 3
  {
    BeginIsValid(tasks, url);
    assert tasks[0] in tasks;
    assert Counted(Begin(tasks, url), NONE);
    hide Valid, Counted;
    RetriesFrom(Begin(tasks, url), NONE, run, t);
  }

  // ---- and no fewer ---------------------------------------------------------------------------------------

  /** The retries made for the current task of a run. */
  function MadeIn(m: Made, a: App, run: seq<Event>): Made
    requires IsRun(a, run)
    decreases |run|
  {
    if run == [] then m else MadeIn(Observe(m, a, run[0]), Step(a, run[0]), run[1..])
  }

  lemma KeptUp(a: App, b: App, m: Made, e: Event)
    requires KeepsUp(a, b, m, e)
    ensures Counted(b, Observe(m, a, e))
  {
  }

  lemma {:induction false} RunCounts(a: App, m: Made, run: seq<Event>)
    requires Valid(a) && Counted(a, m) && IsRun(a, run)
    ensures Counted(After(a, run), MadeIn(m, a, run)) && Valid(After(a, run))
    decreases |run|
  {
    hide Step, Valid, Counted, Enabled, Observe, KeepsUp;
    if run != [] {
      StepKeepsValid(a, run[0]);
      StepCount(a, m, run[0]);
      KeptUp(a, Step(a, run[0]), m, run[0]);
      RunCounts(Step(a, run[0]), Observe(m, a, run[0]), run[1..]);
    }
  }

  /** The task is going to be tried again: the timer runs that sends it back to its state. */
  predicate TriedAgain(a: App, timer: Source) {
    a.current < |a.tasks| && a.outstanding == multiset{timer} && Cur(a).error.None?
  }

  predicate GivenUp(a: App) {
    a.current < |a.tasks| && Cur(a).state.Complete? && Cur(a).error == Some(Failed)
  }

  lemma FetchFails(a: App, m: Made)
    requires Valid(a) && Counted(a, m) && Enabled(a, FetchDone(true))
    ensures a.current < |a.tasks|
    ensures var b := Step(a, FetchDone(true));
            if !Cur(a).fromPackage && m.fetch < 30 then TriedAgain(b, FetchTimer) else GivenUp(b)
  {
    hide Callback, Shape, AtEnd, Step;
    var s :| Waits(a, s) && Matches(s, Cur(a).state);
    TaskStep(a, FetchDone(true), s);
    FetchFailsHere(a, m);
  }

  lemma FetchFailsHere(a: App, m: Made)
    requires Shape(a) && a.current < |a.tasks| && Counted(a, m) && Waits(a, FetchOp) && Cur(a).state.Fetch?
    ensures var b := Callback(a.(outstanding := multiset{}), FetchDone(true));
            if !Cur(a).fromPackage && m.fetch < 30 then TriedAgain(b, FetchTimer) else GivenUp(b)
  {
    hide Finals, Reporting, Fresh;
    assert a.outstanding[FetchTimer] == 0;
  }

  lemma RolesFail(a: App, m: Made, unusable: bool)
    requires Valid(a) && Counted(a, m) && Enabled(a, RolesDone(true, unusable))
    ensures var b := Step(a, RolesDone(true, unusable));
            if m.roles < 3 then TriedAgain(b, RolesTimer) else GivenUp(b)
  {
    hide Callback, Shape, AtEnd, Step;
    var s :| Waits(a, s) && Matches(s, Cur(a).state);
    TaskStep(a, RolesDone(true, unusable), s);
    RolesFailHere(a, m, unusable);
  }

  lemma RolesFailHere(a: App, m: Made, unusable: bool)
    requires Shape(a) && a.current < |a.tasks| && Counted(a, m) && Waits(a, RolesOp) && Cur(a).state.RefreshRoles?
    ensures var b := Callback(a.(outstanding := multiset{}), RolesDone(true, unusable));
            if m.roles < 3 then TriedAgain(b, RolesTimer) else GivenUp(b)
  {
    hide Finals, Reporting, Fresh;
    assert a.outstanding[RolesTimer] == 0;
  }

  /** In every run a fetch that fails is tried again exactly if the task is no package and fewer than 30 retries
    * have been made for it, and otherwise ends the task with an error; a refresh of the roles that fails is tried
    * again exactly if fewer than 3 have been made. */
  lemma RetriesAreUsedUp(tasks: seq<Task>, url: bool, run: seq<Event>, e: Event)
    requires FreshRecipe(tasks) && IsRun(Begin(tasks, url), run) && Enabled(After(Begin(tasks, url), run), e)
    requires (e.FetchDone? || e.RolesDone?) && e.failed
    ensures var a := After(Begin(tasks, url), run); var b := Step(a, e); var m := MadeIn(NONE, Begin(tasks, url), run);
            && a.current < |a.tasks|
            && (e.FetchDone? ==>
                  if !Cur(a).fromPackage && m.fetch < 30 then TriedAgain(b, FetchTimer) else GivenUp(b))
            && (e.RolesDone? ==> if m.roles < 3 then TriedAgain(b, RolesTimer) else GivenUp(b))
  {
    BeginIsValid(tasks, url);
    FreshIsCounted(tasks, url);
    hide Valid, Counted, Step, TriedAgain, GivenUp, IsRun, After;
    RunCounts(Begin(tasks, url), NONE, run);
    if e.FetchDone? {
      FetchFails(After(Begin(tasks, url), run), MadeIn(NONE, Begin(tasks, url), run));
    } else {
      RolesFail(After(Begin(tasks, url), run), MadeIn(NONE, Begin(tasks, url), run), e.unusable);
    }
  }

  lemma FreshIsCounted(tasks: seq<Task>, url: bool)
    requires FreshRecipe(tasks)
    ensures Counted(Begin(tasks, url), NONE)
  {
    assert tasks[0] in tasks;
  }
}
