/** What has to succeed before a task is run. */
module TaskRunnerPreparation {
  import opened Common
  import opened TaskRunnerModel
  import opened TaskRunnerInvariants
  import opened TaskRunnerTheorems

  /** The preparations that have succeeded since the current task became current. */
  datatype Checks = Checks(fetched: bool, parsed: bool, roles: bool, watchdog: bool, dependencies: bool)

  const NOTHING := Checks(false, false, false, false, false)

  /** An observer of the run: the answers that carry no error. */
  function Observe(k: Checks, a: App, e: Event): Checks {
    match e
    case FetchDone(failed) => if failed then k else k.(fetched := true)
    case MetadataDone(failed, hasMetadata) => if failed || !hasMetadata then k else k.(parsed := true)
    case RolesDone(failed, unusable) => if failed || unusable then k else k.(roles := true)
    case WatchdogSent => k.(watchdog := true)
    case DependenciesDone(failed) => if failed then k else k.(dependencies := true)
    case OnTaskHandler(c) =>
      if a.current >= |a.tasks| then k
      else if Cur(a).state.Next? then NOTHING
      else if Cur(a).state.Dependencies? && c.noDependencies then k.(dependencies := true)
      else k
    case _ => k
  }

  function Observed(k: Checks, a: App, run: seq<Event>): Checks
    requires IsRun(a, run)
    decreases |run|
  {
    if run == [] then k else Observed(Observe(k, a, run[0]), Step(a, run[0]), run[1..])
  }

  predicate PastFetch(s: TaskState) {
    s.MetadataParse? || PastMetadata(s)
  }

  predicate PastMetadata(s: TaskState) {
    s.RefreshRoles? || PastRoles(s)
  }

  predicate PastRoles(s: TaskState) {
    s.Env? || s.Watchdog? || s.Dependencies? || s.Run?
  }

  /** How far the current task has come says what has succeeded; one that had been started before it was
    * interrupted skips the fetch and the dependencies. */
  predicate Prepared(a: App, k: Checks) {
    a.current < |a.tasks| ==>
      var t := Cur(a);
      && (PastFetch(t.state) ==> k.fetched || t.started)
      && (PastMetadata(t.state) ==> k.parsed)
      && (PastRoles(t.state) ==> k.roles || !a.hasRecipeUrl)
      && (t.state.Run? || (t.state.Dependencies? && TaskHandler in a.outstanding) ==> k.watchdog || t.started)
      && (t.state.Run? && TaskHandler in a.outstanding ==> k.dependencies || t.started)
  }

  lemma IdlePrepares(a: App, k: Checks, c: Circumstances)
    requires a.current < |a.tasks| && a.outstanding == multiset{} && Cur(a).state.Idle?
    ensures Prepared(HandlerStep(a, c), Observe(k, a, OnTaskHandler(c)))
    ensures HandlerStep(a, c).runs == a.runs
  {
    var b := HandlerStep(a, c);
    assert PastFetch(Cur(b).state) ==> Cur(b).started && Cur(b).state.MetadataParse?;
  }

  lemma EarlySteps(a: App, k: Checks, c: Circumstances)
    requires a.current < |a.tasks| && a.outstanding == multiset{} && Prepared(a, k)
    requires var s := Cur(a).state; s.Fetch? || s.MetadataParse? || s.RefreshRoles?
    ensures Prepared(HandlerStep(a, c), Observe(k, a, OnTaskHandler(c)))
    ensures HandlerStep(a, c).runs == a.runs
  {
  }

  lemma MiddleSteps(a: App, k: Checks, c: Circumstances)
    requires a.current < |a.tasks| && a.outstanding == multiset{} && Prepared(a, k)
    requires var s := Cur(a).state; s.Env? || s.Watchdog? || (s.Dependencies? && (k.watchdog || Cur(a).started))
    ensures Prepared(HandlerStep(a, c), Observe(k, a, OnTaskHandler(c)))
    ensures HandlerStep(a, c).runs == a.runs
  {
  }

  lemma RunStep(a: App, k: Checks, c: Circumstances)
    requires a.current < |a.tasks| && a.outstanding == multiset{} && Prepared(a, k) && Cur(a).state.Run?
    ensures Prepared(HandlerStep(a, c), Observe(k, a, OnTaskHandler(c)))
    ensures HandlerStep(a, c).runs != a.runs ==> !a.cancelled
  {
  }

  lemma LateSteps(a: App, k: Checks, c: Circumstances)
    requires Shape(a) && a.current < |a.tasks| && a.outstanding == multiset{} && Prepared(a, k)
    requires var s := Cur(a).state; s.Complete? || s.Completed? || s.Next?
    ensures Prepared(HandlerStep(a, c), Observe(k, a, OnTaskHandler(c)))
    ensures HandlerStep(a, c).runs == a.runs
  {
  }

  lemma HandlerPrepares(a: App, k: Checks, c: Circumstances)
    requires Shape(a) && a.current < |a.tasks| && a.outstanding == multiset{} && Prepared(a, k)
    requires Cur(a).state.Dependencies? ==> k.watchdog || Cur(a).started
    ensures Prepared(HandlerStep(a, c), Observe(k, a, OnTaskHandler(c)))
    ensures HandlerStep(a, c).runs != a.runs ==> Cur(a).state.Run? && !a.cancelled
  {
    hide HandlerStep, Prepared, Observe, Shape;
    match Cur(a).state {
      case Idle => IdlePrepares(a, k, c);
      case Fetch => EarlySteps(a, k, c);
      case MetadataParse => EarlySteps(a, k, c);
      case RefreshRoles => EarlySteps(a, k, c);
      case Env => MiddleSteps(a, k, c);
      case Watchdog => MiddleSteps(a, k, c);
      case Dependencies => MiddleSteps(a, k, c);
      case Run => RunStep(a, k, c);
      case Complete => LateSteps(a, k, c);
      case Completed => LateSteps(a, k, c);
      case Next => LateSteps(a, k, c);
    }
  }

  lemma FetchAnswered(a: App, k: Checks, failed: bool)
    requires a.current < |a.tasks| && a.outstanding == multiset{} && Prepared(a, k) && Cur(a).state.Fetch?
    ensures var b := OnFetchDone(a, failed);
            Prepared(b, if failed then k else k.(fetched := true)) && b.runs == a.runs
  {
    if failed {
      var b := OnFetchDone(a, failed);
      assert Cur(b).state.Fetch? || Cur(b).state.Complete?;
    }
  }

  lemma MetadataAnswered(a: App, k: Checks, failed: bool, hasMetadata: bool)
    requires a.current < |a.tasks| && a.outstanding == multiset{} && Prepared(a, k) && Cur(a).state.MetadataParse?
    ensures var b := OnMetadataDone(a, failed, hasMetadata);
            Prepared(b, if failed || !hasMetadata then k else k.(parsed := true)) && b.runs == a.runs
  {
    hide Prepared, Adds, Goto, Fails;
    EndedIsPrepared(a, k);
    if !failed && Cur(a).error.None? && hasMetadata {
      ParsedIsPrepared(a, k);
    } else if !failed && hasMetadata {
      EndedIsPrepared(a, k.(parsed := true));
    }
  }

  lemma EndedIsPrepared(a: App, k: Checks)
    requires a.current < |a.tasks|
    ensures Prepared(Adds(Fails(a), TaskHandler), k) && Adds(Fails(a), TaskHandler).runs == a.runs
    ensures Prepared(Adds(Goto(a, Complete), TaskHandler), k) && Adds(Goto(a, Complete), TaskHandler).runs == a.runs
  {
  }

  lemma ParsedIsPrepared(a: App, k: Checks)
    requires a.current < |a.tasks| && Prepared(a, k) && Cur(a).state.MetadataParse?
    ensures var b := Adds(Goto(a, RefreshRoles).(fetchRetries := 0), TaskHandler);
            Prepared(b, k.(parsed := true)) && b.runs == a.runs
  {
  }

  lemma RolesAnswered(a: App, k: Checks, failed: bool, unusable: bool)
    requires a.current < |a.tasks| && a.outstanding == multiset{} && Prepared(a, k) && Cur(a).state.RefreshRoles?
    ensures var b := OnRolesDone(a, failed, unusable);
            Prepared(b, if failed || unusable then k else k.(roles := true)) && b.runs == a.runs
  {
    hide Prepared, Adds, Goto, Fails;
    EndedIsPrepared(a, k);
    RefreshedIsPrepared(a, k);
  }

  lemma RefreshedIsPrepared(a: App, k: Checks)
    requires a.current < |a.tasks| && Prepared(a, k) && Cur(a).state.RefreshRoles?
    ensures Prepared(Adds(Goto(a, Env), TaskHandler), k.(roles := true)) && Adds(Goto(a, Env), TaskHandler).runs == a.runs
    ensures var b := Adds(a.(fetchRetries := a.fetchRetries + 1), RolesTimer); Prepared(b, k) && b.runs == a.runs
  {
  }

  lemma RetryAnswered(a: App, k: Checks, s: TaskState)
    requires a.current < |a.tasks| && a.outstanding == multiset{} && Prepared(a, k)
    requires Cur(a).state == s && (s.Fetch? || s.RefreshRoles?)
    ensures var b := Adds(Goto(a, s), TaskHandler); Prepared(b, k) && b.runs == a.runs
  {
  }

  lemma MessageAnswered(a: App, k: Checks, e: Event)
    requires a.current < |a.tasks| && a.outstanding == multiset{} && Prepared(a, k)
    requires e.StatusSent? || e.WatchdogSent? || e.PluginsDone?
    requires Matches(SourceOf(e).value, Cur(a).state)
    ensures Prepared(Callback(a, e), Observe(k, a, e)) && Callback(a, e).runs == a.runs
  {
  }

  lemma RunAnswered(a: App, k: Checks, rc: int, localWatchdog: bool)
    requires a.current < |a.tasks| && a.outstanding == multiset{} && Prepared(a, k)
    ensures var b := OnRunDone(a, rc, localWatchdog); Prepared(b, k) && b.runs == a.runs
  {
  }

  lemma DependenciesAnswered(a: App, k: Checks, failed: bool)
    requires a.current < |a.tasks| && a.outstanding == multiset{} && Prepared(a, k) && Cur(a).state.Run?
    ensures var b := OnDependenciesDone(a, failed);
            Prepared(b, if failed then k else k.(dependencies := true)) && b.runs == a.runs
  {
  }

  lemma AnswerPrepares(a: App, k: Checks, e: Event)
    requires a.current < |a.tasks| && a.outstanding == multiset{} && Prepared(a, k)
    requires SourceOf(e).Some? && NeedsTask(e) && Matches(SourceOf(e).value, Cur(a).state)
    ensures Prepared(Callback(a, e), Observe(k, a, e)) && Callback(a, e).runs == a.runs
  {
    hide Prepared, OnFetchDone, OnMetadataDone, OnRolesDone, OnRunDone, OnDependenciesDone, Goto, Adds;
    match e {
      case FetchDone(failed) => FetchAnswered(a, k, failed);
      case MetadataDone(failed, hasMetadata) => MetadataAnswered(a, k, failed, hasMetadata);
      case RolesDone(failed, unusable) => RolesAnswered(a, k, failed, unusable);
      case RunDone(rc, localWatchdog) => RunAnswered(a, k, rc, localWatchdog);
      case DependenciesDone(failed) => DependenciesAnswered(a, k, failed);
      case FetchRetry => RetryAnswered(a, k, Fetch);
      case RolesRetry => RetryAnswered(a, k, RefreshRoles);
      case _ => MessageAnswered(a, k, e);
    }
  }

  lemma WithoutSource(a: App, k: Checks, e: Event)
    requires Prepared(a, k)
    ensures Prepared(a.(outstanding := multiset{}), k)
    ensures a.current < |a.tasks| && Cur(a).state.Dependencies? && TaskHandler in a.outstanding ==>
              k.watchdog || Cur(a).started
    ensures Observe(k, a.(outstanding := multiset{}), e) == Observe(k, a, e)
  {
  }

  lemma FlagsPrepare(a: App, b: App, k: Checks)
    requires Prepared(a, k) && b == a.(aborted := b.aborted, cancelled := b.cancelled)
    ensures Prepared(b, k)
  {
  }

  lemma StepPrepares(a: App, k: Checks, e: Event)
    requires Valid(a) && Enabled(a, e) && Prepared(a, k)
    ensures Prepared(Step(a, e), Observe(k, a, e))
    ensures Step(a, e).runs != a.runs ==>
              a.current < |a.tasks| && Cur(a).state.Run? && TaskHandler in a.outstanding && !a.cancelled
  {
    if SourceOf(e).None? {
      hide Step, Valid, Prepared;
      RequestStep(a, e);
      FlagsPrepare(a, Step(a, e), k);
    } else if a.current < |a.tasks| {
      hide Step, Callback, Shape, AtEnd, Prepared, Observe, HandlerStep;
      var s :| Waits(a, s) && Matches(s, Cur(a).state);
      TaskStep(a, e, s);
      ShapeHasNoSource(a);
      WithoutSource(a, k, e);
      if e.OnTaskHandler? {
        HandlerPrepares(a.(outstanding := multiset{}), k, e.c);
        HandlerCallback(a.(outstanding := multiset{}), e);
      } else {
        AnswerPrepares(a.(outstanding := multiset{}), k, e);
      }
    } else {
      hide Step, AtEnd;
      LastStep(a, e);
    }
  }

  lemma {:induction false} RunPrepares(a: App, k: Checks, run: seq<Event>)
    requires Valid(a) && Prepared(a, k) && IsRun(a, run)
    ensures Prepared(After(a, run), Observed(k, a, run)) && Valid(After(a, run))
    decreases |run|
  {
    hide Step, Valid, Prepared, Observe;
    if run != [] {
      StepKeepsValid(a, run[0]);
      StepPrepares(a, k, run[0]);
      RunPrepares(Step(a, run[0]), Observe(k, a, run[0]), run[1..]);
    }
  }

  /** A task is run only when everything before has succeeded: its metadata was there, its roles were refreshed
    * if the recipe has a URL, and, unless it had been started before, it was fetched, the external watchdog was
    * told and its dependencies were installed; and never once the recipe is cancelled. */
  lemma TasksRunPrepared(tasks: seq<Task>, url: bool, run: seq<Event>, e: Event)
    requires FreshRecipe(tasks) && IsRun(Begin(tasks, url), run) && Enabled(After(Begin(tasks, url), run), e)
    requires Step(After(Begin(tasks, url), run), e).runs != After(Begin(tasks, url), run).runs
    ensures var a := After(Begin(tasks, url), run); var k := Observed(NOTHING, Begin(tasks, url), run);
            && a.current < |a.tasks| && !a.cancelled
            && k.parsed && (k.roles || !a.hasRecipeUrl)
            && (Cur(a).started || (k.fetched && k.watchdog && k.dependencies))
  {
    hide Step, Valid;
    BeginIsValid(tasks, url);
    FreshIsPrepared(tasks, url);
    RunPrepares(Begin(tasks, url), NOTHING, run);
    StepPrepares(After(Begin(tasks, url), run), Observed(NOTHING, Begin(tasks, url), run), e);
  }

  lemma FreshIsPrepared(tasks: seq<Task>, url: bool)
    requires FreshRecipe(tasks)
    ensures Prepared(Begin(tasks, url), NOTHING)
  {
    assert tasks[0] in tasks;
  }
}
