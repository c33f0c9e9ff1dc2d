/** What a task that had been started before an interruption does again, and what it does not. */
module TaskRunnerContinuation {
  import opened Common
  import opened TaskRunnerModel
  import opened TaskRunnerInvariants
  import opened TaskRunnerTheorems
  import P = TaskRunnerPreparation

  /** Whether the IDLE step of the current task found that it had been started. */
  function Observe(k: bool, a: App, e: Event): bool {
    if a.current >= |a.tasks| || !e.OnTaskHandler? then k
    else if Cur(a).state.Idle? then e.c.readable && e.c.started
    else if Cur(a).state.Next? then false
    else k
  }

  function Observed(k: bool, a: App, run: seq<Event>): bool
    requires IsRun(a, run)
    decreases |run|
  {
    if run == [] then k else Observed(Observe(k, a, run[0]), Step(a, run[0]), run[1..])
  }

  /** The states between IDLE and the run. */
  predicate BeforeRun(a: App)
    requires a.current < |a.tasks|
  {
    var s := Cur(a).state;
    || s.Fetch? || s.MetadataParse? || s.RefreshRoles? || s.Env? || s.Watchdog? || s.Dependencies?
    || (s.Run? && RunOp !in a.outstanding)
  }

  /** Nothing that a started task has behind it is waited for. */
  predicate NothingAgain(a: App) {
    FetchOp !in a.outstanding && FetchTimer !in a.outstanding && WatchdogMessage !in a.outstanding
    && DependencyOp !in a.outstanding
  }

  predicate Continues(a: App, k: bool) {
    a.current < |a.tasks| ==>
      && (BeforeRun(a) ==> Cur(a).started == k)
      && (k ==> !Cur(a).state.Fetch? && NothingAgain(a) && (StatusMessage in a.outstanding ==> Cur(a).state.Next?))
  }

  lemma IdleContinues(a: App, k: bool, c: Circumstances)
    requires a.current < |a.tasks| && a.outstanding == multiset{} && Cur(a).state.Idle?
    ensures Continues(HandlerStep(a, c), Observe(k, a, OnTaskHandler(c)))
  {
    var b := HandlerStep(a, c);
    assert Cur(b).state.Fetch? ==> c.readable && !c.started && !Cur(b).started;
    assert Cur(b).state.MetadataParse? ==> c.readable && c.started && Cur(b).started;
    assert !Cur(b).state.Fetch? ==> b.outstanding == multiset{TaskHandler};
  }

  lemma EarlyContinues(a: App, k: bool, c: Circumstances)
    requires a.current < |a.tasks| && a.outstanding == multiset{} && Continues(a, k)
    requires var s := Cur(a).state; s.Fetch? || s.MetadataParse? || s.RefreshRoles?
    ensures Continues(HandlerStep(a, c), k)
  {
  }

  lemma MiddleContinues(a: App, k: bool, c: Circumstances)
    requires a.current < |a.tasks| && a.outstanding == multiset{} && Continues(a, k)
    requires var s := Cur(a).state; s.Env? || s.Watchdog? || s.Dependencies?
    ensures Continues(HandlerStep(a, c), k)
  {
  }

  lemma RunContinues(a: App, k: bool, c: Circumstances)
    requires a.current < |a.tasks| && a.outstanding == multiset{} && Continues(a, k) && Cur(a).state.Run?
    ensures Continues(HandlerStep(a, c), k)
  {
  }

  lemma LateContinues(a: App, k: bool, c: Circumstances)
    requires a.current < |a.tasks| && a.outstanding == multiset{} && Continues(a, k)
    requires var s := Cur(a).state; s.Complete? || s.Completed?
    ensures Continues(HandlerStep(a, c), k)
  {
  }

  lemma NextContinues(a: App, k: bool, c: Circumstances)
    requires a.current < |a.tasks| && a.outstanding == multiset{} && Cur(a).state.Next?
    ensures Continues(HandlerStep(a, c), false)
  {
  }

  lemma HandlerContinues(a: App, k: bool, c: Circumstances)
    requires a.current < |a.tasks| && a.outstanding == multiset{} && Continues(a, k)
    ensures Continues(HandlerStep(a, c), Observe(k, a, OnTaskHandler(c)))
  {
    hide HandlerStep, Continues;
    match Cur(a).state {
      case Idle => IdleContinues(a, k, c);
      case Fetch => EarlyContinues(a, k, c);
      case MetadataParse => EarlyContinues(a, k, c);
      case RefreshRoles => EarlyContinues(a, k, c);
      case Env => MiddleContinues(a, k, c);
      case Watchdog => MiddleContinues(a, k, c);
      case Dependencies => MiddleContinues(a, k, c);
      case Run => RunContinues(a, k, c);
      case Complete => LateContinues(a, k, c);
      case Completed => LateContinues(a, k, c);
      case Next => NextContinues(a, k, c);
    }
  }

  lemma EndContinues(a: App, k: bool, source: Source)
    requires a.current < |a.tasks| && a.outstanding == multiset{} && (source.TaskHandler? || source.PluginsOp?)
    ensures Continues(Adds(Fails(a), source), k) && Continues(Adds(Goto(a, Complete), source), k)
  {
  }

  /** Going on to a state before the run, or back to the one the task is in. */
  lemma GoingContinues(a: App, k: bool, s: TaskState, source: Source, retries: nat)
    requires a.current < |a.tasks| && a.outstanding == multiset{} && Cur(a).started == k
    requires (source.TaskHandler? || source.RolesTimer?) && (s.Fetch? ==> !k)
    ensures Continues(Adds(Goto(a, s), source), k) && Continues(Adds(Goto(a, s).(fetchRetries := retries), source), k)
  {
  }

  lemma FetchingContinues(a: App, k: bool, failed: bool)
    requires a.current < |a.tasks| && a.outstanding == multiset{} && Continues(a, k) && Cur(a).state.Fetch?
    ensures Continues(OnFetchDone(a, failed), k)
  {
    assert !k && !Cur(a).started;
    hide Goto, Fails;
    EndContinues(a, k, TaskHandler);
    GoingContinues(a, k, MetadataParse, TaskHandler, 0);
  }

  lemma MetadataContinues(a: App, k: bool, failed: bool, hasMetadata: bool)
    requires a.current < |a.tasks| && a.outstanding == multiset{} && Cur(a).started == k
    ensures Continues(OnMetadataDone(a, failed, hasMetadata), k)
  {
    hide Continues, Goto, Fails, Adds;
    EndContinues(a, k, TaskHandler);
    GoingContinues(a, k, RefreshRoles, TaskHandler, 0);
  }

  lemma RolesContinue(a: App, k: bool, failed: bool, unusable: bool)
    requires a.current < |a.tasks| && a.outstanding == multiset{} && Continues(a, k) && Cur(a).state.RefreshRoles?
    ensures Continues(OnRolesDone(a, failed, unusable), k)
  {
    assert Cur(a).started == k;
    hide Goto, Fails;
    EndContinues(a, k, TaskHandler);
    GoingContinues(a, k, Env, TaskHandler, 0);
  }

  lemma DependenciesContinue(a: App, k: bool, failed: bool)
    requires a.current < |a.tasks| && a.outstanding == multiset{} && Cur(a).started == k
    ensures Continues(OnDependenciesDone(a, failed), k)
  {
    hide Continues, Goto, Fails, Adds;
    EndContinues(a, k, TaskHandler);
    GoingContinues(a, k, Run, TaskHandler, 0);
  }

  lemma RunEndContinues(a: App, k: bool, rc: int, localWatchdog: bool)
    requires a.current < |a.tasks| && a.outstanding == multiset{}
    ensures Continues(OnRunDone(a, rc, localWatchdog), k)
  {
    var b := OnRunDone(a, rc, localWatchdog);
    assert Cur(b).state.Complete? && b.outstanding == multiset{PluginsOp};
  }

  /** Taking the source of an answer leaves a task that has not been run as started as it was. */
  lemma AnswerFound(a: App, k: bool, s: Source)
    requires a.current < |a.tasks| && Continues(a, k) && Waits(a, s) && Matches(s, Cur(a).state)
    ensures s != RunOp ==> Continues(a.(outstanding := multiset{}), k)
    ensures s.FetchOp? || s.FetchTimer? || s.WatchdogMessage? || s.DependencyOp? ==> !k
    ensures s.StatusMessage? && k ==> Cur(a).state.Next?
    ensures s.MetadataOp? || s.RolesOp? || s.RolesTimer? || s.DependencyOp? || s.FetchTimer? || s.FetchOp? ==>
              Cur(a).started == k
  {
  }

  lemma MessageContinues(a: App, k: bool)
    requires a.current < |a.tasks| && a.outstanding == multiset{} && Continues(a, k)
    ensures Continues(Adds(a, TaskHandler), k)
  {
  }

  lemma AnswerContinues(a: App, k: bool, e: Event, s: Source)
    requires a.current < |a.tasks| && Continues(a, k) && Waits(a, s) && Matches(s, Cur(a).state)
    requires SourceOf(e) == Some(s) && NeedsTask(e)
    ensures Continues(Callback(a.(outstanding := multiset{}), e), k)
  {
    hide Continues, OnFetchDone, OnMetadataDone, OnRolesDone, OnRunDone, OnDependenciesDone, Goto, Adds;
    var b := a.(outstanding := multiset{});
    AnswerFound(a, k, s);
    match e {
      case FetchDone(failed) => FetchingContinues(b, k, failed);
      case MetadataDone(failed, hasMetadata) => MetadataContinues(b, k, failed, hasMetadata);
      case RolesDone(failed, unusable) => RolesContinue(b, k, failed, unusable);
      case RunDone(rc, localWatchdog) => RunEndContinues(b, k, rc, localWatchdog);
      case DependenciesDone(failed) => DependenciesContinue(b, k, failed);
      case FetchRetry => GoingContinues(b, k, Fetch, TaskHandler, 0);
      case RolesRetry => GoingContinues(b, k, RefreshRoles, TaskHandler, 0);
      case _ => MessageContinues(b, k);
    }
  }

  lemma HandlerSourceContinues(a: App, k: bool)
    requires Continues(a, k) && Waits(a, TaskHandler)
    ensures Continues(a.(outstanding := multiset{}), k)
  {
  }

  lemma RequestContinues(a: App, k: bool, e: Event)
    requires Enabled(a, e) && SourceOf(e).None? && Continues(a, k)
    ensures Continues(Step(a, e), Observe(k, a, e))
  {
  }

  lemma TaskContinues(a: App, k: bool, e: Event)
    requires Valid(a) && Enabled(a, e) && SourceOf(e).Some? && a.current < |a.tasks| && Continues(a, k)
    ensures Continues(Step(a, e), Observe(k, a, e))
  {
    hide Step, Callback, Shape, AtEnd, Continues, HandlerStep;
    var s :| Waits(a, s) && Matches(s, Cur(a).state);
    TaskStep(a, e, s);
    if e.OnTaskHandler? {
      HandlerSourceContinues(a, k);
      HandlerContinues(a.(outstanding := multiset{}), k, e.c);
      HandlerCallback(a.(outstanding := multiset{}), e);
    } else {
      AnswerContinues(a, k, e, s);
    }
  }

  lemma LastContinues(a: App, k: bool, e: Event)
    requires Valid(a) && Enabled(a, e) && SourceOf(e).Some? && a.current >= |a.tasks|
    ensures Continues(Step(a, e), Observe(k, a, e))
  {
    hide Step, AtEnd;
    LastStep(a, e);
  }

  lemma StepContinues(a: App, k: bool, e: Event)
    requires Valid(a) && Enabled(a, e) && Continues(a, k)
    ensures Continues(Step(a, e), Observe(k, a, e))
  {
    hide Step, Valid, Continues, Observe, Enabled;
    if SourceOf(e).None? {
      RequestContinues(a, k, e);
    } else if a.current < |a.tasks| {
      TaskContinues(a, k, e);
    } else {
      LastContinues(a, k, e);
    }
  }

  lemma {:induction false} RunContinuing(a: App, k: bool, run: seq<Event>)
    requires Valid(a) && Continues(a, k) && IsRun(a, run)
    ensures Continues(After(a, run), Observed(k, a, run)) && Valid(After(a, run))
    decreases |run|
  {
    hide Step, Valid, Continues, Observe;
    if run != [] {
      StepKeepsValid(a, run[0]);
      StepContinues(a, k, run[0]);
      RunContinuing(Step(a, run[0]), Observe(k, a, run[0]), run[1..]);
    }
  }

  lemma FreshContinues(tasks: seq<Task>, url: bool)
    requires FreshRecipe(tasks)
    ensures Valid(Begin(tasks, url)) && Continues(Begin(tasks, url), false)
  {
    BeginIsValid(tasks, url);
    assert tasks[0] in tasks;
  }

  /** In every run, once the IDLE step of a task has found in its section that it had been started, and until the
    * task is left, it is neither fetched nor tried to be fetched again, the external watchdog is not told, the
    * resolver does not run for it, and no Running status is on its way. */
  lemma StartedTasksAreNotFetched(tasks: seq<Task>, url: bool, run: seq<Event>)
    requires FreshRecipe(tasks) && IsRun(Begin(tasks, url), run)
    requires Observed(false, Begin(tasks, url), run)
    ensures var a := After(Begin(tasks, url), run);
            a.current < |a.tasks| ==>
              && FetchOp !in a.outstanding && FetchTimer !in a.outstanding && WatchdogMessage !in a.outstanding
              && DependencyOp !in a.outstanding && (StatusMessage in a.outstanding ==> Cur(a).state.Next?)
              && forall e: Event :: e.FetchDone? || e.FetchRetry? || e.WatchdogSent? || e.DependenciesDone? ==> !Enabled(a, e)
  {
    hide Step, Valid, Observed, IsRun, After;
    FreshContinues(tasks, url);
    RunContinuing(Begin(tasks, url), false, run);
  }

  /** And a task that its section did not say had been started is run only when it was fetched, the external
    * watchdog was told and its dependencies were installed in this session. */
  lemma OthersAreFetched(tasks: seq<Task>, url: bool, run: seq<Event>, e: Event)
    requires FreshRecipe(tasks) && IsRun(Begin(tasks, url), run) && Enabled(After(Begin(tasks, url), run), e)
    requires Step(After(Begin(tasks, url), run), e).runs != After(Begin(tasks, url), run).runs
    requires !Observed(false, Begin(tasks, url), run)
    ensures var k := P.Observed(P.NOTHING, Begin(tasks, url), run); k.fetched && k.watchdog && k.dependencies
  {
    hide Step, Valid, Observed, P.Observed, IsRun, After;
    FreshContinues(tasks, url);
    RunContinuing(Begin(tasks, url), false, run);
    P.TasksRunPrepared(tasks, url, run, e);
    P.FreshIsPrepared(tasks, url);
    P.RunPrepares(Begin(tasks, url), P.NOTHING, run);
    P.StepPrepares(After(Begin(tasks, url), run), P.Observed(P.NOTHING, Begin(tasks, url), run), e);
    RunIsDue(After(Begin(tasks, url), run));
  }

  lemma RunIsDue(a: App)
    requires Valid(a) && a.current < |a.tasks| && Cur(a).state.Run? && TaskHandler in a.outstanding
    ensures BeforeRun(a)
  {
    hide Shape, AtEnd;
    var s :| Waits(a, s) && Matches(s, Cur(a).state);
  }
}
