/** The final status of a task says what has happened to it. */
module TaskRunnerOutcomes {
  import opened Common
  import opened TaskRunnerModel
  import opened TaskRunnerInvariants
  import opened TaskRunnerTheorems

  /** What has happened to the current task: something failed for good, and an abort was in force when the
    * task was completed. */
  datatype Fate = Fate(failed: bool, aborted: bool)

  const CLEAR := Fate(false, false)

  /** The outcomes that are failures: those that are not tried again, and an exit code only if the local
    * watchdog expired or the task is an rhts one. */
  predicate IsFailure(a: App, e: Event)
    requires a.current < |a.tasks|
  {
    match e
    case OnTaskHandler(c) => Cur(a).state.Idle? && !c.readable
    case FetchDone(failed) => failed && (Cur(a).fromPackage || a.fetchRetries >= TASK_FETCH_RETRIES)
    case MetadataDone(failed, _) => failed
    case RolesDone(failed, unusable) => if failed then a.fetchRetries >= ROLE_REFRESH_RETRIES else unusable
    case DependenciesDone(failed) => failed
    case RunDone(rc, localWatchdog) => rc != 0 && (localWatchdog || Cur(a).rhtsCompat)
    case _ => false
  }

  function Observe(k: Fate, a: App, e: Event): Fate {
    if a.current >= |a.tasks| then k
    else if e.OnTaskHandler? && (Cur(a).state.Completed? || Cur(a).state.Next?) then CLEAR
    else if e.OnTaskHandler? && Cur(a).state.Complete? then
      k.(aborted := a.cancelled && a.aborted != NotAborted)
    else k.(failed := k.failed || IsFailure(a, e))
  }

  function Observed(k: Fate, a: App, run: seq<Event>): Fate
    requires IsRun(a, run)
    decreases |run|
  {
    if run == [] then k else Observed(Observe(k, a, run[0]), Step(a, run[0]), run[1..])
  }

  /** The error of the task keeps up with what has happened. */
  predicate Faithful(a: App, k: Fate) {
    a.current < |a.tasks| ==>
      match Cur(a).state
      case Complete => !k.aborted && Cur(a).error == (if k.failed then Some(Failed) else None)
      case Completed => Cur(a).error == (if k.aborted then Some(AbortedByUser) else if k.failed then Some(Failed) else None)
      case _ => k == CLEAR && Cur(a).error.None?
  }

  lemma EarlyFate(a: App, k: Fate, c: Circumstances)
    requires a.current < |a.tasks| && Faithful(a, k)
    requires var s := Cur(a).state; s.Fetch? || s.MetadataParse? || s.RefreshRoles?
    ensures Faithful(HandlerStep(a, c), Observe(k, a, OnTaskHandler(c)))
  {
  }

  lemma IdleFate(a: App, k: Fate, c: Circumstances)
    requires a.current < |a.tasks| && Faithful(a, k) && Cur(a).state.Idle?
    ensures Faithful(HandlerStep(a, c), Observe(k, a, OnTaskHandler(c)))
  {
    var b := HandlerStep(a, c);
    assert k == CLEAR && b.current == a.current && |b.tasks| == |a.tasks|;
    assert Cur(b).error == if c.readable then None else Some(Failed);
    assert !Cur(b).state.Completed? && (c.readable || Cur(b).state.Complete?);
  }

  lemma MiddleFate(a: App, k: Fate, c: Circumstances)
    requires a.current < |a.tasks| && Faithful(a, k)
    requires var s := Cur(a).state; s.Env? || s.Watchdog? || s.Dependencies? || s.Run?
    ensures Faithful(HandlerStep(a, c), Observe(k, a, OnTaskHandler(c)))
  {
  }

  lemma LateFate(a: App, k: Fate, c: Circumstances)
    requires Shape(a) && a.current < |a.tasks| && Faithful(a, k)
    requires var s := Cur(a).state; s.Complete? || s.Completed? || s.Next?
    ensures Faithful(HandlerStep(a, c), Observe(k, a, OnTaskHandler(c)))
  {
  }

  lemma HandlerFate(a: App, k: Fate, c: Circumstances)
    requires Shape(a) && a.current < |a.tasks| && Faithful(a, k)
    ensures Faithful(HandlerStep(a, c), Observe(k, a, OnTaskHandler(c)))
  {
    hide HandlerStep, Faithful, Observe, Shape;
    match Cur(a).state {
      case Idle => IdleFate(a, k, c);
      case Fetch => EarlyFate(a, k, c);
      case MetadataParse => EarlyFate(a, k, c);
      case RefreshRoles => EarlyFate(a, k, c);
      case Env => MiddleFate(a, k, c);
      case Watchdog => MiddleFate(a, k, c);
      case Dependencies => MiddleFate(a, k, c);
      case Run => MiddleFate(a, k, c);
      case Complete => LateFate(a, k, c);
      case Completed => LateFate(a, k, c);
      case Next => LateFate(a, k, c);
    }
  }

  lemma FailedFate(a: App, k: Fate)
    requires a.current < |a.tasks| && !k.aborted
    ensures Faithful(Adds(Fails(a), TaskHandler), k.(failed := true))
    ensures k == CLEAR && Cur(a).error.None? ==> Faithful(Adds(Goto(a, Complete), TaskHandler), k)
  {
  }

  lemma MovedFate(a: App, k: Fate, s: TaskState, source: Source, retries: nat)
    requires a.current < |a.tasks| && k == CLEAR && Cur(a).error.None? && !s.Complete? && !s.Completed?
    ensures Faithful(Adds(Goto(a, s).(fetchRetries := retries), source), k)
    ensures Faithful(Adds(Goto(a, s), source), k)
  {
  }

  lemma WaitingFate(a: App, k: Fate, source: Source, retries: nat)
    requires Faithful(a, k)
    ensures Faithful(Adds(a.(fetchRetries := retries), source), k) && Faithful(Adds(a, source), k)
  {
  }

  lemma FetchFate(a: App, k: Fate, failed: bool)
    requires a.current < |a.tasks| && Faithful(a, k) && Cur(a).state.Fetch?
    ensures Faithful(OnFetchDone(a, failed), Observe(k, a, FetchDone(failed)))
  {
    assert k == CLEAR && Cur(a).error.None?;
    hide Faithful, Adds, Goto, Fails;
    FailedFate(a, k);
    MovedFate(a, k, MetadataParse, TaskHandler, 0);
    WaitingFate(a, k, FetchTimer, a.fetchRetries + 1);
  }

  lemma MetadataFate(a: App, k: Fate, failed: bool, hasMetadata: bool)
    requires a.current < |a.tasks| && Faithful(a, k) && Cur(a).state.MetadataParse?
    ensures Faithful(OnMetadataDone(a, failed, hasMetadata), Observe(k, a, MetadataDone(failed, hasMetadata)))
  {
    assert k == CLEAR && Cur(a).error.None?;
    hide Faithful, Adds, Goto, Fails;
    FailedFate(a, k);
    MovedFate(a, k, RefreshRoles, TaskHandler, 0);
  }

  lemma RolesFate(a: App, k: Fate, failed: bool, unusable: bool)
    requires a.current < |a.tasks| && Faithful(a, k) && Cur(a).state.RefreshRoles?
    ensures Faithful(OnRolesDone(a, failed, unusable), Observe(k, a, RolesDone(failed, unusable)))
  {
    assert k == CLEAR && Cur(a).error.None?;
    hide Faithful, Adds, Goto, Fails;
    FailedFate(a, k);
    MovedFate(a, k, Env, TaskHandler, 0);
    WaitingFate(a, k, RolesTimer, a.fetchRetries + 1);
  }

  lemma DependenciesFate(a: App, k: Fate, failed: bool)
    requires a.current < |a.tasks| && Faithful(a, k) && Cur(a).state.Run?
    ensures Faithful(OnDependenciesDone(a, failed), Observe(k, a, DependenciesDone(failed)))
  {
    assert k == CLEAR && Cur(a).error.None?;
    hide Faithful, Adds, Goto, Fails;
    FailedFate(a, k);
    MovedFate(a, k, Run, TaskHandler, 0);
  }

  lemma RunFate(a: App, k: Fate, rc: int, localWatchdog: bool)
    requires a.current < |a.tasks| && Faithful(a, k) && Cur(a).state.Run?
    ensures Faithful(OnRunDone(a, rc, localWatchdog), Observe(k, a, RunDone(rc, localWatchdog)))
  {
  }

  lemma RetryFate(a: App, k: Fate, s: TaskState)
    requires a.current < |a.tasks| && Faithful(a, k) && Cur(a).state == s && (s.Fetch? || s.RefreshRoles?)
    ensures Faithful(Adds(Goto(a, s), TaskHandler), k)
  {
    assert k == CLEAR && Cur(a).error.None?;
    hide Faithful, Adds, Goto;
    MovedFate(a, k, s, TaskHandler, 0);
  }

  lemma AnswerFate(a: App, k: Fate, e: Event)
    requires a.current < |a.tasks| && Faithful(a, k)
    requires SourceOf(e).Some? && NeedsTask(e) && Matches(SourceOf(e).value, Cur(a).state)
    ensures Faithful(Callback(a, e), Observe(k, a, e))
  {
    hide Faithful, OnFetchDone, OnMetadataDone, OnRolesDone, OnRunDone, OnDependenciesDone, Goto, Adds;
    match e {
      case FetchDone(failed) => FetchFate(a, k, failed);
      case MetadataDone(failed, hasMetadata) => MetadataFate(a, k, failed, hasMetadata);
      case RolesDone(failed, unusable) => RolesFate(a, k, failed, unusable);
      case RunDone(rc, localWatchdog) => RunFate(a, k, rc, localWatchdog);
      case DependenciesDone(failed) => DependenciesFate(a, k, failed);
      case FetchRetry => RetryFate(a, k, Fetch);
      case RolesRetry => RetryFate(a, k, RefreshRoles);
      case StatusSent => WaitingFate(a, k, TaskHandler, a.fetchRetries);
      case WatchdogSent => WaitingFate(a, k, TaskHandler, a.fetchRetries);
      case PluginsDone => WaitingFate(a, k, TaskHandler, a.fetchRetries);
      case _ =>
    }
  }

  lemma FlagsFate(a: App, b: App, k: Fate, e: Event)
    requires Faithful(a, k) && b == a.(aborted := b.aborted, cancelled := b.cancelled) && SourceOf(e).None?
    ensures Faithful(b, Observe(k, a, e))
  {
  }

  lemma SourcelessFate(a: App, k: Fate, e: Event)
    requires Faithful(a, k)
    ensures Faithful(a.(outstanding := multiset{}), k)
    ensures Observe(k, a.(outstanding := multiset{}), e) == Observe(k, a, e)
  {
  }

  lemma StepFate(a: App, k: Fate, e: Event)
    requires Valid(a) && Enabled(a, e) && Faithful(a, k)
    ensures Faithful(Step(a, e), Observe(k, a, e))
  {
    hide Step, Valid, Faithful, Observe, Enabled;
    if SourceOf(e).None? {
      RequestStep(a, e);
      FlagsFate(a, Step(a, e), k, e);
    } else if a.current < |a.tasks| {
      TaskFate(a, k, e);
    } else {
      LastFate(a, k, e);
    }
  }

  lemma TaskFate(a: App, k: Fate, e: Event)
    requires Valid(a) && Enabled(a, e) && Faithful(a, k) && SourceOf(e).Some? && a.current < |a.tasks|
    ensures Faithful(Step(a, e), Observe(k, a, e))
  {
    hide Step, Callback, Shape, AtEnd, Faithful, Observe, HandlerStep;
    var s :| Waits(a, s) && Matches(s, Cur(a).state);
    TaskStep(a, e, s);
    ShapeHasNoSource(a);
    SourcelessFate(a, k, e);
    if e.OnTaskHandler? {
      HandlerFate(a.(outstanding := multiset{}), k, e.c);
      HandlerCallback(a.(outstanding := multiset{}), e);
    } else {
      AnswerFate(a.(outstanding := multiset{}), k, e);
    }
  }

  lemma LastFate(a: App, k: Fate, e: Event)
    requires Valid(a) && Enabled(a, e) && SourceOf(e).Some? && a.current >= |a.tasks|
    ensures Faithful(Step(a, e), Observe(k, a, e))
  {
    hide Step, AtEnd;
    LastStep(a, e);
  }

  lemma {:induction false} RunFates(a: App, k: Fate, run: seq<Event>)
    requires Valid(a) && Faithful(a, k) && IsRun(a, run)
    ensures Faithful(After(a, run), Observed(k, a, run)) && Valid(After(a, run))
    decreases |run|
  {
    hide Step, Valid, Faithful, Observe;
    if run != [] {
      StepKeepsValid(a, run[0]);
      StepFate(a, k, run[0]);
      RunFates(Step(a, run[0]), Observe(k, a, run[0]), run[1..]);
    }
  }

  /** The status that a fate calls for. */
  function FinalStatus(k: Fate): Status {
    if k.aborted then StatusAborted(AbortedByUser)
    else if k.failed then StatusAborted(Failed)
    else StatusCompleted
  }

  lemma CompletedPosts(a: App, k: Fate, c: Circumstances)
    requires a.current < |a.tasks| && Cur(a).state.Completed? && Faithful(a, k) && TaskHandler in a.outstanding
    ensures Step(a, OnTaskHandler(c)).posts == a.posts + [Post(a.current, FinalStatus(k))]
  {
  }

  /** In every run the status posted for a task that is completed is Aborted by the user exactly if an abort was
    * in force when it completed, Aborted with an error exactly if something failed for good since it began,
    * and Completed exactly if neither is so. */
  lemma StatusTellsWhatHappened(tasks: seq<Task>, url: bool, run: seq<Event>, c: Circumstances)
    requires FreshRecipe(tasks) && IsRun(Begin(tasks, url), run)
    requires var a := After(Begin(tasks, url), run);
             a.current < |a.tasks| && Cur(a).state.Completed? && Enabled(a, OnTaskHandler(c))
    ensures var a := After(Begin(tasks, url), run); var k := Observed(CLEAR, Begin(tasks, url), run);
            Step(a, OnTaskHandler(c)).posts == a.posts + [Post(a.current, FinalStatus(k))]
  {
    hide Step, Valid, Observed;
    BeginIsValid(tasks, url);
    assert tasks[0] in tasks;
    RunFates(Begin(tasks, url), CLEAR, run);
    CompletedPosts(After(Begin(tasks, url), run), Observed(CLEAR, Begin(tasks, url), run), c);
  }
}
