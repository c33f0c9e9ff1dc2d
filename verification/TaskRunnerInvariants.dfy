/** What every run of the task state machine keeps, and where it ends. */
module TaskRunnerInvariants {
  import opened Common
  import opened TaskRunnerModel

  /** The states a task can be in while `s` is what the machine waits for. */
  predicate Matches(s: Source, state: TaskState) {
    match s
    case TaskHandler => true
    case FetchOp => state.Fetch?
    case FetchTimer => state.Fetch?
    case MetadataOp => state.MetadataParse?
    case RolesOp => state.RefreshRoles?
    case RolesTimer => state.RefreshRoles?
    case StatusMessage => state.Fetch? || state.Next?
    case WatchdogMessage => state.Dependencies?
    case DependencyOp => state.Run?
    case RunOp => state.Run?
    case PluginsOp => state.Complete?
    case RecipeHandler => false
  }

  /** A task that has to report how it ended: any that was not finished before, and one whose config
    * section could not be read even if it was. */
  predicate Reports(t: Task) {
    !t.finished || t.unreadable
  }

  function Reporting(tasks: seq<Task>, n: nat): seq<nat>
    requires n <= |tasks|
  {
    if n == 0 then []
    else Reporting(tasks, n - 1) + (if Reports(tasks[n - 1]) then [n - 1] else [])
  }

  predicate IsFinal(p: Post) {
    !p.status.StatusRunning?
  }

  /** The tasks whose Completed or Aborted status has been posted, in the order of posting. */
  function Finals(posts: seq<Post>): seq<nat> {
    if posts == [] then []
    else Finals(posts[..|posts| - 1]) + (if IsFinal(posts[|posts| - 1]) then [posts[|posts| - 1].task] else [])
  }

  predicate CurrentOk(a: App)
    requires a.current < |a.tasks|
  {
    var t := Cur(a);
    && a.recipe == Running
    && (t.state.Fetch? ==> a.fetchRetries <= TASK_FETCH_RETRIES)
    && (t.state.RefreshRoles? ==> a.fetchRetries <= ROLE_REFRESH_RETRIES)
    && (t.finished ==> t.state.Idle? || t.state.Next? || (t.unreadable && (t.state.Complete? || t.state.Completed?)))
    && (t.error.Some? ==> t.state.Complete? || t.state.Completed?)
    && (t.state.Idle? ==> !t.unreadable)
    && Finals(a.posts) == Reporting(a.tasks, a.current) + (if t.state.Next? && Reports(t) then [a.current] else [])
  }

  predicate Shape(a: App) {
    && a.current <= |a.tasks|
    && (a.current < |a.tasks| ==> CurrentOk(a))
    && (forall j :: a.current < j < |a.tasks| ==> Fresh(a.tasks[j]))
  }

  predicate AtEnd(a: App) {
    && a.aborted == NotAborted && Finals(a.posts) == Reporting(a.tasks, |a.tasks|)
    && (|| (a.recipe == RecipeComplete && a.outstanding == multiset{RecipeHandler})
        || (a.recipe == RecipeIdle && a.outstanding == multiset{} && !a.cancelled))
  }

  predicate Waits(a: App, s: Source) {
    a.outstanding == multiset{s}
  }

  predicate Valid(a: App) {
    && Shape(a)
    && (a.current == |a.tasks| ==> AtEnd(a))
    && (a.current < |a.tasks| ==> exists s :: Waits(a, s) && Matches(s, Cur(a).state))
  }

  // ---- bookkeeping ----------------------------------------------------------------------------------

  lemma {:induction false} UpdateKeepsReporting(tasks: seq<Task>, k: nat, t: Task, n: nat)
    requires n <= k < |tasks|
    ensures Reporting(tasks[k := t], n) == Reporting(tasks, n)
    decreases n
  {
    if n > 0 {
      UpdateKeepsReporting(tasks, k, t, n - 1);
    }
  }

  lemma FinalsGrow(posts: seq<Post>, p: Post)
    ensures Finals(posts + [p]) == Finals(posts) + (if IsFinal(p) then [p.task] else [])
  {
    assert (posts + [p])[..|posts|] == posts;
  }

  // ---- one step -------------------------------------------------------------------------------------

  /** Changing the current task within the rules, and waiting for what fits its state. */
  lemma CurKeepsValid(a: App, b: App, t: Task, s: Source)
    requires Shape(a) && a.current < |a.tasks|
    requires b.tasks == a.tasks[a.current := t] && b.current == a.current && b.recipe == a.recipe
    requires b.posts == a.posts && b.outstanding == multiset{s} && Matches(s, t.state)
    requires t.finished == Cur(a).finished && t.state.Next? == Cur(a).state.Next?
    requires t.state.Next? ==> Reports(t) == Reports(Cur(a))
    requires t.state.Fetch? ==> b.fetchRetries <= TASK_FETCH_RETRIES
    requires t.state.RefreshRoles? ==> b.fetchRetries <= ROLE_REFRESH_RETRIES
    requires t.finished ==> t.state.Idle? || t.state.Next? || (t.unreadable && (t.state.Complete? || t.state.Completed?))
    requires t.error.Some? ==> t.state.Complete? || t.state.Completed?
    requires t.state.Idle? ==> !t.unreadable
    ensures Valid(b)
  {
    UpdateKeepsReporting(a.tasks, a.current, t, a.current);
    assert Waits(b, s);
  }

  lemma IdleStep(a: App, c: Circumstances)
    requires Shape(a) && a.current < |a.tasks| && a.outstanding == multiset{} && Cur(a).state.Idle?
    ensures Valid(HandlerStep(a, c))
  {
    hide Finals, Reporting, Fresh;
    var t := Cur(a);
    var b := HandlerStep(a, c);
    if !c.readable {
      CurKeepsValid(a, b, t.(state := Complete, error := Some(Failed), unreadable := true), TaskHandler);
    } else {
      var t' := t.(started := c.started, localWatchdog := c.localWatchdog);
      UpdateKeepsReporting(a.tasks, a.current, Cur(b), a.current);
      if t.finished {
        assert Waits(b, TaskHandler);
      } else if a.cancelled || t'.localWatchdog {
        CurKeepsValid(a, b, t'.(state := Complete), TaskHandler);
      } else if t'.started {
        CurKeepsValid(a, b, t'.(state := MetadataParse), TaskHandler);
      } else {
        FinalsGrow(a.posts, Post(a.current, StatusRunning));
        assert Waits(b, StatusMessage);
      }
    }
  }

  /** Posting the final status. */
  lemma CompletedStep(a: App, c: Circumstances)
    requires Shape(a) && a.current < |a.tasks| && a.outstanding == multiset{} && Cur(a).state.Completed?
    ensures Valid(HandlerStep(a, c))
  {
    hide Finals, Reporting, Fresh;
    var t := Cur(a);
    var b := HandlerStep(a, c);
    UpdateKeepsReporting(a.tasks, a.current, Cur(b), a.current);
    FinalsGrow(a.posts, Post(a.current, if t.error.Some? then StatusAborted(t.error.value) else StatusCompleted));
    assert Waits(b, StatusMessage);
  }

  lemma NextStep(a: App, c: Circumstances)
    requires Shape(a) && a.current < |a.tasks| && a.outstanding == multiset{} && Cur(a).state.Next?
    ensures Valid(HandlerStep(a, c))
  {
    var b := HandlerStep(a, c);
    if b.current < |b.tasks| {
      UpdateKeepsReporting(a.tasks, b.current, Cur(b), b.current);
      assert Waits(b, TaskHandler);
    }
  }

  /** The steps that fetch the task, its metadata and its roles. */
  lemma FetchingStep(a: App, c: Circumstances)
    requires Shape(a) && a.current < |a.tasks| && a.outstanding == multiset{}
    requires Cur(a).state.Fetch? || Cur(a).state.MetadataParse? || Cur(a).state.RefreshRoles?
    ensures Valid(HandlerStep(a, c))
  {
    var b := HandlerStep(a, c);
    assert a.tasks[a.current := Cur(a)] == a.tasks;
    match Cur(a).state
    case Fetch => CurKeepsValid(a, b, Cur(b), if c.wait then TaskHandler else FetchOp);
    case MetadataParse => CurKeepsValid(a, b, Cur(b), MetadataOp);
    case RefreshRoles =>
      CurKeepsValid(a, b, Cur(b), if !a.hasRecipeUrl || c.wait then TaskHandler else RolesOp);
  }

  /** The steps that prepare the task's run. */
  lemma PreparingStep(a: App, c: Circumstances)
    requires Shape(a) && a.current < |a.tasks| && a.outstanding == multiset{}
    requires Cur(a).state.Env? || Cur(a).state.Watchdog?
    ensures Valid(HandlerStep(a, c))
  {
    hide Valid;
    var b := HandlerStep(a, c);
    CurKeepsValid(a, b, Cur(b), if Cur(a).state.Env? || Cur(a).started then TaskHandler else WatchdogMessage);
  }

  lemma DependenciesStep(a: App, c: Circumstances)
    requires Shape(a) && a.current < |a.tasks| && a.outstanding == multiset{} && Cur(a).state.Dependencies?
    ensures Valid(HandlerStep(a, c))
  {
    hide Valid;
    var t := Cur(a);
    var b := HandlerStep(a, c);
    assert a.tasks[a.current := t] == a.tasks;
    CurKeepsValid(a, b, Cur(b), if t.started || c.wait || c.noDependencies then TaskHandler else DependencyOp);
  }

  lemma RunningStep(a: App, c: Circumstances)
    requires Shape(a) && a.current < |a.tasks| && a.outstanding == multiset{}
    requires Cur(a).state.Run? || Cur(a).state.Complete?
    ensures Valid(HandlerStep(a, c))
  {
    var b := HandlerStep(a, c);
    CurKeepsValid(a, b, Cur(b), if Cur(a).state.Run? && !a.cancelled then RunOp else TaskHandler);
  }

  lemma HandlerStepKeepsValid(a: App, c: Circumstances)
    requires Shape(a) && a.current < |a.tasks| && a.outstanding == multiset{}
    ensures Valid(HandlerStep(a, c))
  {
    match Cur(a).state
    case Idle => IdleStep(a, c);
    case Fetch => FetchingStep(a, c);
    case MetadataParse => FetchingStep(a, c);
    case RefreshRoles => FetchingStep(a, c);
    case Env => PreparingStep(a, c);
    case Watchdog => PreparingStep(a, c);
    case Dependencies => DependenciesStep(a, c);
    case Run => RunningStep(a, c);
    case Complete => RunningStep(a, c);
    case Completed => CompletedStep(a, c);
    case Next => NextStep(a, c);
  }

  lemma FetchAnswer(a: App, failed: bool)
    requires Shape(a) && a.current < |a.tasks| && a.outstanding == multiset{} && Cur(a).state.Fetch?
    ensures Valid(OnFetchDone(a, failed))
  {
    var b := OnFetchDone(a, failed);
    var again := failed && !Cur(a).fromPackage && a.fetchRetries < TASK_FETCH_RETRIES;
    assert a.tasks[a.current := Cur(a)] == a.tasks;
    CurKeepsValid(a, b, Cur(b), if again then FetchTimer else TaskHandler);
  }

  lemma MetadataAnswer(a: App, failed: bool, hasMetadata: bool)
    requires Shape(a) && a.current < |a.tasks| && a.outstanding == multiset{} && Cur(a).state.MetadataParse?
    ensures Valid(OnMetadataDone(a, failed, hasMetadata))
  {
    var b := OnMetadataDone(a, failed, hasMetadata);
    CurKeepsValid(a, b, Cur(b), TaskHandler);
  }

  lemma RolesAnswer(a: App, failed: bool, unusable: bool)
    requires Shape(a) && a.current < |a.tasks| && a.outstanding == multiset{} && Cur(a).state.RefreshRoles?
    ensures Valid(OnRolesDone(a, failed, unusable))
  {
    var b := OnRolesDone(a, failed, unusable);
    assert a.tasks[a.current := Cur(a)] == a.tasks;
    CurKeepsValid(a, b, Cur(b), if failed && a.fetchRetries < ROLE_REFRESH_RETRIES then RolesTimer else TaskHandler);
  }

  lemma RunAnswer(a: App, rc: int, localWatchdog: bool)
    requires Shape(a) && a.current < |a.tasks| && a.outstanding == multiset{} && Cur(a).state.Run?
    ensures Valid(OnRunDone(a, rc, localWatchdog))
  {
    var b := OnRunDone(a, rc, localWatchdog);
    CurKeepsValid(a, b, Cur(b), PluginsOp);
  }

  /** Answers that give the handler back without looking at a retry count. */
  lemma PlainAnswer(a: App, b: App, t: Task)
    requires Shape(a) && a.current < |a.tasks| && a.outstanding == multiset{}
    requires b == Adds(WithCur(a, t), TaskHandler)
    requires t == Cur(a) || (Cur(a).state.Fetch? && t == Cur(a).(state := Fetch))
          || (Cur(a).state.RefreshRoles? && t == Cur(a).(state := RefreshRoles))
          || (Cur(a).state.Run? && t == Cur(a).(state := Run))
          || (Cur(a).state.Run? && t == Cur(a).(state := Complete, error := Some(Failed)))
    ensures Valid(b)
  {
    CurKeepsValid(a, b, t, TaskHandler);
  }

  /** An abort request changes the abort flags and nothing else. */
  lemma RequestStep(a: App, e: Event)
    requires Enabled(a, e) && SourceOf(e).None?
    ensures a.current < |a.tasks| && Step(a, e) == a.(aborted := Step(a, e).aborted, cancelled := true)
  {
  }

  /** Behind the last task only recipe_handler is left to run. */
  lemma LastStep(a: App, e: Event)
    requires Valid(a) && Enabled(a, e) && a.current == |a.tasks|
    ensures e.OnRecipeHandler? && a.recipe == RecipeComplete
    ensures Step(a, e) == a.(recipe := RecipeIdle, cancelled := false, outstanding := multiset{})
  {
    assert SourceOf(e).value in a.outstanding;
  }

  /** While a task is current, only the callback of the one outstanding source can come. */
  lemma TaskStep(a: App, e: Event, s: Source)
    requires Waits(a, s) && Enabled(a, e) && SourceOf(e).Some?
    ensures SourceOf(e) == Some(s) && Step(a, e) == Callback(a.(outstanding := multiset{}), e)
  {
    hide Callback;
    assert Removes(a, s).outstanding == multiset{};
  }

  lemma HandlerCallback(a: App, e: Event)
    requires e.OnTaskHandler? && a.current < |a.tasks|
    ensures Callback(a, e) == HandlerStep(a, e.c)
  {
    hide HandlerStep;
  }

  lemma FlagsDoNotMatter(a: App, b: App)
    requires Valid(a) && a.current < |a.tasks| && b == a.(aborted := b.aborted, cancelled := b.cancelled)
    ensures Valid(b)
  {
    var s :| Waits(a, s) && Matches(s, Cur(a).state);
    assert Waits(b, s);
  }

  lemma ShapeHasNoSource(a: App)
    requires Shape(a)
    ensures Shape(a.(outstanding := multiset{}))
  {
  }

  lemma LastStepKeepsValid(a: App, e: Event)
    requires Valid(a) && Enabled(a, e) && a.current == |a.tasks|
    ensures Valid(Step(a, e))
  {
    hide Step;
    LastStep(a, e);
  }

  lemma StepKeepsValid(a: App, e: Event)
    requires Valid(a) && Enabled(a, e)
    ensures Valid(Step(a, e))
  {
    if SourceOf(e).None? {
      hide Valid, Step;
      RequestStep(a, e);
      FlagsDoNotMatter(a, Step(a, e));
    } else if a.current < |a.tasks| {
      hide Callback, Shape, AtEnd;
      var s :| Waits(a, s) && Matches(s, Cur(a).state);
      TaskStep(a, e, s);
      ShapeHasNoSource(a);
      hide Valid, Step;
      TaskEventKeepsValid(a.(outstanding := multiset{}), e);
    } else {
      hide Step, AtEnd, CurrentOk;
      LastStepKeepsValid(a, e);
    }
  }

  lemma TaskEventKeepsValid(a: App, e: Event)
    requires Shape(a) && a.current < |a.tasks| && a.outstanding == multiset{}
    requires SourceOf(e).Some? && Matches(SourceOf(e).value, Cur(a).state)
    ensures Valid(Callback(a, e))
  {
    hide HandlerStep, Valid, OnFetchDone, OnMetadataDone, OnRolesDone, OnRunDone;
    assert a.tasks[a.current := Cur(a)] == a.tasks;
    match e
    case OnTaskHandler(c) => HandlerStepKeepsValid(a, c);
    case FetchDone(failed) => FetchAnswer(a, failed);
    case MetadataDone(failed, hasMetadata) => MetadataAnswer(a, failed, hasMetadata);
    case RolesDone(failed, unusable) => RolesAnswer(a, failed, unusable);
    case RunDone(rc, localWatchdog) => RunAnswer(a, rc, localWatchdog);
    case FetchRetry => PlainAnswer(a, Callback(a, e), Cur(a).(state := Fetch));
    case RolesRetry => PlainAnswer(a, Callback(a, e), Cur(a).(state := RefreshRoles));
    case StatusSent => PlainAnswer(a, Callback(a, e), Cur(a));
    case WatchdogSent => PlainAnswer(a, Callback(a, e), Cur(a));
    case PluginsDone => PlainAnswer(a, Callback(a, e), Cur(a));
    case DependenciesDone(failed) =>
      PlainAnswer(a, Callback(a, e), if failed then Cur(a).(state := Complete, error := Some(Failed))
                                     else Cur(a).(state := Run));
    case _ =>
  }

  lemma FirstStep(a: App, e: Event, run: seq<Event>)
    requires Enabled(a, e) && IsRun(Step(a, e), run)
    ensures IsRun(a, [e] + run) && After(a, [e] + run) == After(Step(a, e), run)
  {
    assert ([e] + run)[1..] == run;
  }

  lemma {:induction false} RunKeepsValid(a: App, run: seq<Event>)
    requires Valid(a) && IsRun(a, run)
    ensures Valid(After(a, run))
    decreases |run|
  {
    if run != [] {
      StepKeepsValid(a, run[0]);
      RunKeepsValid(Step(a, run[0]), run[1..]);
    }
  }

  lemma BeginIsValid(tasks: seq<Task>, hasRecipeUrl: bool)
    requires tasks != [] && forall t :: t in tasks ==> Fresh(t)
    ensures Valid(Begin(tasks, hasRecipeUrl))
  {
    assert tasks[0] in tasks;
    assert Waits(Begin(tasks, hasRecipeUrl), TaskHandler);
  }
}
