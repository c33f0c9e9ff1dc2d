/** Whole runs of a recipe: one continuation, one final status per task, termination. */
module TaskRunnerTheorems {
  import opened Common
  import opened TaskRunnerModel
  import opened TaskRunnerInvariants

  /** A recipe as it is when its tasks have just been parsed. */
  predicate FreshRecipe(tasks: seq<Task>) {
    tasks != [] && forall t :: t in tasks ==> Fresh(t)
  }

  /** At every moment exactly one thing will call the machine back until the recipe is idle, and retries
    * stay within their limits. */
  lemma OneContinuation(tasks: seq<Task>, url: bool, run: seq<Event>)
    requires FreshRecipe(tasks) && IsRun(Begin(tasks, url), run)
    ensures var a := After(Begin(tasks, url), run);
            && |a.outstanding| == (if a.recipe.RecipeIdle? then 0 else 1)
            && (a.current < |a.tasks| && Cur(a).state.Fetch? ==> a.fetchRetries <= TASK_FETCH_RETRIES)
            && (a.current < |a.tasks| && Cur(a).state.RefreshRoles? ==> a.fetchRetries <= ROLE_REFRESH_RETRIES)
  {
    BeginIsValid(tasks, url);
    RunKeepsValid(Begin(tasks, url), run);
    var a := After(Begin(tasks, url), run);
    if a.current < |a.tasks| {
      var s :| Waits(a, s) && Matches(s, Cur(a).state);
    }
  }

  /** Final statuses are posted in list order: one by each task behind the current one that had to
    * report, none by the others, and the current one's as its last act. */
  lemma FinalsInOrder(tasks: seq<Task>, url: bool, run: seq<Event>)
    requires FreshRecipe(tasks) && IsRun(Begin(tasks, url), run)
    ensures var a := After(Begin(tasks, url), run);
            && a.current <= |a.tasks|
            && Finals(a.posts) == Reporting(a.tasks, a.current)
                 + (if a.current < |a.tasks| && Cur(a).state.Next? && Reports(Cur(a)) then [a.current] else [])
  {
    BeginIsValid(tasks, url);
    RunKeepsValid(Begin(tasks, url), run);
  }

  /** When nothing is outstanding any more the recipe is idle, every task that had to has reported, and
    * neither the abort flag nor the cancellation is left over for the next recipe. */
  lemma NothingLeftMeansIdle(tasks: seq<Task>, url: bool, run: seq<Event>)
    requires FreshRecipe(tasks) && IsRun(Begin(tasks, url), run)
    requires After(Begin(tasks, url), run).outstanding == multiset{}
    ensures var a := After(Begin(tasks, url), run);
            && a.recipe == RecipeIdle && a.aborted == NotAborted && !a.cancelled
            && a.current == |a.tasks| && Finals(a.posts) == Reporting(a.tasks, |a.tasks|)
  {
    OneContinuation(tasks, url, run);
    BeginIsValid(tasks, url);
    RunKeepsValid(Begin(tasks, url), run);
  }

  /** A recipe without tasks never completes: its task handler removes itself and nothing is left. */
  lemma EmptyRecipeHangs(url: bool, c: Circumstances)
    ensures var a := Begin([], url);
            && Enabled(a, OnTaskHandler(c))
            && Step(a, OnTaskHandler(c)).outstanding == multiset{}
            && Step(a, OnTaskHandler(c)).recipe == Running
            && forall e :: !Enabled(Step(a, OnTaskHandler(c)), e)
  {
    var b := Step(Begin([], url), OnTaskHandler(c));
    assert b.outstanding == multiset{};
    forall e ensures !Enabled(b, e) {
      assert SourceOf(e).Some? ==> SourceOf(e).value !in b.outstanding;
    }
  }

  // ---- a task without metadata ----------------------------------------------------------------------

  /** The current task is at `state` without an error, no abort is in force and the handler comes next. */
  predicate Undisturbed(a: App, state: TaskState) {
    && a.current < |a.tasks| && Cur(a).state == state && Cur(a).error.None?
    && a.aborted == NotAborted && a.outstanding == multiset{TaskHandler}
  }

  lemma WithoutMetadata(a: App)
    requires a.current < |a.tasks| && Cur(a).state.MetadataParse? && Cur(a).error.None?
    requires a.aborted == NotAborted && a.outstanding == multiset{MetadataOp}
    ensures var b := Step(a, MetadataDone(false, false));
            Undisturbed(b, Complete) && b.current == a.current && b.posts == a.posts && b.runs == a.runs
  {
  }

  lemma UndisturbedComplete(a: App, c: Circumstances)
    requires Undisturbed(a, Complete)
    ensures var b := Step(a, OnTaskHandler(c));
            Undisturbed(b, Completed) && b.current == a.current && b.posts == a.posts && b.runs == a.runs
  {
  }

  lemma UndisturbedCompleted(a: App, c: Circumstances)
    requires Undisturbed(a, Completed)
    ensures var b := Step(a, OnTaskHandler(c));
            b.posts == a.posts + [Post(a.current, StatusCompleted)] && b.runs == a.runs
  {
  }

  /** Completed does not mean run: a task whose metadata is missing without an error is reported Completed
    * two handler steps later and has not been run. */
  lemma CompletedWithoutRunning(a: App, c: Circumstances)
    requires a.current < |a.tasks| && Cur(a).state.MetadataParse? && Cur(a).error.None?
    requires a.aborted == NotAborted && a.outstanding == multiset{MetadataOp}
    ensures var run := [MetadataDone(false, false), OnTaskHandler(c), OnTaskHandler(c)];
            && IsRun(a, run) && After(a, run).runs == a.runs
            && After(a, run).posts == a.posts + [Post(a.current, StatusCompleted)]
  {
    var e := OnTaskHandler(c);
    WithoutMetadata(a);
    var s1 := Step(a, MetadataDone(false, false));
    UndisturbedComplete(s1, c);
    var s2 := Step(s1, e);
    UndisturbedCompleted(s2, c);
    FirstStep(s2, e, []);
    FirstStep(s1, e, [e]);
    FirstStep(a, MetadataDone(false, false), [e, e]);
    assert [MetadataDone(false, false), e, e] == [MetadataDone(false, false)] + [e, e];
  }

  // ---- termination ----------------------------------------------------------------------------------

  function Rank(s: TaskState): nat {
    match s
    case Idle => 11
    case Fetch => 10
    case MetadataParse => 9
    case RefreshRoles => 8
    case Env => 7
    case Watchdog => 6
    case Dependencies => 5
    case Run => 4
    case Complete => 3
    case Completed => 2
    case Next => 1
  }

  function SourceRank(s: Source): nat {
    match s
    case TaskHandler => 3
    case FetchTimer => 4
    case RolesTimer => 4
    case StatusMessage => 4
    case WatchdogMessage => 4
    case DependencyOp => 4
    case PluginsOp => 4
    case _ => 2
  }

  function RetriesLeft(a: App): int
    requires a.current < |a.tasks|
  {
    match Cur(a).state
    case Fetch => TASK_FETCH_RETRIES - a.fetchRetries
    case RefreshRoles => ROLE_REFRESH_RETRIES - a.fetchRetries
    case _ => 0
  }

  /** Tasks left, then the state of the current one, then its retries, then what it waits for. */
  function Work(a: App, s: Source): int
    requires a.current <= |a.tasks|
  {
    if a.current < |a.tasks| then
      (|a.tasks| - a.current) * 2400 + Rank(Cur(a).state) * 200 + RetriesLeft(a) * 5 + SourceRank(s)
    else if a.recipe.RecipeIdle? then 0 else 1
  }

  /** A handler step that only waits for the recipe to become healthy. */
  predicate Waiting(a: App, e: Event) {
    e.OnTaskHandler? && e.c.wait && a.current < |a.tasks| &&
    match Cur(a).state
    case Fetch => true
    case RefreshRoles => a.hasRecipeUrl
    case Dependencies => !Cur(a).started
    case _ => false
  }

  predicate Progress(a: App, e: Event) {
    SourceOf(e).Some? && !Waiting(a, e)
  }

  /** What a handler step adds to the outstanding sources. */
  function HandlerSource(a: App, c: Circumstances): Source
    requires a.current < |a.tasks|
  {
    var t := Cur(a);
    match t.state
    case Idle =>
      if c.readable && !t.finished && !a.cancelled && !c.localWatchdog && !c.started then StatusMessage else TaskHandler
    case Fetch => if c.wait then TaskHandler else FetchOp
    case MetadataParse => MetadataOp
    case RefreshRoles => if !a.hasRecipeUrl || c.wait then TaskHandler else RolesOp
    case Env => TaskHandler
    case Watchdog => if t.started then TaskHandler else WatchdogMessage
    case Dependencies => if t.started || c.wait || c.noDependencies then TaskHandler else DependencyOp
    case Run => if a.cancelled then TaskHandler else RunOp
    case Complete => TaskHandler
    case Completed => StatusMessage
    case Next => if a.current + 1 < |a.tasks| then TaskHandler else RecipeHandler
  }

  lemma EarlyHandlerAdds(a: App, c: Circumstances)
    requires a.current < |a.tasks|
    requires var t := Cur(a).state; t.Idle? || t.Fetch? || t.MetadataParse? || t.RefreshRoles?
    ensures HandlerStep(a, c).outstanding == a.outstanding + multiset{HandlerSource(a, c)}
  {
  }

  lemma MiddleHandlerAdds(a: App, c: Circumstances)
    requires a.current < |a.tasks|
    requires var t := Cur(a).state; t.Env? || t.Watchdog? || t.Dependencies? || t.Run?
    ensures HandlerStep(a, c).outstanding == a.outstanding + multiset{HandlerSource(a, c)}
  {
  }

  lemma LateHandlerAdds(a: App, c: Circumstances)
    requires a.current < |a.tasks|
    requires var t := Cur(a).state; t.Complete? || t.Completed? || t.Next?
    ensures HandlerStep(a, c).outstanding == a.outstanding + multiset{HandlerSource(a, c)}
  {
  }

  lemma HandlerAdds(a: App, c: Circumstances)
    requires a.current < |a.tasks|
    ensures HandlerStep(a, c).outstanding == a.outstanding + multiset{HandlerSource(a, c)}
  {
    hide HandlerStep, HandlerSource;
    match Cur(a).state {
      case Idle => EarlyHandlerAdds(a, c);
      case Fetch => EarlyHandlerAdds(a, c);
      case MetadataParse => EarlyHandlerAdds(a, c);
      case RefreshRoles => EarlyHandlerAdds(a, c);
      case Env => MiddleHandlerAdds(a, c);
      case Watchdog => MiddleHandlerAdds(a, c);
      case Dependencies => MiddleHandlerAdds(a, c);
      case Run => MiddleHandlerAdds(a, c);
      case _ => LateHandlerAdds(a, c);
    }
  }

  /** Staying with the task but moving on to a later state. */
  lemma LaterState(a: App, b: App, s: Source, s': Source)
    requires a.current < |a.tasks| && b.current == a.current && |b.tasks| == |a.tasks|
    requires Rank(Cur(b).state) < Rank(Cur(a).state) && RetriesLeft(a) >= 0
    requires Cur(b).state.Fetch? || Cur(b).state.RefreshRoles? ==> b.fetchRetries == 0
    ensures Work(b, s') < Work(a, s)
  {
  }

  /** Staying in the same state with a nearer source, or with one retry less. */
  lemma SameState(a: App, b: App, s: Source, s': Source)
    requires a.current < |a.tasks| && b.current == a.current && |b.tasks| == |a.tasks|
    requires Cur(b).state == Cur(a).state
    requires || (b.fetchRetries == a.fetchRetries && SourceRank(s') < SourceRank(s))
             || (b.fetchRetries == a.fetchRetries + 1 && (Cur(a).state.Fetch? || Cur(a).state.RefreshRoles?))
    ensures Work(b, s') < Work(a, s)
  {
  }

  lemma WaitingForOperation(a: App, c: Circumstances)
    requires a.current < |a.tasks| && !Waiting(a, OnTaskHandler(c))
    requires var t := Cur(a).state; t.Fetch? || t.MetadataParse? || t.RefreshRoles? || t.Run?
    requires RetriesLeft(a) >= 0
    ensures var b := HandlerStep(a, c);
            b.current == a.current && |b.tasks| == |a.tasks| && Work(b, HandlerSource(a, c)) < Work(a, TaskHandler)
  {
    hide Work;
    var b := HandlerStep(a, c);
    if Cur(b).state == Cur(a).state {
      SameState(a, b, TaskHandler, HandlerSource(a, c));
    } else {
      LaterState(a, b, TaskHandler, HandlerSource(a, c));
    }
  }

  lemma MovingOn(a: App, c: Circumstances)
    requires a.current < |a.tasks| && !Waiting(a, OnTaskHandler(c))
    requires var t := Cur(a).state; t.Idle? || t.Env? || t.Watchdog? || t.Dependencies? || t.Complete? || t.Completed?
    ensures var b := HandlerStep(a, c);
            b.current == a.current && |b.tasks| == |a.tasks| && Work(b, HandlerSource(a, c)) < Work(a, TaskHandler)
  {
    hide Work;
    LaterState(a, HandlerStep(a, c), TaskHandler, HandlerSource(a, c));
  }

  lemma HandlerProgress(a: App, c: Circumstances)
    requires a.current < |a.tasks| && !Waiting(a, OnTaskHandler(c)) && RetriesLeft(a) >= 0
    requires a.recipe == Running
    ensures var b := HandlerStep(a, c); var s := HandlerSource(a, c);
            b.current <= |b.tasks| && Work(b, s) < Work(a, TaskHandler)
  {
    var t := Cur(a).state;
    if t.Fetch? || t.MetadataParse? || t.RefreshRoles? || t.Run? {
      WaitingForOperation(a, c);
    } else if !t.Next? {
      MovingOn(a, c);
    }
  }

  /** What the other callbacks add. */
  function AnswerSource(a: App, e: Event): Source
    requires a.current < |a.tasks|
  {
    match e
    case FetchDone(failed) =>
      if failed && !Cur(a).fromPackage && a.fetchRetries < TASK_FETCH_RETRIES then FetchTimer else TaskHandler
    case RolesDone(failed, _) =>
      if failed && a.fetchRetries < ROLE_REFRESH_RETRIES then RolesTimer else TaskHandler
    case RunDone(_, _) => PluginsOp
    case _ => TaskHandler
  }

  lemma AnswerAdds(a: App, e: Event)
    requires a.current < |a.tasks| && SourceOf(e).Some? && NeedsTask(e)
    ensures Callback(a, e).outstanding == a.outstanding + multiset{AnswerSource(a, e)}
  {
  }

  /** `b` is still about the same task and nearer to its end than `a` was while waiting for `s`. */
  predicate Nearer(a: App, s: Source, b: App, s': Source) {
    && a.current < |a.tasks| && b.current == a.current && |b.tasks| == |a.tasks|
    && Work(b, s') < Work(a, s)
  }

  lemma FetchProgress(a: App, failed: bool)
    requires a.current < |a.tasks| && Cur(a).state.Fetch? && a.fetchRetries <= TASK_FETCH_RETRIES
    ensures Nearer(a, FetchOp, OnFetchDone(a, failed), AnswerSource(a, FetchDone(failed)))
  {
    var b := OnFetchDone(a, failed);
    var s := AnswerSource(a, FetchDone(failed));
    if s == FetchTimer {
      SameState(a, b, FetchOp, s);
    } else {
      LaterState(a, b, FetchOp, s);
    }
  }

  lemma RolesProgress(a: App, failed: bool, unusable: bool)
    requires a.current < |a.tasks| && Cur(a).state.RefreshRoles? && a.fetchRetries <= ROLE_REFRESH_RETRIES
    ensures Nearer(a, RolesOp, OnRolesDone(a, failed, unusable), AnswerSource(a, RolesDone(failed, unusable)))
  {
    var b := OnRolesDone(a, failed, unusable);
    var s := AnswerSource(a, RolesDone(failed, unusable));
    if s == RolesTimer {
      SameState(a, b, RolesOp, s);
    } else {
      LaterState(a, b, RolesOp, s);
    }
  }

  lemma MetadataProgress(a: App, failed: bool, hasMetadata: bool)
    requires a.current < |a.tasks| && Cur(a).state.MetadataParse?
    ensures Nearer(a, MetadataOp, OnMetadataDone(a, failed, hasMetadata), TaskHandler)
  {
    LaterState(a, OnMetadataDone(a, failed, hasMetadata), MetadataOp, TaskHandler);
  }

  lemma RunProgress(a: App, rc: int, localWatchdog: bool)
    requires a.current < |a.tasks| && Cur(a).state.Run?
    ensures Nearer(a, RunOp, OnRunDone(a, rc, localWatchdog), PluginsOp)
  {
    LaterState(a, OnRunDone(a, rc, localWatchdog), RunOp, PluginsOp);
  }

  lemma DependenciesProgress(a: App, failed: bool)
    requires a.current < |a.tasks| && Cur(a).state.Run?
    ensures Nearer(a, DependencyOp, Callback(a, DependenciesDone(failed)), TaskHandler)
  {
    if failed {
      LaterState(a, Callback(a, DependenciesDone(failed)), DependencyOp, TaskHandler);
    } else {
      SameState(a, Callback(a, DependenciesDone(failed)), DependencyOp, TaskHandler);
    }
  }

  lemma HandlerGivenBack(a: App, e: Event)
    requires a.current < |a.tasks| && SourceOf(e).Some? && Matches(SourceOf(e).value, Cur(a).state)
    requires e.FetchRetry? || e.RolesRetry? || e.StatusSent? || e.WatchdogSent? || e.PluginsDone?
    ensures Nearer(a, SourceOf(e).value, Callback(a, e), TaskHandler)
  {
    SameState(a, Callback(a, e), SourceOf(e).value, TaskHandler);
  }

  lemma AnswerProgress(a: App, e: Event)
    requires a.current < |a.tasks| && RetriesLeft(a) >= 0
    requires SourceOf(e).Some? && NeedsTask(e) && Matches(SourceOf(e).value, Cur(a).state)
    ensures Nearer(a, SourceOf(e).value, Callback(a, e), AnswerSource(a, e))
  {
    match e
    case FetchDone(failed) => FetchProgress(a, failed);
    case RolesDone(failed, unusable) => RolesProgress(a, failed, unusable);
    case MetadataDone(failed, hasMetadata) => MetadataProgress(a, failed, hasMetadata);
    case RunDone(rc, localWatchdog) => RunProgress(a, rc, localWatchdog);
    case DependenciesDone(failed) => DependenciesProgress(a, failed);
    case FetchRetry => HandlerGivenBack(a, e);
    case RolesRetry => HandlerGivenBack(a, e);
    case StatusSent => HandlerGivenBack(a, e);
    case WatchdogSent => HandlerGivenBack(a, e);
    case PluginsDone => HandlerGivenBack(a, e);
    case _ =>
  }

  lemma SameSource(a: App, s: Source, s': Source)
    requires Waits(a, s) && Waits(a, s')
    ensures s == s'
  {
    assert s in a.outstanding;
  }

  /** Every step that is not a wait or a request from outside brings the recipe nearer its end, and no
    * other step takes it further away. */
  lemma StepUsesWork(a: App, e: Event, s: Source, s': Source)
    requires Valid(a) && Enabled(a, e)
    requires a.current < |a.tasks| ==> Waits(a, s) && Matches(s, Cur(a).state)
    requires var b := Step(a, e); b.current < |b.tasks| ==> Waits(b, s')
    ensures Step(a, e).current <= |Step(a, e).tasks|
    ensures Work(Step(a, e), s') <= Work(a, s) - (if Progress(a, e) then 1 else 0)
  {
    hide Callback, CurrentOk, Fresh;
    if SourceOf(e).None? {
      RequestStep(a, e);
      SameSource(Step(a, e), s, s');
    } else if a.current < |a.tasks| {
      TaskStep(a, e, s);
      ShapeHasNoSource(a);
      hide Work, Shape;
      TaskStepUsesWork(a.(outstanding := multiset{}), e, s');
      SourceDoesNotCount(a, e, s);
    } else {
      LastStep(a, e);
    }
  }

  lemma SourceDoesNotCount(a: App, e: Event, s: Source)
    requires a.current < |a.tasks|
    ensures var b := a.(outstanding := multiset{}); Work(b, s) == Work(a, s) && (Waiting(b, e) <==> Waiting(a, e))
  {
  }

  lemma WaitingStep(a: App, e: Event)
    requires a.current < |a.tasks| && Waiting(a, e)
    ensures Callback(a, e) == Adds(a, TaskHandler)
  {
  }

  lemma TaskStepUsesWork(a: App, e: Event, s: Source)
    requires Shape(a) && a.current < |a.tasks| && a.outstanding == multiset{}
    requires SourceOf(e).Some? && Matches(SourceOf(e).value, Cur(a).state)
    requires var b := Callback(a, e); b.current < |b.tasks| ==> Waits(b, s)
    ensures Callback(a, e).current <= |Callback(a, e).tasks|
    ensures Work(Callback(a, e), s) <= Work(a, SourceOf(e).value) - (if Waiting(a, e) then 0 else 1)
  {
    var b := Callback(a, e);
    assert RetriesLeft(a) >= 0 && a.recipe == Running;
    if Waiting(a, e) {
      WaitingStep(a, e);
      SameSource(b, s, TaskHandler);
    } else if e.OnTaskHandler? {
      hide HandlerStep;
      HandlerAdds(a, e.c);
      HandlerProgress(a, e.c);
      if b.current < |b.tasks| {
        SameSource(b, s, HandlerSource(a, e.c));
      }
    } else {
      hide Callback;
      AnswerAdds(a, e);
      AnswerProgress(a, e);
      SameSource(b, s, AnswerSource(a, e));
    }
  }

  function ProgressSteps(a: App, run: seq<Event>): nat
    requires IsRun(a, run)
    decreases |run|
  {
    if run == [] then 0
    else (if Progress(a, run[0]) then 1 else 0) + ProgressSteps(Step(a, run[0]), run[1..])
  }

  lemma WorkIsNotNegative(a: App, s: Source)
    requires Shape(a)
    ensures Work(a, s) >= 0
  {
  }

  lemma {:induction false} ProgressIsBounded(a: App, run: seq<Event>, s: Source)
    requires Valid(a) && IsRun(a, run)
    requires a.current < |a.tasks| ==> Waits(a, s) && Matches(s, Cur(a).state)
    ensures ProgressSteps(a, run) <= Work(a, s)
    decreases |run|
  {
    WorkIsNotNegative(a, s);
    hide Step, Work, Shape, AtEnd;
    if run != [] {
      StepKeepsValid(a, run[0]);
      var b := Step(a, run[0]);
      var s' := s;
      if b.current < |b.tasks| {
        s' :| Waits(b, s') && Matches(s', Cur(b).state);
      }
      StepUsesWork(a, run[0], s, s');
      ProgressIsBounded(b, run[1..], s');
    }
  }

  /** Whatever the outcome of each operation, a recipe takes a bounded number of steps, health waits and
    * requests from outside not counted. */
  lemma RecipeTerminates(tasks: seq<Task>, url: bool, run: seq<Event>)
    requires FreshRecipe(tasks) && IsRun(Begin(tasks, url), run)
    ensures ProgressSteps(Begin(tasks, url), run) <= 2400 * (|tasks| + 1)
  {
    var a := Begin(tasks, url);
    BeginIsValid(tasks, url);
    assert tasks[0] in tasks;
    assert Waits(a, TaskHandler);
    ProgressIsBounded(a, run, TaskHandler);
  }

  // ---- an unhealthy recipe ------------------------------------------------------------------------------

  /** The operation that the handler starts in a state where it first waits for the recipe to be healthy. */
  function Awaits(a: App): Option<Source>
    requires a.current < |a.tasks|
  {
    match Cur(a).state
    case Fetch => Some(FetchOp)
    case RefreshRoles => if a.hasRecipeUrl then Some(RolesOp) else None
    case Dependencies => if Cur(a).started then None else Some(DependencyOp)
    case _ => None
  }

  lemma HandlerWaits(a: App, c: Circumstances)
    requires a.current < |a.tasks| && a.outstanding == multiset{} && Awaits(a).Some?
    ensures c.wait ==> HandlerStep(a, c) == a.(outstanding := multiset{TaskHandler})
    ensures !c.wait && !(Cur(a).state.Dependencies? && c.noDependencies) ==>
              HandlerStep(a, c).outstanding == multiset{Awaits(a).value}
  {
  }

  /** As long as the recipe is unhealthy, the handler of a task that is to be fetched, to refresh its roles or to
    * install its dependencies changes nothing and comes again; once it is healthy, it starts the operation. */
  lemma UnhealthyRecipesWait(tasks: seq<Task>, url: bool, run: seq<Event>, c: Circumstances)
    requires FreshRecipe(tasks) && IsRun(Begin(tasks, url), run)
    requires var a := After(Begin(tasks, url), run);
             Enabled(a, OnTaskHandler(c)) && a.current < |a.tasks| && Awaits(a).Some?
    ensures var a := After(Begin(tasks, url), run); var b := Step(a, OnTaskHandler(c));
            && (c.wait ==> b == a)
            && (!c.wait && !(Cur(a).state.Dependencies? && c.noDependencies) ==>
                  b.outstanding == multiset{Awaits(a).value})
  {
    BeginIsValid(tasks, url);
    hide IsRun, After, Valid, Step, Awaits, Enabled;
    RunKeepsValid(Begin(tasks, url), run);
    UnhealthyStep(After(Begin(tasks, url), run), c);
  }

  lemma UnhealthyStep(a: App, c: Circumstances)
    requires Valid(a) && Enabled(a, OnTaskHandler(c)) && a.current < |a.tasks| && Awaits(a).Some?
    ensures var b := Step(a, OnTaskHandler(c));
            && (c.wait ==> b == a)
            && (!c.wait && !(Cur(a).state.Dependencies? && c.noDependencies) ==>
                  b.outstanding == multiset{Awaits(a).value})
  {
    hide Shape, Step, HandlerStep, Callback, AtEnd;
    var s :| Waits(a, s) && Matches(s, Cur(a).state);
    TaskStep(a, OnTaskHandler(c), s);
    HandlerWaits(a.(outstanding := multiset{}), c);
    HandlerCallback(a.(outstanding := multiset{}), OnTaskHandler(c));
  }
}
