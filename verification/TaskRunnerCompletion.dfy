/** When a task that is reported Completed has been run. */
module TaskRunnerCompletion {
  import opened Common
  import opened TaskRunnerModel
  import opened TaskRunnerInvariants
  import opened TaskRunnerTheorems

  /** The two ways around a run that leave no error: the IDLE step of the current task recorded an expired
    * watchdog, and its metadata was missing without an error. */
  datatype Skips = Skips(expired: bool, noMetadata: bool)

  const CLEAN := Skips(false, false)

  function Observe(k: Skips, a: App, e: Event): Skips {
    if a.current >= |a.tasks| then k
    else
      match e
      case OnTaskHandler(c) =>
        if Cur(a).state.Idle? then k.(expired := c.readable && c.localWatchdog)
        else if Cur(a).state.Next? then CLEAN
        else k
      case MetadataDone(failed, hasMetadata) => k.(noMetadata := !failed && !hasMetadata)
      case _ => k
  }

  function Observed(k: Skips, a: App, run: seq<Event>): Skips
    requires IsRun(a, run)
    decreases |run|
  {
    if run == [] then k else Observed(Observe(k, a, run[0]), Step(a, run[0]), run[1..])
  }

  predicate Ran(a: App) {
    a.current in a.runs
  }

  /** A task that is going to end without an error has been run, or was skipped, or is about to be reported
    * as aborted. */
  predicate Explained(a: App, k: Skips) {
    && (forall i :: 0 <= i < |a.runs| ==> a.runs[i] <= a.current)
    && (a.current < |a.tasks| ==>
          && (a.cancelled ==> a.aborted != NotAborted)
          && match Cur(a).state
             case Complete => Cur(a).error.None? ==> a.cancelled || (Ran(a) <==> k == CLEAN)
             case Completed => Cur(a).error.None? ==> (Ran(a) <==> k == CLEAN)
             case Next => true
             case Run => k == CLEAN && (Ran(a) <==> RunOp in a.outstanding)
             case _ => k == CLEAN && !Ran(a))
  }

  lemma IdleExplained(a: App, k: Skips, c: Circumstances)
    requires a.current < |a.tasks| && a.outstanding == multiset{} && Explained(a, k) && Cur(a).state.Idle?
    ensures Explained(HandlerStep(a, c), Observe(k, a, OnTaskHandler(c)))
  {
    var b := HandlerStep(a, c);
    assert b.runs == a.runs && b.current == a.current && b.cancelled == a.cancelled && b.aborted == a.aborted;
    assert !Cur(b).state.Idle? && !Cur(b).state.Completed? && !Cur(b).state.Run?;
    assert Cur(b).state.Complete? && Cur(b).error.None? ==> a.cancelled || (c.readable && c.localWatchdog);
    assert Cur(b).state.Fetch? || Cur(b).state.MetadataParse? ==> !c.localWatchdog;
  }

  lemma EarlyExplained(a: App, k: Skips, c: Circumstances)
    requires a.current < |a.tasks| && a.outstanding == multiset{} && Explained(a, k)
    requires var s := Cur(a).state; s.Fetch? || s.MetadataParse? || s.RefreshRoles?
    ensures Explained(HandlerStep(a, c), k)
  {
  }

  lemma MiddleExplained(a: App, k: Skips, c: Circumstances)
    requires a.current < |a.tasks| && a.outstanding == multiset{} && Explained(a, k)
    requires var s := Cur(a).state; s.Env? || s.Watchdog? || s.Dependencies?
    ensures Explained(HandlerStep(a, c), k)
  {
  }

  lemma RunExplained(a: App, k: Skips, c: Circumstances)
    requires a.current < |a.tasks| && a.outstanding == multiset{} && Explained(a, k) && Cur(a).state.Run?
    ensures Explained(HandlerStep(a, c), k)
  {
    var b := HandlerStep(a, c);
    if !a.cancelled {
      assert b.runs[|a.runs|] == a.current && Ran(b);
    }
  }

  lemma LateExplained(a: App, k: Skips, c: Circumstances)
    requires Shape(a) && a.current < |a.tasks| && a.outstanding == multiset{} && Explained(a, k)
    requires var s := Cur(a).state; s.Complete? || s.Completed?
    ensures Explained(HandlerStep(a, c), k)
  {
  }

  lemma NextExplained(a: App, k: Skips, c: Circumstances)
    requires Shape(a) && a.current < |a.tasks| && a.outstanding == multiset{} && Explained(a, k) && Cur(a).state.Next?
    ensures Explained(HandlerStep(a, c), CLEAN)
  {
    NotAmong(a.runs, a.current);
  }

  lemma NotAmong(s: seq<nat>, n: nat)
    requires forall i :: 0 <= i < |s| ==> s[i] <= n
    ensures n + 1 !in s
  {
  }

  lemma HandlerExplained(a: App, k: Skips, c: Circumstances)
    requires Shape(a) && a.current < |a.tasks| && a.outstanding == multiset{} && Explained(a, k)
    ensures Explained(HandlerStep(a, c), Observe(k, a, OnTaskHandler(c)))
  {
    hide HandlerStep, Explained, Shape;
    match Cur(a).state {
      case Idle => IdleExplained(a, k, c);
      case Fetch => EarlyExplained(a, k, c);
      case MetadataParse => EarlyExplained(a, k, c);
      case RefreshRoles => EarlyExplained(a, k, c);
      case Env => MiddleExplained(a, k, c);
      case Watchdog => MiddleExplained(a, k, c);
      case Dependencies => MiddleExplained(a, k, c);
      case Run => RunExplained(a, k, c);
      case Complete => LateExplained(a, k, c);
      case Completed => LateExplained(a, k, c);
      case Next => NextExplained(a, k, c);
    }
  }

  lemma FailedExplained(a: App, k: Skips, j: Skips)
    requires a.current < |a.tasks| && Explained(a, k)
    ensures Explained(Adds(Fails(a), TaskHandler), j)
  {
  }

  /** Between IDLE and RUN nothing has been skipped and nothing has been run. */
  predicate Underway(a: App, k: Skips) {
    a.current < |a.tasks| && k == CLEAN && !Ran(a) && Explained(a, k) && Cur(a).error.None?
  }

  lemma GoingExplained(a: App, k: Skips, s: TaskState, source: Source, retries: nat)
    requires Underway(a, k) && a.outstanding == multiset{} && source != RunOp
    requires !s.Complete? && !s.Completed?
    ensures Explained(Adds(Goto(a, s), source), k) && Explained(Adds(Goto(a, s).(fetchRetries := retries), source), k)
    ensures Explained(Adds(Goto(a, Complete), source), k.(noMetadata := true))
  {
  }

  lemma WaitingExplained(a: App, b: App, k: Skips)
    requires Explained(a, k) && b == a.(outstanding := b.outstanding, fetchRetries := b.fetchRetries)
    requires a.current < |a.tasks| ==> !Cur(a).state.Run?
    ensures Explained(b, k)
  {
  }

  lemma FetchExplained(a: App, k: Skips, failed: bool)
    requires Underway(a, k) && a.outstanding == multiset{} && Cur(a).state.Fetch?
    ensures Explained(OnFetchDone(a, failed), k)
  {
    hide Explained, Goto, Fails;
    FailedExplained(a, k, k);
    GoingExplained(a, k, MetadataParse, TaskHandler, 0);
    WaitingExplained(a, Adds(a.(fetchRetries := a.fetchRetries + 1), FetchTimer), k);
  }

  lemma MetadataExplained(a: App, k: Skips, failed: bool, hasMetadata: bool)
    requires Underway(a, k) && a.outstanding == multiset{}
    ensures Explained(OnMetadataDone(a, failed, hasMetadata), k.(noMetadata := !failed && !hasMetadata))
  {
    hide Explained, Goto, Fails, Adds;
    FailedExplained(a, k, k);
    GoingExplained(a, k, RefreshRoles, TaskHandler, 0);
  }

  lemma RolesExplained(a: App, k: Skips, failed: bool, unusable: bool)
    requires Underway(a, k) && a.outstanding == multiset{} && Cur(a).state.RefreshRoles?
    ensures Explained(OnRolesDone(a, failed, unusable), k)
  {
    hide Explained, Goto, Fails;
    FailedExplained(a, k, k);
    GoingExplained(a, k, Env, TaskHandler, 0);
    WaitingExplained(a, Adds(a.(fetchRetries := a.fetchRetries + 1), RolesTimer), k);
  }

  lemma DependenciesExplained(a: App, k: Skips, failed: bool)
    requires Underway(a, k) && a.outstanding == multiset{}
    ensures Explained(OnDependenciesDone(a, failed), k)
  {
    hide Explained, Goto, Fails, Adds;
    FailedExplained(a, k, k);
    GoingExplained(a, k, Run, TaskHandler, 0);
  }

  lemma EndExplained(a: App, k: Skips, rc: int, localWatchdog: bool)
    requires a.current < |a.tasks| && k == CLEAN && Ran(a)
    requires (forall i :: 0 <= i < |a.runs| ==> a.runs[i] <= a.current) && (a.cancelled ==> a.aborted != NotAborted)
    ensures Explained(OnRunDone(a, rc, localWatchdog), k)
  {
    var b := OnRunDone(a, rc, localWatchdog);
    assert Cur(b).state.Complete? && b.runs == a.runs && b.current == a.current;
  }

  /** Taking a source other than the run leaves a task that is under way under way. */
  lemma AnswerUnderway(a: App, k: Skips, s: Source)
    requires Shape(a) && a.current < |a.tasks| && Explained(a, k) && Waits(a, s) && Matches(s, Cur(a).state)
    requires s.FetchOp? || s.FetchTimer? || s.MetadataOp? || s.RolesOp? || s.RolesTimer? || s.DependencyOp?
    ensures Underway(a.(outstanding := multiset{}), k)
  {
  }

  lemma AnswerExplained(a: App, k: Skips, e: Event, s: Source)
    requires Shape(a) && a.current < |a.tasks| && Explained(a, k) && Waits(a, s) && Matches(s, Cur(a).state)
    requires SourceOf(e) == Some(s) && NeedsTask(e)
    ensures Explained(Callback(a.(outstanding := multiset{}), e), Observe(k, a, e))
  {
    var b := a.(outstanding := multiset{});
    if e.StatusSent? || e.WatchdogSent? || e.PluginsDone? {
      hide Shape;
      WaitingExplained(a, Callback(b, e), k);
    } else if e.RunDone? {
      hide Shape, OnRunDone;
      EndExplained(b, k, e.rc, e.localWatchdog);
    } else {
      hide Explained, Shape, Underway, OnFetchDone, OnMetadataDone, OnRolesDone, OnDependenciesDone, Goto, Adds;
      AnswerUnderway(a, k, s);
      UnderwayAnswer(b, k, e);
    }
  }

  lemma UnderwayAnswer(a: App, k: Skips, e: Event)
    requires Underway(a, k) && a.outstanding == multiset{}
    requires e.FetchDone? || e.FetchRetry? || e.MetadataDone? || e.RolesDone? || e.RolesRetry? || e.DependenciesDone?
    requires Matches(SourceOf(e).value, Cur(a).state)
    ensures Explained(Callback(a, e), Observe(k, a, e))
  {
    hide Explained, OnFetchDone, OnMetadataDone, OnRolesDone, OnDependenciesDone, Goto, Adds;
    match e {
      case FetchDone(failed) => FetchExplained(a, k, failed);
      case MetadataDone(failed, hasMetadata) => MetadataExplained(a, k, failed, hasMetadata);
      case RolesDone(failed, unusable) => RolesExplained(a, k, failed, unusable);
      case DependenciesDone(failed) => DependenciesExplained(a, k, failed);
      case FetchRetry => GoingExplained(a, k, Fetch, TaskHandler, 0);
      case RolesRetry => GoingExplained(a, k, RefreshRoles, TaskHandler, 0);
      case _ =>
    }
  }

  lemma RequestExplained(a: App, e: Event, k: Skips)
    requires Enabled(a, e) && SourceOf(e).None? && Explained(a, k)
    ensures Explained(Step(a, e), Observe(k, a, e))
  {
  }

  /** The handler fires only when it is the one source, so that a task in RUN has not been run. */
  lemma HandlerSourceExplained(a: App, k: Skips)
    requires Explained(a, k) && Waits(a, TaskHandler)
    ensures Explained(a.(outstanding := multiset{}), k)
  {
  }

  lemma StepExplained(a: App, k: Skips, e: Event)
    requires Valid(a) && Enabled(a, e) && Explained(a, k)
    ensures Explained(Step(a, e), Observe(k, a, e))
  {
    hide Step, Valid, Explained, Observe, Enabled;
    if SourceOf(e).None? {
      RequestExplained(a, e, k);
    } else if a.current < |a.tasks| {
      TaskExplained(a, k, e);
    } else {
      LastExplained(a, k, e);
    }
  }

  lemma TaskExplained(a: App, k: Skips, e: Event)
    requires Valid(a) && Enabled(a, e) && Explained(a, k) && SourceOf(e).Some? && a.current < |a.tasks|
    ensures Explained(Step(a, e), Observe(k, a, e))
  {
    hide Step, Callback, Shape, AtEnd, Explained, HandlerStep, Observe;
    var s :| Waits(a, s) && Matches(s, Cur(a).state);
    TaskStep(a, e, s);
    ShapeHasNoSource(a);
    var b := a.(outstanding := multiset{});
    if e.OnTaskHandler? {
      HandlerSourceExplained(a, k);
      HandlerExplained(b, k, e.c);
      HandlerCallback(b, e);
      SameObservation(a, b, k, e);
    } else {
      AnswerExplained(a, k, e, s);
    }
  }

  lemma SameObservation(a: App, b: App, k: Skips, e: Event)
    requires b == a.(outstanding := b.outstanding)
    ensures Observe(k, b, e) == Observe(k, a, e)
  {
  }

  lemma LastExplained(a: App, k: Skips, e: Event)
    requires Valid(a) && Enabled(a, e) && Explained(a, k) && SourceOf(e).Some? && a.current >= |a.tasks|
    ensures Explained(Step(a, e), Observe(k, a, e))
  {
    hide Step, AtEnd;
    LastStep(a, e);
  }

  lemma {:induction false} RunExplains(a: App, k: Skips, run: seq<Event>)
    requires Valid(a) && Explained(a, k) && IsRun(a, run)
    ensures Explained(After(a, run), Observed(k, a, run)) && Valid(After(a, run))
    decreases |run|
  {
    hide Step, Valid, Explained, Observe;
    if run != [] {
      StepKeepsValid(a, run[0]);
      StepExplained(a, k, run[0]);
      RunExplains(Step(a, run[0]), Observe(k, a, run[0]), run[1..]);
    }
  }

  /** In every run a task that is posted Completed has been run if and only if its IDLE step recorded no expired
    * watchdog and its metadata was not missing without an error. */
  lemma CompletedMeansRun(tasks: seq<Task>, url: bool, run: seq<Event>, c: Circumstances)
    requires FreshRecipe(tasks) && IsRun(Begin(tasks, url), run)
    requires var a := After(Begin(tasks, url), run);
             && Enabled(a, OnTaskHandler(c))
             && Step(a, OnTaskHandler(c)).posts == a.posts + [Post(a.current, StatusCompleted)]
    ensures var a := After(Begin(tasks, url), run); var k := Observed(CLEAN, Begin(tasks, url), run);
            a.current in a.runs <==> !k.expired && !k.noMetadata
  {
    hide Valid, Step, Observed, IsRun, After;
    BeginIsValid(tasks, url);
    assert tasks[0] in tasks;
    assert Explained(Begin(tasks, url), CLEAN);
    RunExplains(Begin(tasks, url), CLEAN, run);
    PostedIsCompleted(After(Begin(tasks, url), run), c);
  }

  lemma PostedIsCompleted(a: App, c: Circumstances)
    requires Enabled(a, OnTaskHandler(c)) && Step(a, OnTaskHandler(c)).posts == a.posts + [Post(a.current, StatusCompleted)]
    ensures a.current < |a.tasks| && Cur(a).state.Completed? && Cur(a).error.None?
  {
    var b := Removes(a, TaskHandler);
    assert Callback(b, OnTaskHandler(c)).posts[|a.posts|] == Post(a.current, StatusCompleted);
    assert a.current < |a.tasks|;
    hide HandlerStep;
    if Cur(b).state.Idle? {
      IdlePosts(b, c);
    } else if Cur(b).state.Completed? {
      CompletedPosts(b, c);
    } else {
      OthersPostNothing(b, c);
    }
  }

  lemma IdlePosts(a: App, c: Circumstances)
    requires a.current < |a.tasks| && Cur(a).state.Idle?
    ensures HandlerStep(a, c).posts == a.posts || HandlerStep(a, c).posts == a.posts + [Post(a.current, StatusRunning)]
  {
  }

  lemma CompletedPosts(a: App, c: Circumstances)
    requires a.current < |a.tasks| && Cur(a).state.Completed?
    ensures HandlerStep(a, c).posts ==
      a.posts + [Post(a.current, if Cur(a).error.Some? then StatusAborted(Cur(a).error.value) else StatusCompleted)]
  {
  }

  lemma OthersPostNothing(a: App, c: Circumstances)
    requires a.current < |a.tasks| && !Cur(a).state.Idle? && !Cur(a).state.Completed?
    ensures HandlerStep(a, c).posts == a.posts
  {
  }

  // ---- both ways around a run ---------------------------------------------------------------------------

  /** A task whose config section records an expired watchdog is reported Completed three handler steps after
    * the recipe begins and is not run. */
  lemma ExpiredIsCompletedWithoutRunning(t: Task, c: Circumstances)
    requires Fresh(t) && !t.finished && c.readable && c.started && c.localWatchdog
    ensures var run := [OnTaskHandler(c), OnTaskHandler(c), OnTaskHandler(c)]; var a := Begin([t], false);
            && IsRun(a, run) && After(a, run).runs == [] && After(a, run).posts == [Post(0, StatusCompleted)]
  {
    hide HandlerStep, Undisturbed;
    var a := Begin([t], false);
    var e := OnTaskHandler(c);
    IdleExpired(t, c);
    var s1 := Step(a, e);
    UndisturbedComplete(s1, c);
    var s2 := Step(s1, e);
    UndisturbedCompleted(s2, c);
    FirstStep(s2, e, []);
    FirstStep(s1, e, [e]);
    FirstStep(a, e, [e, e]);
    assert [e, e, e] == [e] + [e, e];
  }

  lemma IdleExpired(t: Task, c: Circumstances)
    requires Fresh(t) && !t.finished && c.readable && c.started && c.localWatchdog
    ensures var b := Step(Begin([t], false), OnTaskHandler(c));
            Undisturbed(b, Complete) && b.current == 0 && b.posts == [] && b.runs == []
  {
  }
}
