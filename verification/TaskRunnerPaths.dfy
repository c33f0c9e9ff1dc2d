/** A path on which a task is run, and what becomes of a recipe abort that a task abort follows. */
module TaskRunnerPaths {
  import opened Common
  import opened TaskRunnerModel
  import opened TaskRunnerInvariants

  /** The config section of a task that is not in it, nothing to wait for and nothing to install. */
  predicate Plain(c: Circumstances) {
    c.readable && !c.started && !c.localWatchdog && !c.wait && c.noDependencies
  }

  /** The current task is on its way to its run. */
  predicate At(a: App, state: TaskState, source: Source) {
    && a.current < |a.tasks| && Cur(a).state == state && a.outstanding == multiset{source}
    && !Cur(a).finished && Cur(a).error.None? && !a.cancelled && !a.hasRecipeUrl
    && (!state.Idle? ==> !Cur(a).started)
  }

  /** A step on the way. */
  predicate Along(a: App, b: App) {
    && b.current == a.current && b.runs == a.runs && |b.tasks| == |a.tasks| && b.aborted == a.aborted
    && (forall t :: 0 <= t < |a.tasks| && t != a.current ==> b.tasks[t] == a.tasks[t])
  }

  /** An event that neither executes nor ends nor reports a task, and finds no config section in IDLE. */
  predicate Calm(a: App, e: Event) {
    && Enabled(a, e) && a.current < |a.tasks| && !e.RunDone?
    && (e.OnTaskHandler? ==> !Cur(a).state.Run? && !Cur(a).state.Completed? && (Cur(a).state.Idle? ==> Plain(e.c)))
  }

  predicate CalmRun(a: App, run: seq<Event>)
    decreases |run|
  {
    run == [] || (Calm(a, run[0]) && CalmRun(Step(a, run[0]), run[1..]))
  }

  lemma IdleAlong(a: App, c: Circumstances)
    requires At(a, Idle, TaskHandler) && Plain(c)
    ensures var b := Step(a, OnTaskHandler(c)); At(b, Fetch, StatusMessage) && Along(a, b)
  {
  }

  lemma StatusAlong(a: App)
    requires At(a, Fetch, StatusMessage)
    ensures var b := Step(a, StatusSent); At(b, Fetch, TaskHandler) && Along(a, b)
  {
  }

  lemma FetchAlong(a: App, c: Circumstances)
    requires At(a, Fetch, TaskHandler) && Plain(c)
    ensures var b := Step(a, OnTaskHandler(c)); At(b, Fetch, FetchOp) && Along(a, b)
  {
  }

  lemma FetchedAlong(a: App)
    requires At(a, Fetch, FetchOp)
    ensures var b := Step(a, FetchDone(false)); At(b, MetadataParse, TaskHandler) && Along(a, b)
  {
  }

  lemma ParseAlong(a: App, c: Circumstances)
    requires At(a, MetadataParse, TaskHandler)
    ensures var b := Step(a, OnTaskHandler(c)); At(b, MetadataParse, MetadataOp) && Along(a, b)
  {
  }

  lemma ParsedAlong(a: App)
    requires At(a, MetadataParse, MetadataOp)
    ensures var b := Step(a, MetadataDone(false, true)); At(b, RefreshRoles, TaskHandler) && Along(a, b)
  {
  }

  lemma RolesAlong(a: App, c: Circumstances)
    requires At(a, RefreshRoles, TaskHandler)
    ensures var b := Step(a, OnTaskHandler(c)); At(b, Env, TaskHandler) && Along(a, b)
  {
  }

  lemma EnvAlong(a: App, c: Circumstances)
    requires At(a, Env, TaskHandler)
    ensures var b := Step(a, OnTaskHandler(c)); At(b, Watchdog, TaskHandler) && Along(a, b)
  {
  }

  lemma WatchdogAlong(a: App, c: Circumstances)
    requires At(a, Watchdog, TaskHandler)
    ensures var b := Step(a, OnTaskHandler(c)); At(b, Dependencies, WatchdogMessage) && Along(a, b)
  {
  }

  lemma SentAlong(a: App)
    requires At(a, Dependencies, WatchdogMessage)
    ensures var b := Step(a, WatchdogSent); At(b, Dependencies, TaskHandler) && Along(a, b)
  {
  }

  lemma DependenciesAlong(a: App, c: Circumstances)
    requires At(a, Dependencies, TaskHandler) && Plain(c)
    ensures var b := Step(a, OnTaskHandler(c)); At(b, Run, TaskHandler) && Along(a, b)
  {
  }

  lemma RunAlong(a: App, c: Circumstances)
    requires At(a, Run, TaskHandler)
    ensures var b := Step(a, OnTaskHandler(c));
            && b.current == a.current && |b.tasks| == |a.tasks| && b.runs == a.runs + [a.current]
            && b.outstanding == multiset{RunOp} && Cur(b).state.Run? && Cur(b).error.None? && !b.cancelled
            && Cur(b).started
            && b.hasRecipeUrl == a.hasRecipeUrl
  {
  }

  /** The events that prepare a fresh task for its run. */
  function Preparation(c: Circumstances): seq<Event> {
    [OnTaskHandler(c), StatusSent, OnTaskHandler(c), FetchDone(false), OnTaskHandler(c), MetadataDone(false, true),
     OnTaskHandler(c), OnTaskHandler(c), OnTaskHandler(c), WatchdogSent, OnTaskHandler(c)]
  }

  function RunUp(c: Circumstances): seq<Event> {
    Preparation(c) + [OnTaskHandler(c)]
  }

  lemma {:induction false} JoinRuns(a: App, run: seq<Event>, more: seq<Event>)
    requires IsRun(a, run) && IsRun(After(a, run), more)
    ensures IsRun(a, run + more) && After(a, run + more) == After(After(a, run), more)
    decreases |run|
  {
    hide Step, Enabled;
    if run == [] {
      assert run + more == more;
    } else {
      assert (run + more)[0] == run[0] && (run + more)[1..] == run[1..] + more;
      JoinRuns(Step(a, run[0]), run[1..], more);
    }
  }

  lemma OneEvent(a: App, e: Event)
    requires Enabled(a, e)
    ensures IsRun(a, [e]) && After(a, [e]) == Step(a, e)
  {
    hide Step;
    FirstStep(a, e, []);
    assert [e] + [] == [e];
  }

  lemma TwoEvents(a: App, e: Event, f: Event)
    requires Enabled(a, e) && Enabled(Step(a, e), f)
    ensures IsRun(a, [e, f]) && After(a, [e, f]) == Step(Step(a, e), f)
  {
    hide Step;
    OneEvent(Step(a, e), f);
    FirstStep(a, e, [f]);
    assert [e] + [f] == [e, f];
  }

  lemma OneCalm(a: App, e: Event)
    requires Calm(a, e)
    ensures CalmRun(a, [e]) && IsRun(a, [e]) && After(a, [e]) == Step(a, e)
  {
    hide Step, Enabled;
    OneEvent(a, e);
    assert [e][1..] == [];
  }

  lemma TwoCalm(a: App, e: Event, f: Event)
    requires Calm(a, e) && Calm(Step(a, e), f)
    ensures CalmRun(a, [e, f]) && IsRun(a, [e, f]) && After(a, [e, f]) == Step(Step(a, e), f)
  {
    hide Step, Enabled;
    TwoEvents(a, e, f);
    OneCalm(Step(a, e), f);
    assert [e, f][1..] == [f];
  }

  lemma {:induction false} JoinCalm(a: App, run: seq<Event>, more: seq<Event>)
    requires IsRun(a, run) && CalmRun(a, run) && CalmRun(After(a, run), more)
    ensures CalmRun(a, run + more)
    decreases |run|
  {
    hide Step, Calm;
    if run == [] {
      assert run + more == more;
    } else {
      assert (run + more)[0] == run[0] && (run + more)[1..] == run[1..] + more;
      JoinCalm(Step(a, run[0]), run[1..], more);
    }
  }

  lemma CalmAt(a: App, state: TaskState, source: Source, e: Event)
    requires At(a, state, source) && SourceOf(e) == Some(source) && !e.RunDone?
    requires !state.Run? && !state.Completed? && (e.OnTaskHandler? && state.Idle? ==> Plain(e.c))
    ensures Calm(a, e)
  {
  }

  lemma ToFetched(a: App, c: Circumstances)
    requires At(a, Idle, TaskHandler) && Plain(c)
    ensures var run := [OnTaskHandler(c), StatusSent] + [OnTaskHandler(c), FetchDone(false)];
            && IsRun(a, run) && CalmRun(a, run)
            && At(After(a, run), MetadataParse, TaskHandler) && Along(a, After(a, run))
  {
    hide Step, At, Calm;
    var h := OnTaskHandler(c);
    CalmAt(a, Idle, TaskHandler, h);
    IdleAlong(a, c);
    CalmAt(Step(a, h), Fetch, StatusMessage, StatusSent);
    StatusAlong(Step(a, h));
    TwoCalm(a, h, StatusSent);
    var b := Step(Step(a, h), StatusSent);
    CalmAt(b, Fetch, TaskHandler, h);
    FetchAlong(b, c);
    CalmAt(Step(b, h), Fetch, FetchOp, FetchDone(false));
    FetchedAlong(Step(b, h));
    TwoCalm(b, h, FetchDone(false));
    JoinRuns(a, [h, StatusSent], [h, FetchDone(false)]);
    JoinCalm(a, [h, StatusSent], [h, FetchDone(false)]);
  }

  lemma ToEnv(a: App, c: Circumstances)
    requires At(a, MetadataParse, TaskHandler)
    ensures var run := [OnTaskHandler(c), MetadataDone(false, true)] + [OnTaskHandler(c), OnTaskHandler(c)];
            && IsRun(a, run) && CalmRun(a, run)
            && At(After(a, run), Watchdog, TaskHandler) && Along(a, After(a, run))
  {
    hide Step, At, Calm;
    var h := OnTaskHandler(c);
    CalmAt(a, MetadataParse, TaskHandler, h);
    ParseAlong(a, c);
    CalmAt(Step(a, h), MetadataParse, MetadataOp, MetadataDone(false, true));
    ParsedAlong(Step(a, h));
    TwoCalm(a, h, MetadataDone(false, true));
    var b := Step(Step(a, h), MetadataDone(false, true));
    CalmAt(b, RefreshRoles, TaskHandler, h);
    RolesAlong(b, c);
    CalmAt(Step(b, h), Env, TaskHandler, h);
    EnvAlong(Step(b, h), c);
    TwoCalm(b, h, h);
    JoinRuns(a, [h, MetadataDone(false, true)], [h, h]);
    JoinCalm(a, [h, MetadataDone(false, true)], [h, h]);
  }

  lemma ToRun(a: App, c: Circumstances)
    requires At(a, Watchdog, TaskHandler) && Plain(c)
    ensures var run := [OnTaskHandler(c), WatchdogSent] + [OnTaskHandler(c)];
            && IsRun(a, run) && CalmRun(a, run)
            && At(After(a, run), Run, TaskHandler) && Along(a, After(a, run))
  {
    hide Step, At, Calm;
    var h := OnTaskHandler(c);
    CalmAt(a, Watchdog, TaskHandler, h);
    WatchdogAlong(a, c);
    CalmAt(Step(a, h), Dependencies, WatchdogMessage, WatchdogSent);
    SentAlong(Step(a, h));
    TwoCalm(a, h, WatchdogSent);
    var b := Step(Step(a, h), WatchdogSent);
    CalmAt(b, Dependencies, TaskHandler, h);
    DependenciesAlong(b, c);
    OneCalm(b, h);
    JoinRuns(a, [h, WatchdogSent], [h]);
    JoinCalm(a, [h, WatchdogSent], [h]);
  }

  /** A task that is due, with no abort in force, can be prepared for its run. */
  lemma FreshTaskIsPrepared(a: App, c: Circumstances)
    requires At(a, Idle, TaskHandler) && Plain(c)
    ensures IsRun(a, Preparation(c)) && CalmRun(a, Preparation(c))
    ensures At(After(a, Preparation(c)), Run, TaskHandler) && Along(a, After(a, Preparation(c)))
  {
    hide Step, At, Calm, IsRun, After, CalmRun;
    var h := OnTaskHandler(c);
    var first := [h, StatusSent] + [h, FetchDone(false)];
    var second := [h, MetadataDone(false, true)] + [h, h];
    var third := [h, WatchdogSent] + [h];
    ToFetched(a, c);
    ToEnv(After(a, first), c);
    ToRun(After(After(a, first), second), c);
    JoinRuns(After(a, first), second, third);
    JoinCalm(After(a, first), second, third);
    JoinRuns(a, first, second + third);
    JoinCalm(a, first, second + third);
    assert first + (second + third) == Preparation(c);
  }

  /** A task that is due, with no abort in force, can be run. */
  lemma FreshTaskRuns(a: App, c: Circumstances)
    requires At(a, Idle, TaskHandler) && Plain(c)
    ensures IsRun(a, RunUp(c))
    ensures var b := After(a, RunUp(c));
            && b.current == a.current && |b.tasks| == |a.tasks| && b.runs == a.runs + [a.current]
            && b.outstanding == multiset{RunOp} && Cur(b).state.Run? && Cur(b).error.None? && !b.cancelled
            && Cur(b).started
  {
    hide Step, At, Enabled, IsRun, After, CalmRun, Preparation;
    FreshTaskIsPrepared(a, c);
    var b := After(a, Preparation(c));
    EnabledAt(b, Run, TaskHandler, OnTaskHandler(c));
    RunAlong(b, c);
    OneEvent(b, OnTaskHandler(c));
    JoinRuns(a, Preparation(c), [OnTaskHandler(c)]);
  }

  lemma EnabledAt(a: App, state: TaskState, source: Source, e: Event)
    requires At(a, state, source) && SourceOf(e) == Some(source)
    ensures Enabled(a, e)
  {
  }

  // ---- a task that had been started before ------------------------------------------------------------------

  /** The config section of a task that was interrupted. */
  predicate Interrupted(c: Circumstances) {
    c.readable && c.started && !c.localWatchdog
  }

  /** The current task, which had been started before, is on its way to its run. */
  predicate Again(a: App, state: TaskState, source: Source) {
    && a.current < |a.tasks| && Cur(a).state == state && a.outstanding == multiset{source}
    && Cur(a).error.None? && !a.cancelled && !a.hasRecipeUrl && Cur(a).started
  }

  predicate Silent(a: App, b: App) {
    b.current == a.current && |b.tasks| == |a.tasks| && b.runs == a.runs && b.posts == a.posts
  }

  lemma IdleAgain(a: App, c: Circumstances)
    requires At(a, Idle, TaskHandler) && Interrupted(c)
    ensures var b := Step(a, OnTaskHandler(c)); Again(b, MetadataParse, TaskHandler) && Silent(a, b)
  {
  }

  lemma ParseAgain(a: App, c: Circumstances)
    requires Again(a, MetadataParse, TaskHandler)
    ensures var b := Step(a, OnTaskHandler(c)); Again(b, MetadataParse, MetadataOp) && Silent(a, b)
  {
  }

  lemma ParsedAgain(a: App)
    requires Again(a, MetadataParse, MetadataOp)
    ensures var b := Step(a, MetadataDone(false, true)); Again(b, RefreshRoles, TaskHandler) && Silent(a, b)
  {
  }

  lemma RolesAgain(a: App, c: Circumstances)
    requires Again(a, RefreshRoles, TaskHandler)
    ensures var b := Step(a, OnTaskHandler(c)); Again(b, Env, TaskHandler) && Silent(a, b)
  {
  }

  lemma EnvAgain(a: App, c: Circumstances)
    requires Again(a, Env, TaskHandler)
    ensures var b := Step(a, OnTaskHandler(c)); Again(b, Watchdog, TaskHandler) && Silent(a, b)
  {
  }

  lemma WatchdogAgain(a: App, c: Circumstances)
    requires Again(a, Watchdog, TaskHandler)
    ensures var b := Step(a, OnTaskHandler(c)); Again(b, Dependencies, TaskHandler) && Silent(a, b)
  {
  }

  lemma DependenciesAgain(a: App, c: Circumstances)
    requires Again(a, Dependencies, TaskHandler)
    ensures var b := Step(a, OnTaskHandler(c)); Again(b, Run, TaskHandler) && Silent(a, b)
  {
  }

  lemma RunAgain(a: App, c: Circumstances)
    requires Again(a, Run, TaskHandler)
    ensures var b := Step(a, OnTaskHandler(c));
            && b.current == a.current && |b.tasks| == |a.tasks| && b.posts == a.posts
            && b.runs == a.runs + [a.current] && b.outstanding == multiset{RunOp} && Cur(b).state.Run?
  {
  }

  lemma AgainEnabled(a: App, state: TaskState, source: Source, e: Event)
    requires Again(a, state, source) && SourceOf(e) == Some(source)
    ensures Enabled(a, e)
  {
  }

  lemma AgainToEnv(a: App, c: Circumstances)
    requires At(a, Idle, TaskHandler) && Interrupted(c)
    ensures var run := [OnTaskHandler(c), OnTaskHandler(c)] + [MetadataDone(false, true), OnTaskHandler(c)];
            IsRun(a, run) && Again(After(a, run), Env, TaskHandler) && Silent(a, After(a, run))
  {
    hide Step, At, Again, Enabled, Interrupted;
    var h := OnTaskHandler(c);
    EnabledAt(a, Idle, TaskHandler, h);
    IdleAgain(a, c);
    AgainEnabled(Step(a, h), MetadataParse, TaskHandler, h);
    ParseAgain(Step(a, h), c);
    TwoEvents(a, h, h);
    var b := Step(Step(a, h), h);
    AgainEnabled(b, MetadataParse, MetadataOp, MetadataDone(false, true));
    ParsedAgain(b);
    var d := Step(b, MetadataDone(false, true));
    AgainEnabled(d, RefreshRoles, TaskHandler, h);
    RolesAgain(d, c);
    TwoEvents(b, MetadataDone(false, true), h);
    JoinRuns(a, [h, h], [MetadataDone(false, true), h]);
  }

  lemma AgainToRun(a: App, c: Circumstances)
    requires Again(a, Env, TaskHandler)
    ensures var run := [OnTaskHandler(c), OnTaskHandler(c)] + [OnTaskHandler(c), OnTaskHandler(c)];
            && IsRun(a, run)
            && var b := After(a, run);
               && b.current == a.current && |b.tasks| == |a.tasks| && b.posts == a.posts
               && b.runs == a.runs + [a.current] && b.outstanding == multiset{RunOp} && Cur(b).state.Run?
  {
    hide Step, Again, Enabled;
    var h := OnTaskHandler(c);
    AgainEnabled(a, Env, TaskHandler, h);
    EnvAgain(a, c);
    AgainEnabled(Step(a, h), Watchdog, TaskHandler, h);
    WatchdogAgain(Step(a, h), c);
    TwoEvents(a, h, h);
    var b := Step(Step(a, h), h);
    AgainEnabled(b, Dependencies, TaskHandler, h);
    DependenciesAgain(b, c);
    AgainEnabled(Step(b, h), Run, TaskHandler, h);
    RunAgain(Step(b, h), c);
    TwoEvents(b, h, h);
    JoinRuns(a, [h, h], [h, h]);
  }

  /** The callbacks that take an interrupted task to its run: its metadata is read again, and nothing else is
    * waited for. */
  function RunAgainUp(c: Circumstances): seq<Event> {
    var h := OnTaskHandler(c);
    [h, h, MetadataDone(false, true), h, h, h, h, h]
  }

  /** A task that had been started before, with no abort in force, goes to its run with no status, no fetch, no
    * message about the watchdog and no dependencies. */
  lemma StartedTaskRuns(a: App, c: Circumstances)
    requires At(a, Idle, TaskHandler) && Interrupted(c)
    ensures IsRun(a, RunAgainUp(c))
    ensures var b := After(a, RunAgainUp(c));
            && b.current == a.current && |b.tasks| == |a.tasks| && b.posts == a.posts
            && b.runs == a.runs + [a.current] && b.outstanding == multiset{RunOp} && Cur(b).state.Run?
  {
    hide Step, At, Again, Enabled, IsRun, After, Interrupted;
    var h := OnTaskHandler(c);
    var first := [h, h] + [MetadataDone(false, true), h];
    var second := [h, h] + [h, h];
    AgainToEnv(a, c);
    AgainToRun(After(a, first), c);
    JoinRuns(a, first, second);
    assert first + second == RunAgainUp(c);
  }

  // ---- from the run to the next task ----------------------------------------------------------------------

  /** The current task has been run and is on its way to the next one. */
  predicate Past(a: App, state: TaskState, source: Source, error: Option<Error>) {
    a.current < |a.tasks| && Cur(a).state == state && a.outstanding == multiset{source} && Cur(a).error == error
    && !a.cancelled
  }

  /** The error that the end of a run leaves. */
  function RunError(t: Task, rc: int, localWatchdog: bool): Option<Error> {
    if rc != 0 && (localWatchdog || t.rhtsCompat) then Some(Failed) else None
  }

  lemma RunPast(a: App, rc: int, localWatchdog: bool)
    requires Past(a, Run, RunOp, None)
    ensures var b := Step(a, RunDone(rc, localWatchdog));
            Past(b, Complete, PluginsOp, RunError(Cur(a), rc, localWatchdog)) && Silent(a, b)
    ensures var b := Step(a, RunDone(rc, localWatchdog));
            b.current < |b.tasks| && (Cur(b).localWatchdog <==> Cur(a).localWatchdog || (rc != 0 && localWatchdog))
  {
  }

  lemma PluginsPast(a: App, error: Option<Error>)
    requires Past(a, Complete, PluginsOp, error)
    ensures var b := Step(a, PluginsDone); Past(b, Complete, TaskHandler, error) && Silent(a, b)
  {
  }

  lemma CompletePast(a: App, error: Option<Error>, c: Circumstances)
    requires Past(a, Complete, TaskHandler, error)
    ensures var b := Step(a, OnTaskHandler(c)); Past(b, Completed, TaskHandler, error) && Silent(a, b)
  {
  }

  lemma CompletedPast(a: App, error: Option<Error>, c: Circumstances)
    requires Past(a, Completed, TaskHandler, error)
    ensures var b := Step(a, OnTaskHandler(c));
            && Past(b, Next, StatusMessage, None) && b.current == a.current && |b.tasks| == |a.tasks| && b.runs == a.runs
            && b.posts == a.posts + [Post(a.current, if error == None then StatusCompleted else StatusAborted(error.value))]
  {
  }

  lemma SentPast(a: App)
    requires Past(a, Next, StatusMessage, None)
    ensures var b := Step(a, StatusSent); Past(b, Next, TaskHandler, None) && Silent(a, b)
  {
  }

  lemma NextPast(a: App, c: Circumstances)
    requires Past(a, Next, TaskHandler, None)
    ensures var b := Step(a, OnTaskHandler(c));
            && b.current == a.current + 1 && |b.tasks| == |a.tasks| && b.runs == a.runs && b.posts == a.posts
            && (b.current < |b.tasks| ==> Cur(b).state.Idle? && b.outstanding == multiset{TaskHandler})
            && (b.current == |b.tasks| ==> b.outstanding == multiset{RecipeHandler})
  {
  }

  lemma PastEnabled(a: App, state: TaskState, source: Source, error: Option<Error>, e: Event)
    requires Past(a, state, source, error) && SourceOf(e) == Some(source)
    ensures Enabled(a, e)
  {
  }

  /** The callbacks that follow a run. */
  function WindUp(rc: int, localWatchdog: bool, c: Circumstances): seq<Event> {
    [RunDone(rc, localWatchdog), PluginsDone, OnTaskHandler(c), OnTaskHandler(c), StatusSent, OnTaskHandler(c)]
  }

  /** A run that ends, with no abort in force, is followed by its plugins, by the status of its task, which is
    * Aborted exactly for a non-zero exit under an expired watchdog or of an rhts task, and by the next task or the
    * end of the recipe. */
  lemma RunWindsUp(a: App, rc: int, localWatchdog: bool, c: Circumstances)
    requires a.current < |a.tasks| && Past(a, Run, RunOp, None)
    ensures IsRun(a, WindUp(rc, localWatchdog, c))
    ensures var b := After(a, WindUp(rc, localWatchdog, c));
            && b.current == a.current + 1 && |b.tasks| == |a.tasks| && b.runs == a.runs
            && b.posts == a.posts + [Post(a.current, if rc != 0 && (localWatchdog || Cur(a).rhtsCompat)
                                                     then StatusAborted(Failed) else StatusCompleted)]
            && (b.current < |b.tasks| ==> Cur(b).state.Idle? && b.outstanding == multiset{TaskHandler})
            && (b.current == |b.tasks| ==> b.outstanding == multiset{RecipeHandler})
  {
    hide Step, Past, Enabled, IsRun, After;
    var h := OnTaskHandler(c);
    var run := RunDone(rc, localWatchdog);
    var error := RunError(Cur(a), rc, localWatchdog);
    PastEnabled(a, Run, RunOp, None, run);
    RunPast(a, rc, localWatchdog);
    var a1 := Step(a, run);
    PastEnabled(a1, Complete, PluginsOp, error, PluginsDone);
    PluginsPast(a1, error);
    TwoEvents(a, run, PluginsDone);
    var a2 := Step(a1, PluginsDone);
    PastEnabled(a2, Complete, TaskHandler, error, h);
    CompletePast(a2, error, c);
    var a3 := Step(a2, h);
    PastEnabled(a3, Completed, TaskHandler, error, h);
    CompletedPast(a3, error, c);
    TwoEvents(a2, h, h);
    var a4 := Step(a3, h);
    PastEnabled(a4, Next, StatusMessage, None, StatusSent);
    SentPast(a4);
    var a5 := Step(a4, StatusSent);
    PastEnabled(a5, Next, TaskHandler, None, h);
    NextPast(a5, c);
    TwoEvents(a4, StatusSent, h);
    JoinRuns(a2, [h, h], [StatusSent, h]);
    JoinRuns(a, [run, PluginsDone], [h, h] + [StatusSent, h]);
    assert [run, PluginsDone] + ([h, h] + [StatusSent, h]) == WindUp(rc, localWatchdog, c);
  }

  // ---- a recipe abort, revoked ----------------------------------------------------------------------------

  /** The current task completes under a recipe abort. */
  predicate AbortedAt(a: App, state: TaskState, abort: Abort) {
    && a.current + 1 < |a.tasks| && Cur(a).state == state && a.outstanding == multiset{TaskHandler}
    && a.cancelled && a.aborted == abort && !a.hasRecipeUrl
    && (state.Completed? ==> Cur(a).error == Some(AbortedByUser))
    && !a.tasks[a.current + 1].finished && a.tasks[a.current + 1].error.None?
  }

  /** The next task is still as it was. */
  predicate NextKept(a: App, b: App) {
    b.current == a.current && |b.tasks| == |a.tasks| && b.runs == a.runs && b.hasRecipeUrl == a.hasRecipeUrl
  }

  lemma RevokeRequest(a: App)
    requires AbortedAt(a, Complete, AbortedRecipe)
    ensures Enabled(a, AbortTask) && AbortedAt(Step(a, AbortTask), Complete, AbortedTask) && NextKept(a, Step(a, AbortTask))
  {
  }

  lemma RevokedComplete(a: App, c: Circumstances)
    requires AbortedAt(a, Complete, AbortedTask)
    ensures var b := Step(a, OnTaskHandler(c)); AbortedAt(b, Completed, AbortedTask) && NextKept(a, b)
  {
  }

  /** The status has been posted and no abort is left. */
  predicate Revoked(a: App, source: Source) {
    && a.current + 1 < |a.tasks| && Cur(a).state.Next? && a.outstanding == multiset{source}
    && !a.cancelled && a.aborted == NotAborted && !a.hasRecipeUrl
    && !a.tasks[a.current + 1].finished && a.tasks[a.current + 1].error.None?
  }

  lemma RevokedCompleted(a: App, c: Circumstances)
    requires AbortedAt(a, Completed, AbortedTask)
    ensures var b := Step(a, OnTaskHandler(c)); Revoked(b, StatusMessage) && NextKept(a, b)
  {
  }

  lemma RevokedSent(a: App)
    requires Revoked(a, StatusMessage)
    ensures var b := Step(a, StatusSent); Revoked(b, TaskHandler) && NextKept(a, b)
  {
  }

  lemma RevokedNext(a: App, c: Circumstances)
    requires Revoked(a, TaskHandler)
    ensures var b := Step(a, OnTaskHandler(c));
            At(b, Idle, TaskHandler) && b.current == a.current + 1 && b.runs == a.runs
  {
  }

  function Revocation(c: Circumstances): seq<Event> {
    [AbortTask] + ([OnTaskHandler(c), OnTaskHandler(c)] + [StatusSent, OnTaskHandler(c)])
  }

  lemma RevocationClears(a: App, c: Circumstances)
    requires AbortedAt(a, Complete, AbortedRecipe)
    ensures IsRun(a, Revocation(c))
    ensures var b := After(a, Revocation(c));
            At(b, Idle, TaskHandler) && b.current == a.current + 1 && b.runs == a.runs
  {
    var h := OnTaskHandler(c);
    RevokeRequest(a);
    var a1 := Step(a, AbortTask);
    RevokedComplete(a1, c);
    var a2 := Step(a1, h);
    RevokedCompleted(a2, c);
    var a3 := Step(a2, h);
    RevokedSent(a3);
    var a4 := Step(a3, StatusSent);
    RevokedNext(a4, c);
    RevocationEnabled(a1, a2, a3, a4, c);
    hide Step, AbortedAt, Revoked, At, Enabled, IsRun, After;
    TwoEvents(a1, h, h);
    TwoEvents(a3, StatusSent, h);
    JoinRuns(a1, [h, h], [StatusSent, h]);
    FirstStep(a, AbortTask, [h, h] + [StatusSent, h]);
  }

  lemma RevocationEnabled(a1: App, a2: App, a3: App, a4: App, c: Circumstances)
    requires AbortedAt(a1, Complete, AbortedTask) && AbortedAt(a2, Completed, AbortedTask)
    requires Revoked(a3, StatusMessage) && Revoked(a4, TaskHandler)
    ensures Enabled(a1, OnTaskHandler(c)) && Enabled(a2, OnTaskHandler(c)) && Enabled(a3, StatusSent)
    ensures Enabled(a4, OnTaskHandler(c))
  {
  }

  /** A task abort revokes a recipe abort: the current task is reported as aborted, the abort is spent on it, and
    * the next task is run. */
  lemma TaskAbortRevokesRecipeAbort(a: App, c: Circumstances)
    requires AbortedAt(a, Complete, AbortedRecipe) && Plain(c)
    ensures IsRun(a, Revocation(c) + RunUp(c))
    ensures After(a, Revocation(c) + RunUp(c)).runs == a.runs + [a.current + 1]
  {
    hide IsRun, After, AbortedAt, Revocation, RunUp;
    RevocationClears(a, c);
    FreshTaskRuns(After(a, Revocation(c)), c);
    JoinRuns(a, Revocation(c), RunUp(c));
  }
}
