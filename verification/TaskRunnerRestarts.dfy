/** A recipe over restarts of the daemon: what a task's section of the config file carries from one session to
  * the next, and what becomes of a local watchdog that has expired. */
module TaskRunnerRestarts {
  import opened Common
  import opened TaskRunnerModel
  import opened TaskRunnerInvariants
  import opened TaskRunnerTheorems
  import C = TaskRunnerCompletion
  import O = TaskRunnerOutcomes
  import P = TaskRunnerPaths

  /** A task's section of the config file; one that is not there reads like an empty one. */
  datatype Section = Section(started: bool, localWatchdog: bool, reboots: nat)

  const EMPTY := Section(false, false, 0)

  /** The session that runs and the sections of its tasks. */
  datatype World = World(app: App, config: seq<Section>)

  datatype Item = Ev(e: Event) | Restart(tasks: seq<Task>)

  /** parse_task_config finds what the section says, where it can be read. */
  predicate ReadsConfig(w: World, e: Event) {
    e.OnTaskHandler? && e.c.readable && w.app.current < |w.app.tasks| && Cur(w.app).state.Idle? ==>
      && w.app.current < |w.config|
      && e.c.started == w.config[w.app.current].started && e.c.localWatchdog == w.config[w.app.current].localWatchdog
  }

  /** A restart may come between any two steps; the new daemon parses the recipe again. */
  predicate Possible(w: World, i: Item) {
    match i
    case Ev(e) => Enabled(w.app, e) && ReadsConfig(w, e)
    case Restart(tasks) => FreshRecipe(tasks) && |tasks| == |w.config|
  }

  predicate Executes(a: App, e: Event) {
    e.OnTaskHandler? && a.current < |a.tasks| && Cur(a).state.Run? && !a.cancelled
  }

  predicate Expires(a: App, e: Event) {
    e.RunDone? && a.current < |a.tasks| && e.rc != 0 && e.localWatchdog
  }

  /** The step that posts the final status and removes the section. */
  predicate Reports(a: App, e: Event) {
    e.OnTaskHandler? && a.current < |a.tasks| && Cur(a).state.Completed?
  }

  /** What a step writes: TASK_RUN counts the execution, task_finish_callback records an expired watchdog, and
    * TASK_COMPLETED removes the section. */
  function Written(s: Section, a: App, e: Event): Section {
    if Executes(a, e) then s.(started := true, reboots := s.reboots + 1)
    else if Expires(a, e) then s.(localWatchdog := true)
    else if Reports(a, e) then EMPTY
    else s
  }

  function Next(w: World, i: Item): World
    requires Possible(w, i)
  {
    match i
    case Ev(e) =>
      var n := w.app.current;
      World(Step(w.app, e), if n < |w.config| then w.config[n := Written(w.config[n], w.app, e)] else w.config)
    case Restart(tasks) => World(Begin(tasks, w.app.hasRecipeUrl), w.config)
  }

  predicate IsHistory(w: World, items: seq<Item>)
    decreases |items|
  {
    items == [] || (Possible(w, items[0]) && IsHistory(Next(w, items[0]), items[1..]))
  }

  function Then(w: World, items: seq<Item>): World
    requires IsHistory(w, items)
    decreases |items|
  {
    if items == [] then w else Then(Next(w, items[0]), items[1..])
  }

  /** A recipe that has never been run before. */
  function Start(tasks: seq<Task>, url: bool): World {
    World(Begin(tasks, url), seq(|tasks|, t => EMPTY))
  }

  // ---- what has happened ----------------------------------------------------------------------------------

  /** The past of a task since its status was last posted: how often it was executed, whether its watchdog has
    * expired, and whether the daemon was restarted since. */
  datatype Past = Past(executions: nat, expired: bool, interrupted: bool)

  const NEW := Past(0, false, false)

  function Happened(p: Past, a: App, e: Event): Past {
    if Executes(a, e) then p.(executions := p.executions + 1)
    else if Expires(a, e) then p.(expired := true)
    else if Reports(a, e) then NEW
    else p
  }

  function Observe(past: seq<Past>, w: World, i: Item): seq<Past> {
    match i
    case Ev(e) =>
      if w.app.current < |past| then past[w.app.current := Happened(past[w.app.current], w.app, e)] else past
    case Restart(_) => seq(|past|, t requires 0 <= t < |past| => past[t].(interrupted := past[t].expired))
  }

  function Observed(past: seq<Past>, w: World, items: seq<Item>): seq<Past>
    requires IsHistory(w, items)
    decreases |items|
  {
    if items == [] then past else Observed(Observe(past, w, items[0]), Next(w, items[0]), items[1..])
  }

  /** The fate of the current task in the session that runs. */
  function ObservedFate(k: O.Fate, w: World, items: seq<Item>): O.Fate
    requires IsHistory(w, items)
    decreases |items|
  {
    if items == [] then k else ObservedFate(FateOf(k, w, items[0]), Next(w, items[0]), items[1..])
  }

  function FateOf(k: O.Fate, w: World, i: Item): O.Fate {
    match i
    case Ev(e) => O.Observe(k, w.app, e)
    case Restart(_) => O.CLEAR
  }

  /** The events that change a section, by what they do to the recipe: the run of the current task begins, a run
    * ends with an expired watchdog, and a final status is posted. */
  lemma SectionEvents(a: App, e: Event)
    requires Enabled(a, e)
    ensures Executes(a, e) <==> Step(a, e).runs == a.runs + [a.current]
    ensures Reports(a, e) <==> exists s: Status :: !s.StatusRunning? && Step(a, e).posts == a.posts + [Post(a.current, s)]
    ensures Executes(a, e) || Reports(a, e) ==> !Expires(a, e)
  {
    if e.OnTaskHandler? && a.current < |a.tasks| {
      HandlerSections(Removes(a, TaskHandler), e.c);
    } else {
      AnswerSections(a, e);
    }
  }

  lemma HandlerSections(a: App, c: Circumstances)
    requires a.current < |a.tasks|
    ensures Executes(a, OnTaskHandler(c)) <==> HandlerStep(a, c).runs == a.runs + [a.current]
    ensures Reports(a, OnTaskHandler(c)) <==>
              exists s: Status :: !s.StatusRunning? && HandlerStep(a, c).posts == a.posts + [Post(a.current, s)]
  {
    hide HandlerStep;
    HandlerRuns(a, c);
    var posts := HandlerStep(a, c).posts;
    if Cur(a).state.Completed? {
      C.CompletedPosts(a, c);
      assert posts == a.posts + [Post(a.current, posts[|a.posts|].status)];
    } else if Cur(a).state.Idle? {
      C.IdlePosts(a, c);
      assert posts != a.posts ==> posts[|a.posts|] == Post(a.current, StatusRunning);
    } else {
      C.OthersPostNothing(a, c);
    }
  }

  lemma HandlerRuns(a: App, c: Circumstances)
    requires a.current < |a.tasks|
    ensures HandlerStep(a, c).runs == if Cur(a).state.Run? && !a.cancelled then a.runs + [a.current] else a.runs
  {
  }

  lemma AnswerSections(a: App, e: Event)
    requires Enabled(a, e) && !(e.OnTaskHandler? && a.current < |a.tasks|)
    ensures Step(a, e).runs == a.runs && Step(a, e).posts == a.posts
  {
    hide HandlerStep, OnFetchDone, OnMetadataDone, OnRolesDone, OnRunDone, OnDependenciesDone;
    if NeedsTask(e) && SourceOf(e).Some? {
      FetchingSections(Removes(a, SourceOf(e).value), e);
      EndingSections(Removes(a, SourceOf(e).value), e);
    }
  }

  lemma FetchingSections(a: App, e: Event)
    requires a.current < |a.tasks|
    ensures e.FetchDone? ==> OnFetchDone(a, e.failed).runs == a.runs && OnFetchDone(a, e.failed).posts == a.posts
    ensures e.MetadataDone? ==> var b := OnMetadataDone(a, e.failed, e.hasMetadata); b.runs == a.runs && b.posts == a.posts
  {
  }

  lemma EndingSections(a: App, e: Event)
    requires a.current < |a.tasks|
    ensures e.RolesDone? ==> var b := OnRolesDone(a, e.failed, e.unusable); b.runs == a.runs && b.posts == a.posts
    ensures e.DependenciesDone? ==> var b := OnDependenciesDone(a, e.failed); b.runs == a.runs && b.posts == a.posts
    ensures e.RunDone? ==> var b := OnRunDone(a, e.rc, e.localWatchdog); b.runs == a.runs && b.posts == a.posts
  {
  }

  // ---- the invariant --------------------------------------------------------------------------------------

  /** The section says what has happened. */
  predicate Agrees(s: Section, p: Past) {
    s.reboots == p.executions && (s.started <==> p.executions > 0) && s.localWatchdog == p.expired
  }

  /** What an expired watchdog means for the task that is current. */
  predicate CurrentAgrees(t: Task, p: Past, k: O.Fate) {
    match t.state
    case Idle => p.expired ==> p.interrupted
    case Complete => p.expired ==> (if p.interrupted then k.failed == t.unreadable else k.failed)
    case Completed => p.expired ==> (if p.interrupted then k.failed == t.unreadable else k.failed)
    case Next => true
    case _ => !p.expired
  }

  predicate Remembers(w: World, past: seq<Past>, k: O.Fate) {
    && |w.config| == |w.app.tasks| == |past|
    && (forall t :: 0 <= t < |past| ==> Agrees(w.config[t], past[t]) && (past[t].interrupted ==> past[t].expired))
    && (forall t :: w.app.current < t < |past| ==> past[t].expired ==> past[t].interrupted)
    && (w.app.current < |past| ==> CurrentAgrees(Cur(w.app), past[w.app.current], k))
  }

  predicate Sound(w: World, past: seq<Past>, k: O.Fate) {
    Valid(w.app) && O.Faithful(w.app, k) && Remembers(w, past, k)
  }

  lemma StepAgrees(s: Section, p: Past, a: App, e: Event)
    requires Agrees(s, p) && (p.interrupted ==> p.expired)
    ensures Agrees(Written(s, a, e), Happened(p, a, e))
    ensures Happened(p, a, e).interrupted ==> Happened(p, a, e).expired
  {
  }

  // ---- the current task, step by step ---------------------------------------------------------------------

  /** The current task goes on: what its next state asks of its past. */
  predicate GoesOn(a: App, b: App, p: Past, q: Past, k: O.Fate) {
    && b.current == a.current < |a.tasks| == |b.tasks|
    && CurrentAgrees(Cur(b), q, k)
  }

  /** Where TASK_IDLE leads: to COMPLETE with the error of an unreadable section, or with a watchdog that has
    * expired, and elsewhere only without one. */
  predicate IdleLeads(a: App, b: App, c: Circumstances) {
    && b.current == a.current < |a.tasks| == |b.tasks|
    && Cur(b).unreadable == (Cur(a).unreadable || !c.readable)
    && match Cur(b).state
       case Idle => false
       case Completed => false
       case Complete => true
       case Next => true
       case _ => c.readable && !c.localWatchdog
  }

  lemma IdleGoes(a: App, c: Circumstances)
    requires a.current < |a.tasks| && Cur(a).state.Idle?
    ensures IdleLeads(a, HandlerStep(a, c), c)
  {
  }

  lemma IdleGoesOn(a: App, c: Circumstances, p: Past, k: O.Fate)
    requires a.current < |a.tasks| && Cur(a).state.Idle? && O.Faithful(a, k)
    requires CurrentAgrees(Cur(a), p, k) && (c.readable ==> c.localWatchdog == p.expired)
    requires !Cur(a).unreadable
    ensures GoesOn(a, HandlerStep(a, c), p, p, O.Observe(k, a, OnTaskHandler(c)))
  {
    hide HandlerStep;
    IdleGoes(a, c);
  }

  lemma MiddleGoesOn(a: App, c: Circumstances, p: Past, k: O.Fate)
    requires a.current < |a.tasks| && CurrentAgrees(Cur(a), p, k)
    requires var s := Cur(a).state; !s.Idle? && !s.Complete? && !s.Completed? && !s.Next?
    ensures GoesOn(a, HandlerStep(a, c), p, Happened(p, a, OnTaskHandler(c)), O.Observe(k, a, OnTaskHandler(c)))
  {
    hide HandlerStep, O.Observe;
    PlainStates(a, c);
  }

  /** The handler went to no state that asks for more than !expired. */
  predicate Plain(a: App, b: App) {
    b.current == a.current < |a.tasks| && |b.tasks| == |a.tasks| && !Cur(b).state.Next? && !Cur(b).state.Completed?
  }

  lemma EarlyStates(a: App, c: Circumstances)
    requires a.current < |a.tasks|
    requires var s := Cur(a).state; s.Fetch? || s.MetadataParse? || s.RefreshRoles?
    ensures Plain(a, HandlerStep(a, c))
  {
  }

  lemma MiddleStates(a: App, c: Circumstances)
    requires a.current < |a.tasks|
    requires var s := Cur(a).state; s.Env? || s.Watchdog? || s.Dependencies?
    ensures Plain(a, HandlerStep(a, c))
  {
  }

  lemma RunStates(a: App, c: Circumstances)
    requires a.current < |a.tasks| && Cur(a).state.Run?
    ensures Plain(a, HandlerStep(a, c))
  {
  }

  lemma PlainStates(a: App, c: Circumstances)
    requires a.current < |a.tasks|
    requires var s := Cur(a).state; !s.Idle? && !s.Complete? && !s.Completed? && !s.Next?
    ensures Plain(a, HandlerStep(a, c))
  {
    hide HandlerStep, Plain;
    match Cur(a).state {
      case Fetch => EarlyStates(a, c);
      case MetadataParse => EarlyStates(a, c);
      case RefreshRoles => EarlyStates(a, c);
      case Env => MiddleStates(a, c);
      case Watchdog => MiddleStates(a, c);
      case Dependencies => MiddleStates(a, c);
      case Run => RunStates(a, c);
      case _ =>
    }
  }

  lemma LateGoesOn(a: App, c: Circumstances, p: Past, k: O.Fate)
    requires a.current < |a.tasks| && CurrentAgrees(Cur(a), p, k) && (Cur(a).state.Complete? || Cur(a).state.Completed?)
    ensures GoesOn(a, HandlerStep(a, c), p, Happened(p, a, OnTaskHandler(c)), O.Observe(k, a, OnTaskHandler(c)))
  {
  }

  lemma HandlerGoesOn(a: App, c: Circumstances, p: Past, k: O.Fate)
    requires Shape(a) && a.current < |a.tasks| && !Cur(a).state.Next? && O.Faithful(a, k)
    requires CurrentAgrees(Cur(a), p, k) && (Cur(a).state.Idle? && c.readable ==> c.localWatchdog == p.expired)
    ensures GoesOn(a, HandlerStep(a, c), p, Happened(p, a, OnTaskHandler(c)), O.Observe(k, a, OnTaskHandler(c)))
  {
    hide HandlerStep, GoesOn, O.Observe, Fresh, Finals, Reporting;
    if Cur(a).state.Idle? {
      IdleGoesOn(a, c, p, k);
    } else if Cur(a).state.Complete? || Cur(a).state.Completed? {
      LateGoesOn(a, c, p, k);
    } else {
      MiddleGoesOn(a, c, p, k);
    }
  }

  lemma RunGoesOn(a: App, p: Past, k: O.Fate, rc: int, localWatchdog: bool)
    requires a.current < |a.tasks| && Cur(a).state.Run? && CurrentAgrees(Cur(a), p, k)
    requires p.interrupted ==> p.expired
    ensures var e := RunDone(rc, localWatchdog);
            GoesOn(a, OnRunDone(a, rc, localWatchdog), p, Happened(p, a, e), O.Observe(k, a, e))
  {
    var b := OnRunDone(a, rc, localWatchdog);
    assert Cur(b).state.Complete? && b.current == a.current && |b.tasks| == |a.tasks|;
  }

  /** The other answers find and leave a watchdog that has not expired, or a task that has ended. */
  lemma AnswerGoesOn(a: App, p: Past, k: O.Fate, e: Event)
    requires a.current < |a.tasks| && CurrentAgrees(Cur(a), p, k)
    requires SourceOf(e).Some? && NeedsTask(e) && Matches(SourceOf(e).value, Cur(a).state) && !e.RunDone?
    ensures GoesOn(a, Callback(a, e), p, p, O.Observe(k, a, e))
  {
    if e.StatusSent? || e.WatchdogSent? || e.PluginsDone? {
      assert Cur(Callback(a, e)) == Cur(a) && O.Observe(k, a, e) == k;
    } else {
      assert !p.expired;
      AnswerStays(a, e);
    }
  }

  lemma AnswerStays(a: App, e: Event)
    requires a.current < |a.tasks| && SourceOf(e).Some? && NeedsTask(e)
    ensures Callback(a, e).current == a.current && |Callback(a, e).tasks| == |a.tasks|
  {
  }

  lemma NextMovesOn(a: App, c: Circumstances)
    requires Shape(a) && a.current < |a.tasks| && Cur(a).state.Next?
    ensures var b := HandlerStep(a, c);
            && b.current == a.current + 1 && |b.tasks| == |a.tasks|
            && (b.current < |b.tasks| ==> Cur(b).state.Idle?)
  {
  }

  // ---- one item ---------------------------------------------------------------------------------------------

  lemma GoingOnRemembers(w: World, past: seq<Past>, k: O.Fate, e: Event)
    requires Remembers(w, past, k) && w.app.current < |past| && Enabled(w.app, e) && ReadsConfig(w, e)
    requires var n := w.app.current;
             GoesOn(w.app, Step(w.app, e), past[n], Happened(past[n], w.app, e), O.Observe(k, w.app, e))
    ensures Remembers(Next(w, Ev(e)), Observe(past, w, Ev(e)), O.Observe(k, w.app, e))
  {
    hide Step, Enabled, Agrees, CurrentAgrees, Written, Happened, O.Observe, ReadsConfig;
    var n := w.app.current;
    StepAgrees(w.config[n], past[n], w.app, e);
  }

  lemma MovingOnRemembers(w: World, past: seq<Past>, k: O.Fate, e: Event, j: O.Fate)
    requires Remembers(w, past, k) && w.app.current < |past| && Enabled(w.app, e) && ReadsConfig(w, e)
    requires Cur(w.app).state.Next? && e.OnTaskHandler?
    requires var b := Step(w.app, e);
             && b.current == w.app.current + 1 && |b.tasks| == |past|
             && (b.current < |b.tasks| ==> Cur(b).state.Idle?)
    ensures Remembers(Next(w, Ev(e)), Observe(past, w, Ev(e)), j)
  {
    hide Step, Enabled, Agrees;
    var n := w.app.current;
    assert Written(w.config[n], w.app, e) == w.config[n] && Happened(past[n], w.app, e) == past[n];
    assert w.config[n := w.config[n]] == w.config && past[n := past[n]] == past;
  }

  lemma QuietRemembers(w: World, past: seq<Past>, k: O.Fate, e: Event, b: App)
    requires Remembers(w, past, k) && Enabled(w.app, e) && ReadsConfig(w, e) && b == Step(w.app, e)
    requires b.current == w.app.current && b.tasks == w.app.tasks
    requires SourceOf(e).None? || (e.OnRecipeHandler? && w.app.current == |w.app.tasks|)
    ensures Remembers(Next(w, Ev(e)), Observe(past, w, Ev(e)), O.Observe(k, w.app, e))
  {
    hide Step, Enabled, Agrees;
    var n := w.app.current;
    if n < |past| {
      assert Written(w.config[n], w.app, e) == w.config[n] && Happened(past[n], w.app, e) == past[n];
      assert w.config[n := w.config[n]] == w.config && past[n := past[n]] == past;
      assert O.Observe(k, w.app, e) == k;
    }
  }

  lemma EventRemembers(w: World, past: seq<Past>, k: O.Fate, e: Event)
    requires Sound(w, past, k) && Possible(w, Ev(e))
    ensures Remembers(Next(w, Ev(e)), Observe(past, w, Ev(e)), O.Observe(k, w.app, e))
  {
    var a := w.app;
    if SourceOf(e).None? {
      hide Step, Valid, Remembers, O.Faithful, Enabled, ReadsConfig;
      RequestStep(a, e);
      QuietRemembers(w, past, k, e, Step(a, e));
    } else if a.current == |a.tasks| {
      hide Step, AtEnd, Remembers, O.Faithful, ReadsConfig;
      LastStep(a, e);
      QuietRemembers(w, past, k, e, Step(a, e));
    } else {
      hide Step, Remembers, O.Faithful, O.Observe, Shape, AtEnd, Callback, CurrentAgrees, GoesOn, Happened;
      TaskEventRemembers(w, past, k, e);
    }
  }

  lemma CurrentPast(w: World, past: seq<Past>, k: O.Fate)
    requires Remembers(w, past, k) && w.app.current < |w.app.tasks|
    ensures w.app.current < |past| == |w.config| == |w.app.tasks|
    ensures CurrentAgrees(Cur(w.app), past[w.app.current], k)
    ensures w.config[w.app.current].localWatchdog == past[w.app.current].expired
    ensures past[w.app.current].interrupted ==> past[w.app.current].expired
  {
  }

  lemma TaskEventRemembers(w: World, past: seq<Past>, k: O.Fate, e: Event)
    requires Sound(w, past, k) && Possible(w, Ev(e)) && SourceOf(e).Some? && w.app.current < |w.app.tasks|
    ensures Remembers(Next(w, Ev(e)), Observe(past, w, Ev(e)), O.Observe(k, w.app, e))
  {
    hide Step, Remembers, O.Faithful, O.Observe, Shape, AtEnd, Callback, CurrentAgrees, GoesOn, Happened, HandlerStep;
    var a := w.app;
    var n := a.current;
    var s :| Waits(a, s) && Matches(s, Cur(a).state);
    CurrentPast(w, past, k);
    TaskStep(a, e, s);
    ShapeHasNoSource(a);
    var b := a.(outstanding := multiset{});
    O.SourcelessFate(a, k, e);
    SourcelessPast(a, past[n], k, e);
    if e.OnTaskHandler? {
      HandlerCallback(b, e);
      if Cur(a).state.Next? {
        NextMovesOn(b, e.c);
        MovingOnRemembers(w, past, k, e, O.Observe(k, a, e));
      } else {
        HandlerGoesOn(b, e.c, past[n], k);
        SourcelessGoesOn(a, Step(a, e), past[n], Happened(past[n], a, e), O.Observe(k, a, e));
        GoingOnRemembers(w, past, k, e);
      }
    } else {
      if e.RunDone? {
        RunGoesOn(b, past[n], k, e.rc, e.localWatchdog);
        RunCallback(b, e);
      } else {
        AnswerGoesOn(b, past[n], k, e);
        NothingHappened(b, past[n], e);
      }
      SourcelessGoesOn(a, Step(a, e), past[n], Happened(past[n], a, e), O.Observe(k, a, e));
      GoingOnRemembers(w, past, k, e);
    }
  }

  lemma RunCallback(a: App, e: Event)
    requires e.RunDone? && a.current < |a.tasks|
    ensures Callback(a, e) == OnRunDone(a, e.rc, e.localWatchdog)
  {
    hide OnRunDone;
  }

  lemma NothingHappened(a: App, p: Past, e: Event)
    requires !e.OnTaskHandler? && !e.RunDone?
    ensures Happened(p, a, e) == p
  {
  }

  lemma SourcelessPast(a: App, p: Past, k: O.Fate, e: Event)
    ensures var b := a.(outstanding := multiset{});
            Happened(p, b, e) == Happened(p, a, e) && O.Observe(k, b, e) == O.Observe(k, a, e)
  {
  }

  lemma SourcelessGoesOn(a: App, b: App, p: Past, q: Past, k: O.Fate)
    ensures GoesOn(a.(outstanding := multiset{}), b, p, q, k) ==> GoesOn(a, b, p, q, k)
  {
  }

  lemma RestartRemembers(w: World, past: seq<Past>, k: O.Fate, tasks: seq<Task>)
    requires Remembers(w, past, k) && Possible(w, Restart(tasks))
    ensures Remembers(Next(w, Restart(tasks)), Observe(past, w, Restart(tasks)), O.CLEAR)
  {
    hide Agrees;
    assert tasks[0] in tasks;
    forall t | 0 <= t < |past| ensures Agrees(w.config[t], past[t].(interrupted := past[t].expired)) {
      InterruptionAgrees(w.config[t], past[t]);
    }
  }

  lemma InterruptionAgrees(s: Section, p: Past)
    ensures Agrees(s, p) == Agrees(s, p.(interrupted := p.expired))
  {
  }

  lemma FreshIsFaithful(tasks: seq<Task>, url: bool)
    requires FreshRecipe(tasks)
    ensures O.Faithful(Begin(tasks, url), O.CLEAR)
  {
    assert tasks[0] in tasks;
  }

  lemma ItemSound(w: World, past: seq<Past>, k: O.Fate, i: Item)
    requires Sound(w, past, k) && Possible(w, i)
    ensures Sound(Next(w, i), Observe(past, w, i), FateOf(k, w, i))
  {
    hide Valid, O.Faithful, Remembers, Enabled, Step, ReadsConfig, FreshRecipe, O.Observe;
    match i
    case Ev(e) =>
      StepKeepsValid(w.app, e);
      O.StepFate(w.app, k, e);
      EventRemembers(w, past, k, e);
    case Restart(tasks) =>
      FreshIsValid(tasks, w.app.hasRecipeUrl);
      FreshIsFaithful(tasks, w.app.hasRecipeUrl);
      RestartRemembers(w, past, k, tasks);
  }

  lemma FreshIsValid(tasks: seq<Task>, url: bool)
    requires FreshRecipe(tasks)
    ensures Valid(Begin(tasks, url))
  {
    BeginIsValid(tasks, url);
  }

  // ---- whole histories --------------------------------------------------------------------------------------

  lemma {:induction false} HistorySound(w: World, past: seq<Past>, k: O.Fate, items: seq<Item>)
    requires Sound(w, past, k) && IsHistory(w, items)
    ensures Sound(Then(w, items), Observed(past, w, items), ObservedFate(k, w, items))
    decreases |items|
  {
    hide Sound, Possible, Next, Observe, FateOf;
    if items != [] {
      ItemSound(w, past, k, items[0]);
      HistorySound(Next(w, items[0]), Observe(past, w, items[0]), FateOf(k, w, items[0]), items[1..]);
    }
  }

  function Nothing(n: nat): seq<Past> {
    seq(n, t => NEW)
  }

  lemma StartSound(tasks: seq<Task>, url: bool)
    requires FreshRecipe(tasks)
    ensures Sound(Start(tasks, url), Nothing(|tasks|), O.CLEAR)
  {
    FreshIsValid(tasks, url);
    FreshIsFaithful(tasks, url);
    assert tasks[0] in tasks;
  }

  /** Over any number of restarts a task's section says how often the task was executed since its status was last
    * posted, whether it was at all, and whether its watchdog has expired since. */
  lemma SectionsTellThePast(tasks: seq<Task>, url: bool, items: seq<Item>, t: nat)
    requires FreshRecipe(tasks) && IsHistory(Start(tasks, url), items) && t < |tasks|
    ensures var w := Then(Start(tasks, url), items);
            var past := Observed(Nothing(|tasks|), Start(tasks, url), items);
            && |w.config| == |past| == |w.app.tasks|
            && (t < |past| ==>
                  && w.config[t].reboots == past[t].executions && (w.config[t].started <==> past[t].executions > 0)
                  && (w.config[t].localWatchdog <==> past[t].expired))
  {
    hide Start, Nothing, Valid, O.Faithful;
    StartSound(tasks, url);
    HistorySound(Start(tasks, url), Nothing(|tasks|), O.CLEAR, items);
  }

  /** When a task whose local watchdog has expired is completed, in this session or a later one, it is reported
    * Aborted if and only if the daemon has not been restarted in between, or an abort was in force, or its
    * section could not be read; otherwise it is reported Completed. */
  lemma ExpiredWatchdogIsReported(tasks: seq<Task>, url: bool, items: seq<Item>, c: Circumstances)
    requires FreshRecipe(tasks) && IsHistory(Start(tasks, url), items)
    requires var a := Then(Start(tasks, url), items).app;
             a.current < |a.tasks| && Cur(a).state.Completed? && Enabled(a, OnTaskHandler(c))
    requires var past := Observed(Nothing(|tasks|), Start(tasks, url), items);
             var n := Then(Start(tasks, url), items).app.current; n < |past| && past[n].expired
    ensures var a := Then(Start(tasks, url), items).app;
            var p := Observed(Nothing(|tasks|), Start(tasks, url), items)[a.current];
            var k := ObservedFate(O.CLEAR, Start(tasks, url), items);
            && Step(a, OnTaskHandler(c)).posts == a.posts + [Post(a.current, O.FinalStatus(k))]
            && (O.FinalStatus(k).StatusAborted? <==> !p.interrupted || k.aborted || Cur(a).unreadable)
            && (O.FinalStatus(k).StatusCompleted? <==> p.interrupted && !k.aborted && !Cur(a).unreadable)
  {
    hide Start, Nothing, Valid, O.Faithful, Step, Enabled;
    StartSound(tasks, url);
    HistorySound(Start(tasks, url), Nothing(|tasks|), O.CLEAR, items);
    var w := Then(Start(tasks, url), items);
    var k := ObservedFate(O.CLEAR, Start(tasks, url), items);
    CurrentPast(w, Observed(Nothing(|tasks|), Start(tasks, url), items), k);
    HandlerIsDue(w.app, c);
    O.CompletedPosts(w.app, k, c);
  }

  lemma HandlerIsDue(a: App, c: Circumstances)
    requires Enabled(a, OnTaskHandler(c))
    ensures TaskHandler in a.outstanding
  {
  }

  // ---- the interrupted run ----------------------------------------------------------------------------------

  function Events(run: seq<Event>): seq<Item> {
    if run == [] then [] else [Ev(run[0])] + Events(run[1..])
  }

  lemma FirstItem(w: World, i: Item, items: seq<Item>)
    requires Possible(w, i) && IsHistory(Next(w, i), items)
    ensures IsHistory(w, [i] + items) && Then(w, [i] + items) == Then(Next(w, i), items)
  {
    assert ([i] + items)[1..] == items;
  }

  lemma {:induction false} JoinHistories(w: World, items: seq<Item>, more: seq<Item>)
    requires IsHistory(w, items) && IsHistory(Then(w, items), more)
    ensures IsHistory(w, items + more) && Then(w, items + more) == Then(Then(w, items), more)
    decreases |items|
  {
    hide Possible, Next;
    if items == [] {
      assert items + more == more;
    } else {
      assert (items + more)[0] == items[0] && (items + more)[1..] == items[1..] + more;
      JoinHistories(Next(w, items[0]), items[1..], more);
    }
  }

  predicate Blank(config: seq<Section>) {
    forall t :: 0 <= t < |config| ==> config[t] == EMPTY
  }

  lemma CalmItem(w: World, e: Event)
    requires P.Calm(w.app, e) && |w.config| == |w.app.tasks| && Blank(w.config)
    ensures Possible(w, Ev(e)) && Next(w, Ev(e)) == World(Step(w.app, e), w.config)
    ensures |Step(w.app, e).tasks| == |w.app.tasks|
  {
    CalmReads(w, e);
    hide HandlerStep;
    var n := w.app.current;
    assert Written(w.config[n], w.app, e) == w.config[n];
    assert w.config[n := w.config[n]] == w.config;
    TasksStay(w.app, e);
  }

  lemma CalmReads(w: World, e: Event)
    requires P.Calm(w.app, e) && |w.config| == |w.app.tasks| && Blank(w.config)
    ensures Possible(w, Ev(e))
  {
    hide HandlerStep;
  }

  lemma TasksStay(a: App, e: Event)
    requires Enabled(a, e) && a.current < |a.tasks|
    ensures |Step(a, e).tasks| == |a.tasks|
  {
    if e.OnTaskHandler? {
      hide HandlerStep;
      HandlerTasksStay(Removes(a, TaskHandler), e.c);
    } else if NeedsTask(e) && SourceOf(e).Some? {
      hide Callback;
      AnswerStays(Removes(a, SourceOf(e).value), e);
    }
  }

  lemma HandlerTasksStay(a: App, c: Circumstances)
    requires a.current < |a.tasks|
    ensures |HandlerStep(a, c).tasks| == |a.tasks|
  {
    if Cur(a).state.Idle? {
    } else if Cur(a).state.Next? {
    } else if Cur(a).state.Complete? || Cur(a).state.Completed? {
    } else {
      hide HandlerStep;
      PlainStates(a, c);
    }
  }

  /** A run that neither executes, ends nor reports a task is a history that leaves the sections alone. */
  lemma {:induction false} CalmHistory(w: World, run: seq<Event>)
    requires IsRun(w.app, run) && P.CalmRun(w.app, run) && |w.config| == |w.app.tasks| && Blank(w.config)
    ensures IsHistory(w, Events(run)) && Then(w, Events(run)) == World(After(w.app, run), w.config)
    decreases |run|
  {
    hide Step, P.Calm, Possible, Next, Blank;
    if run != [] {
      CalmItem(w, run[0]);
      CalmHistory(Next(w, Ev(run[0])), run[1..]);
      FirstItem(w, Ev(run[0]), Events(run[1..]));
    }
  }

  /** The only task is due to be executed, or executes, or has ended with an expired watchdog. */
  predicate Executing(w: World, source: Source, s: Section) {
    && w.app.current == 0 && |w.app.tasks| == 1 && Cur(w.app).state.Run? && w.app.outstanding == multiset{source}
    && !w.app.cancelled && !w.app.hasRecipeUrl && w.config == [s]
  }

  lemma ExecutingStarts(w: World, c: Circumstances)
    requires Executing(w, TaskHandler, EMPTY)
    ensures Possible(w, Ev(OnTaskHandler(c)))
    ensures Executing(Next(w, Ev(OnTaskHandler(c))), RunOp, Section(true, false, 1))
  {
  }

  lemma ExecutingExpires(w: World, rc: int)
    requires Executing(w, RunOp, Section(true, false, 1)) && rc != 0
    ensures Possible(w, Ev(RunDone(rc, true)))
    ensures var v := Next(w, Ev(RunDone(rc, true)));
            v.config == [Section(true, true, 1)] && !v.app.hasRecipeUrl
  {
  }

  /** Before the restart: the task is prepared and executed, and its watchdog expires. */
  function Expiry(c: Circumstances, rc: int): seq<Item> {
    Events(P.Preparation(c)) + ([Ev(OnTaskHandler(c))] + [Ev(RunDone(rc, true))])
  }

  lemma OneItem(w: World, i: Item)
    requires Possible(w, i)
    ensures IsHistory(w, [i]) && Then(w, [i]) == Next(w, i)
  {
    hide Possible, Next;
    FirstItem(w, i, []);
    assert [i] + [] == [i];
  }

  lemma ExpiryHappens(t: Task, c: Circumstances, rc: int)
    requires Fresh(t) && !t.finished && P.Plain(c) && rc != 0
    ensures IsHistory(Start([t], false), Expiry(c, rc))
    ensures var v := Then(Start([t], false), Expiry(c, rc));
            v.config == [Section(true, true, 1)] && !v.app.hasRecipeUrl
  {
    var w := Start([t], false);
    PreparedToExecute(t, c);
    hide Start, Possible, Next, Executing, IsHistory, Then, P.Preparation;
    var b := Then(w, Events(P.Preparation(c)));
    ExecutingStarts(b, c);
    OneItem(b, Ev(OnTaskHandler(c)));
    var d := Next(b, Ev(OnTaskHandler(c)));
    ExecutingExpires(d, rc);
    OneItem(d, Ev(RunDone(rc, true)));
    JoinHistories(b, [Ev(OnTaskHandler(c))], [Ev(RunDone(rc, true))]);
    JoinHistories(w, Events(P.Preparation(c)), [Ev(OnTaskHandler(c))] + [Ev(RunDone(rc, true))]);
  }

  lemma PreparedToExecute(t: Task, c: Circumstances)
    requires Fresh(t) && !t.finished && P.Plain(c)
    ensures IsHistory(Start([t], false), Events(P.Preparation(c)))
    ensures Executing(Then(Start([t], false), Events(P.Preparation(c))), TaskHandler, EMPTY)
  {
    hide IsRun, After, P.CalmRun, IsHistory, Then, P.Preparation, Events, P.Plain, P.At, Executing, Start, Blank;
    var w := Start([t], false);
    StartIsDue(t);
    P.FreshTaskIsPrepared(w.app, c);
    CalmHistory(w, P.Preparation(c));
    DueToExecute(w, After(w.app, P.Preparation(c)));
  }

  lemma StartIsDue(t: Task)
    requires Fresh(t) && !t.finished
    ensures var w := Start([t], false);
            && P.At(w.app, Idle, TaskHandler) && w.config == [EMPTY] && Blank(w.config)
            && |w.app.tasks| == 1 && w.app.current == 0
  {
  }

  lemma DueToExecute(w: World, b: App)
    requires w.config == [EMPTY] && |w.app.tasks| == 1 && w.app.current == 0
    requires P.At(b, Run, TaskHandler) && P.Along(w.app, b)
    ensures Executing(World(b, w.config), TaskHandler, EMPTY)
  {
  }

  lemma EventItem(w: World, e: Event)
    requires Enabled(w.app, e) && (w.app.current < |w.app.tasks| && Cur(w.app).state.Idle? ==> ReadsConfig(w, e))
    ensures Possible(w, Ev(e)) && Next(w, Ev(e)).app == Step(w.app, e)
  {
    hide Step;
  }

  lemma {:induction false} HistoryOfOne(w: World, e: Event, run: seq<Event>)
    requires Possible(w, Ev(e)) && Next(w, Ev(e)).app == Step(w.app, e)
    requires IsHistory(Next(w, Ev(e)), Events(run)) && IsRun(Step(w.app, e), run)
    requires Then(Next(w, Ev(e)), Events(run)).app == After(Step(w.app, e), run)
    ensures IsRun(w.app, [e] + run) && IsHistory(w, Events([e] + run))
    ensures Then(w, Events([e] + run)).app == After(w.app, [e] + run) == After(Step(w.app, e), run)
  {
    hide Step, Next;
    FirstStep(w.app, e, run);
    FirstItem(w, Ev(e), Events(run));
    assert ([e] + run)[1..] == run;
  }

  /** The daemon that comes back finds the expired watchdog in the section. */
  lemma ForgottenSteps(w: World, t: Task, d: Circumstances)
    requires w == World(Begin([t], false), [Section(true, true, 1)]) && Fresh(t) && !t.finished
    requires d.readable && d.started && d.localWatchdog
    ensures var e := OnTaskHandler(d); var run := [e] + ([e] + ([e] + []));
            && IsHistory(w, Events(run))
            && Then(w, Events(run)).app.runs == [] && Then(w, Events(run)).app.posts == [Post(0, StatusCompleted)]
  {
    hide HandlerStep, Step, Next, Undisturbed;
    var e := OnTaskHandler(d);
    ForgottenFirst(w, t, d);
    var w1 := Next(w, Ev(e));
    LateItem(w1, Complete, d);
    UndisturbedComplete(w1.app, d);
    var w2 := Next(w1, Ev(e));
    LateItem(w2, Completed, d);
    UndisturbedCompleted(w2.app, d);
    var w3 := Next(w2, Ev(e));
    assert IsHistory(w3, Events([])) && IsRun(w3.app, []);
    HistoryOfOne(w2, e, []);
    HistoryOfOne(w1, e, [e] + []);
    HistoryOfOne(w, e, [e] + ([e] + []));
  }

  lemma ForgottenFirst(w: World, t: Task, d: Circumstances)
    requires w == World(Begin([t], false), [Section(true, true, 1)]) && Fresh(t) && !t.finished
    requires d.readable && d.started && d.localWatchdog
    ensures var e := OnTaskHandler(d);
            && Possible(w, Ev(e)) && Next(w, Ev(e)).app == Step(w.app, e)
            && Undisturbed(Next(w, Ev(e)).app, Complete) && Next(w, Ev(e)).app.current == 0
            && Next(w, Ev(e)).app.posts == [] && Next(w, Ev(e)).app.runs == []
  {
    hide Step, Undisturbed;
    C.IdleExpired(t, d);
    EventItem(w, OnTaskHandler(d));
  }

  lemma LateItem(w: World, state: TaskState, d: Circumstances)
    requires Undisturbed(w.app, state) && !state.Idle?
    ensures Possible(w, Ev(OnTaskHandler(d))) && Next(w, Ev(OnTaskHandler(d))).app == Step(w.app, OnTaskHandler(d))
  {
    hide Step;
    EventItem(w, OnTaskHandler(d));
  }

  lemma RestartItem(w: World, t: Task)
    requires |w.config| == 1 && Fresh(t) && !w.app.hasRecipeUrl
    ensures Possible(w, Restart([t])) && Next(w, Restart([t])) == World(Begin([t], false), w.config)
  {
  }

  /** After the restart: the recipe is parsed again and three handler steps follow. */
  function Resumption(t: Task, d: Circumstances): seq<Item> {
    var e := OnTaskHandler(d);
    [Restart([t])] + Events([e] + ([e] + ([e] + [])))
  }

  /** A local watchdog that expires in one session is forgotten by the next: the task is executed, its watchdog
    * expires, the daemon is restarted before the status is posted, and the task is reported Completed. */
  lemma RestartForgetsTheWatchdog(t: Task, c: Circumstances, rc: int, d: Circumstances)
    requires Fresh(t) && !t.finished && P.Plain(c) && rc != 0 && d.readable && d.started && d.localWatchdog
    ensures IsHistory(Start([t], false), Expiry(c, rc) + Resumption(t, d))
    ensures var a := Then(Start([t], false), Expiry(c, rc) + Resumption(t, d)).app;
            a.posts == [Post(0, StatusCompleted)] && a.runs == []
  {
    hide Start, Expiry, IsHistory, Then, Events, Possible, Next, P.Plain;
    ExpiryHappens(t, c, rc);
    var w := Then(Start([t], false), Expiry(c, rc));
    RestartItem(w, t);
    var e := OnTaskHandler(d);
    ForgottenSteps(Next(w, Restart([t])), t, d);
    FirstItem(w, Restart([t]), Events([e] + ([e] + ([e] + []))));
    JoinHistories(Start([t], false), Expiry(c, rc), Resumption(t, d));
  }
}
