/** The seven kinds of step a recipe takes, as far as runs, statuses and aborts are concerned. */
module TaskRunnerSteps {
  import opened Common
  import opened TaskRunnerModel
  import opened TaskRunnerInvariants

  predicate SameTask(a: App, b: App) {
    && a.current < |a.tasks| && b.current == a.current
    && b.tasks == a.tasks[a.current := if b.current < |b.tasks| then Cur(b) else Cur(a)]
    && Cur(b).finished == Cur(a).finished
  }

  predicate SameFlags(a: App, b: App) {
    b.aborted == a.aborted && b.cancelled == a.cancelled
  }

  predicate PastRun(a: App)
    requires a.current < |a.tasks|
  {
    var s := Cur(a).state;
    RunOp in a.outstanding || s.Complete? || s.Completed? || s.Next?
  }

  /** Nothing is posted, run or decided. */
  predicate Quiet(a: App, b: App) {
    && SameTask(a, b) && SameFlags(a, b) && b.posts == a.posts && b.runs == a.runs
    && !Cur(a).state.Completed? && !Cur(b).state.Completed?
    && (PastRun(a) ==> PastRun(b))
    && (Cur(b).error == Cur(a).error || Cur(b).error == Some(Failed))
    && (Cur(b).state.Next? ==> Cur(a).state.Next? || Cur(a).finished)
    && (Cur(a).state.Next? ==> Cur(b).state.Next?)
  }

  predicate StartsTask(a: App, b: App) {
    && SameTask(a, b) && SameFlags(a, b) && b.runs == a.runs && !a.cancelled
    && Cur(a).state.Idle? && Cur(b).state.Fetch? && Cur(b).error == Cur(a).error && !PastRun(a) && !Cur(a).finished
    && b.posts == a.posts + [Post(a.current, StatusRunning)]
  }

  predicate RunsTask(a: App, b: App) {
    && SameTask(a, b) && SameFlags(a, b) && b.posts == a.posts && !a.cancelled
    && Cur(a).state.Run? && Cur(b).state.Run? && Cur(b).error == Cur(a).error
    && !Cur(a).finished && !PastRun(a) && PastRun(b)
    && b.runs == a.runs + [a.current]
  }

  predicate Decides(a: App, b: App) {
    && SameTask(a, b) && SameFlags(a, b) && b.posts == a.posts && b.runs == a.runs
    && Cur(a).state.Complete? && Cur(b).state.Completed?
    && Cur(b).error == if a.cancelled && a.aborted != NotAborted then Some(AbortedByUser) else Cur(a).error
  }

  predicate PostsFinal(a: App, b: App) {
    && SameTask(a, b) && b.runs == a.runs
    && Cur(a).state.Completed? && Cur(b).state.Next? && Cur(b).error.None?
    && b.posts == a.posts
         + [Post(a.current, if Cur(a).error.Some? then StatusAborted(Cur(a).error.value) else StatusCompleted)]
    && (if a.cancelled && a.aborted == AbortedTask then b.aborted == NotAborted && !b.cancelled else SameFlags(a, b))
  }

  predicate MovesOn(a: App, b: App) {
    && a.current < |a.tasks| && Cur(a).state.Next? && b.current == a.current + 1
    && |b.tasks| == |a.tasks| && b.posts == a.posts && b.runs == a.runs && b.cancelled == a.cancelled
    && (forall j :: 0 <= j < |a.tasks| ==> b.tasks[j] == a.tasks[j].(state := b.tasks[j].state))
    && (b.current < |b.tasks| ==> SameFlags(a, b) && Cur(b).state.Idle? && Cur(b).error.None?)
    && (b.current == |b.tasks| ==> b.aborted == NotAborted)
  }

  predicate EndsRecipe(a: App, b: App) {
    && a.current == |a.tasks| && b.current == a.current && b.tasks == a.tasks
    && b.posts == a.posts && b.runs == a.runs && b.aborted == a.aborted
  }

  predicate Moves(a: App, b: App) {
    || Quiet(a, b) || StartsTask(a, b) || RunsTask(a, b) || Decides(a, b) || PostsFinal(a, b) || MovesOn(a, b)
    || EndsRecipe(a, b)
  }

  // ---- every step is one of these -----------------------------------------------------------------------

  lemma IdleMoves(a: App, c: Circumstances)
    requires Shape(a) && a.current < |a.tasks| && a.outstanding == multiset{} && Cur(a).state.Idle?
    ensures Moves(a, HandlerStep(a, c))
  {
    var b := HandlerStep(a, c);
    if Cur(b).state.Fetch? {
      assert StartsTask(a, b);
    } else {
      assert Quiet(a, b);
    }
  }

  lemma FetchingMoves(a: App, c: Circumstances)
    requires a.current < |a.tasks| && a.outstanding == multiset{}
    requires Cur(a).state.Fetch? || Cur(a).state.MetadataParse? || Cur(a).state.RefreshRoles?
    ensures Quiet(a, HandlerStep(a, c))
  {
  }

  lemma PreparingMoves(a: App, c: Circumstances)
    requires a.current < |a.tasks| && a.outstanding == multiset{}
    requires Cur(a).state.Env? || Cur(a).state.Watchdog?
    ensures Quiet(a, HandlerStep(a, c))
  {
  }

  lemma DependencyMoves(a: App, c: Circumstances)
    requires a.current < |a.tasks| && a.outstanding == multiset{} && Cur(a).state.Dependencies?
    ensures Quiet(a, HandlerStep(a, c))
  {
    if !Cur(a).started && c.wait {
      assert a.tasks[a.current := Cur(a)] == a.tasks;
    }
  }

  lemma RunMoves(a: App, c: Circumstances)
    requires Shape(a) && a.current < |a.tasks| && a.outstanding == multiset{} && Cur(a).state.Run?
    ensures Moves(a, HandlerStep(a, c))
  {
    var b := HandlerStep(a, c);
    if a.cancelled {
      assert Quiet(a, b);
    } else {
      assert RunOp in b.outstanding;
      assert RunsTask(a, b);
    }
  }

  lemma CompleteMoves(a: App, c: Circumstances)
    requires a.current < |a.tasks| && a.outstanding == multiset{} && Cur(a).state.Complete?
    ensures Decides(a, HandlerStep(a, c))
  {
  }

  lemma CompletedMoves(a: App, c: Circumstances)
    requires a.current < |a.tasks| && a.outstanding == multiset{} && Cur(a).state.Completed?
    ensures PostsFinal(a, HandlerStep(a, c))
  {
  }

  lemma NextMoves(a: App, c: Circumstances)
    requires Shape(a) && a.current < |a.tasks| && a.outstanding == multiset{} && Cur(a).state.Next?
    ensures MovesOn(a, HandlerStep(a, c))
  {
  }

  lemma HandlerMoves(a: App, c: Circumstances)
    requires Shape(a) && a.current < |a.tasks| && a.outstanding == multiset{}
    ensures Moves(a, HandlerStep(a, c))
  {
    hide HandlerStep, Shape, Quiet, Decides, PostsFinal, MovesOn;
    match Cur(a).state
    case Idle => IdleMoves(a, c);
    case Fetch => FetchingMoves(a, c);
    case MetadataParse => FetchingMoves(a, c);
    case RefreshRoles => FetchingMoves(a, c);
    case Env => PreparingMoves(a, c);
    case Watchdog => PreparingMoves(a, c);
    case Dependencies => DependencyMoves(a, c);
    case Run => RunMoves(a, c);
    case Complete => CompleteMoves(a, c);
    case Completed => CompletedMoves(a, c);
    case Next => NextMoves(a, c);
  }

  lemma FetchMoves(a: App, failed: bool)
    requires a.current < |a.tasks| && Cur(a).state.Fetch? && a.outstanding == multiset{FetchOp}
    ensures Quiet(a, Step(a, FetchDone(failed)))
  {
    var again := failed && !Cur(a).fromPackage && a.fetchRetries < TASK_FETCH_RETRIES;
    if again {
      assert a.tasks[a.current := Cur(a)] == a.tasks;
    }
  }

  lemma MetadataMoves(a: App, failed: bool, hasMetadata: bool)
    requires a.current < |a.tasks| && Cur(a).state.MetadataParse? && a.outstanding == multiset{MetadataOp}
    ensures Quiet(a, Step(a, MetadataDone(failed, hasMetadata)))
  {
  }

  lemma RolesMoves(a: App, failed: bool, unusable: bool)
    requires a.current < |a.tasks| && Cur(a).state.RefreshRoles? && a.outstanding == multiset{RolesOp}
    ensures Quiet(a, Step(a, RolesDone(failed, unusable)))
  {
  }

  lemma RunEndMoves(a: App, rc: int, localWatchdog: bool)
    requires a.current < |a.tasks| && Cur(a).state.Run? && a.outstanding == multiset{RunOp}
    ensures Quiet(a, Step(a, RunDone(rc, localWatchdog)))
  {
  }

  lemma DependenciesMoves(a: App, failed: bool)
    requires a.current < |a.tasks| && Cur(a).state.Run? && a.outstanding == multiset{DependencyOp}
    ensures Quiet(a, Step(a, DependenciesDone(failed)))
  {
  }

  /** Retries and sent messages give the handler back. */
  lemma HandlerBackMoves(a: App, e: Event)
    requires a.current < |a.tasks|
    requires e.FetchRetry? || e.RolesRetry? || e.StatusSent? || e.WatchdogSent? || e.PluginsDone?
    requires Matches(SourceOf(e).value, Cur(a).state) && a.outstanding == multiset{SourceOf(e).value}
    ensures Quiet(a, Step(a, e))
  {
    hide Quiet, OnFetchDone, OnMetadataDone, OnRolesDone, OnRunDone, HandlerStep;
    var b := Step(a, e);
    assert a.tasks[a.current := Cur(a)] == a.tasks;
    assert b.tasks == a.tasks && b.outstanding == multiset{TaskHandler};
    SourceIsQuiet(a, b);
  }

  lemma SourceIsQuiet(a: App, b: App)
    requires a.current < |a.tasks| && b == a.(outstanding := b.outstanding) && b.outstanding == multiset{TaskHandler}
    requires !Cur(a).state.Completed? && !(RunOp in a.outstanding)
    ensures Quiet(a, b)
  {
  }

  lemma AnswerMoves(a: App, e: Event)
    requires a.current < |a.tasks| && SourceOf(e).Some? && NeedsTask(e)
    requires Matches(SourceOf(e).value, Cur(a).state) && a.outstanding == multiset{SourceOf(e).value}
    ensures Quiet(a, Step(a, e))
  {
    hide Callback, Quiet;
    match e
    case FetchDone(failed) => FetchMoves(a, failed);
    case MetadataDone(failed, hasMetadata) => MetadataMoves(a, failed, hasMetadata);
    case RolesDone(failed, unusable) => RolesMoves(a, failed, unusable);
    case RunDone(rc, localWatchdog) => RunEndMoves(a, rc, localWatchdog);
    case DependenciesDone(failed) => DependenciesMoves(a, failed);
    case FetchRetry => HandlerBackMoves(a, e);
    case RolesRetry => HandlerBackMoves(a, e);
    case StatusSent => HandlerBackMoves(a, e);
    case WatchdogSent => HandlerBackMoves(a, e);
    case PluginsDone => HandlerBackMoves(a, e);
    case _ =>
  }

  /** What a step is does not depend on the source that made it. */
  lemma SourceDoesNotMatter(a: App, b: App)
    requires a.outstanding == multiset{TaskHandler} && Moves(a.(outstanding := multiset{}), b)
    ensures Moves(a, b)
  {
  }

  /** A step that is not a request from outside. */
  lemma StepMoves(a: App, e: Event)
    requires Valid(a) && Enabled(a, e) && SourceOf(e).Some?
    ensures Moves(a, Step(a, e))
  {
    if a.current == |a.tasks| {
      LastStep(a, e);
      assert EndsRecipe(a, Step(a, e));
    } else {
      hide Moves, Shape, Callback, Quiet;
      var s :| Waits(a, s) && Matches(s, Cur(a).state);
      TaskStep(a, e, s);
      if e.OnTaskHandler? {
        HandlerEventMoves(a.(outstanding := multiset{}), e);
        SourceDoesNotMatter(a, Step(a, e));
      } else {
        AnswerMoves(a, e);
        QuietMoves(a, Step(a, e));
      }
    }
  }

  lemma HandlerEventMoves(a: App, e: Event)
    requires Shape(a) && a.current < |a.tasks| && a.outstanding == multiset{} && e.OnTaskHandler?
    ensures Moves(a, Callback(a, e))
  {
    hide HandlerStep, Moves, Shape;
    HandlerMoves(a, e.c);
  }

  lemma QuietMoves(a: App, b: App)
    requires Quiet(a, b)
    ensures Moves(a, b)
  {
  }
}
