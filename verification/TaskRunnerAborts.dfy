/** What aborting a recipe or one of its tasks does to the rest of the run. */
module TaskRunnerAborts {
  import opened Common
  import opened TaskRunnerModel
  import opened TaskRunnerInvariants
  import opened TaskRunnerSteps

  predicate ByUser(p: Post) {
    p.status == StatusAborted(AbortedByUser)
  }

  predicate AllByUser(posts: seq<Post>) {
    forall i :: 0 <= i < |posts| ==> ByUser(posts[i])
  }

  predicate NoneByUser(posts: seq<Post>) {
    forall i :: 0 <= i < |posts| ==> !ByUser(posts[i])
  }

  predicate NoTaskAbort(run: seq<Event>) {
    forall i :: 0 <= i < |run| ==> !run[i].AbortTask?
  }

  predicate NoAborts(run: seq<Event>) {
    forall i :: 0 <= i < |run| ==> !run[i].AbortTask? && !run[i].AbortRecipe?
  }

  lemma OneMore(a: seq<Post>, s: seq<Post>, b: seq<Post>)
    requires a <= s <= b && |s| == |a| + 1
    ensures a <= b && b[|a|..] != [] && b[|a|..][0] == s[|a|] && b[|a|..][1..] == b[|s|..]
  {
  }

  // ---- each task runs at most once --------------------------------------------------------------------

  /** Tasks are run in list order, each at most once, and none that was finished before. */
  predicate RunsOk(a: App) {
    && (forall i, j :: 0 <= i < j < |a.runs| ==> a.runs[i] < a.runs[j])
    && (forall i :: 0 <= i < |a.runs| ==>
          && a.runs[i] < |a.tasks| && a.runs[i] <= a.current && !a.tasks[a.runs[i]].finished
          && (a.runs[i] == a.current ==> PastRun(a)))
  }

  lemma MoveKeepsRuns(a: App, b: App)
    requires RunsOk(a) && Moves(a, b)
    ensures RunsOk(b)
  {
  }

  lemma StepKeepsRuns(a: App, e: Event)
    requires Valid(a) && RunsOk(a) && Enabled(a, e)
    ensures RunsOk(Step(a, e))
  {
    if SourceOf(e).Some? {
      StepMoves(a, e);
      MoveKeepsRuns(a, Step(a, e));
    }
  }

  lemma {:induction false} TasksRunAtMostOnce(a: App, run: seq<Event>)
    requires Valid(a) && RunsOk(a) && IsRun(a, run)
    ensures RunsOk(After(a, run))
    decreases |run|
  {
    if run != [] {
      StepKeepsValid(a, run[0]);
      StepKeepsRuns(a, run[0]);
      TasksRunAtMostOnce(Step(a, run[0]), run[1..]);
    }
  }

  // ---- aborting the recipe ------------------------------------------------------------------------------

  /** A recipe abort is in force, and the current task's status does not predate it. */
  predicate Doomed(a: App) {
    a.current < |a.tasks| ==>
      && a.cancelled && a.aborted == AbortedRecipe
      && (Cur(a).state.Completed? ==> Cur(a).error == Some(AbortedByUser))
  }

  lemma DoomedMove(a: App, b: App)
    requires Doomed(a) && Moves(a, b)
    ensures Doomed(b) && b.runs == a.runs
    ensures b.posts == a.posts || b.posts == a.posts + [Post(a.current, StatusAborted(AbortedByUser))]
  {
  }

  lemma DoomedStep(a: App, e: Event)
    requires Valid(a) && Doomed(a) && Enabled(a, e) && !e.AbortTask?
    ensures var b := Step(a, e);
            && Doomed(b) && b.runs == a.runs
            && (b.posts == a.posts || b.posts == a.posts + [Post(a.current, StatusAborted(AbortedByUser))])
  {
    if SourceOf(e).Some? {
      StepMoves(a, e);
      DoomedMove(a, Step(a, e));
    }
  }

  lemma {:induction false} DoomedRun(a: App, run: seq<Event>)
    requires Valid(a) && Doomed(a) && IsRun(a, run) && NoTaskAbort(run)
    ensures var b := After(a, run);
            b.runs == a.runs && a.posts <= b.posts && AllByUser(b.posts[|a.posts|..])
    decreases |run|
  {
    hide Valid, Doomed, Step;
    if run != [] {
      var s := Step(a, run[0]);
      StepKeepsValid(a, run[0]);
      DoomedStep(a, run[0]);
      DoomedRun(s, run[1..]);
      var b := After(a, run);
      assert b.posts[|a.posts|..] == s.posts[|a.posts|..] + b.posts[|s.posts|..];
    }
  }

  lemma DecidedStep(a: App, e: Event)
    requires Valid(a) && a.current < |a.tasks| && Cur(a).state.Completed? && Enabled(a, e) && !e.AbortTask?
    requires a.cancelled && a.aborted == AbortedRecipe
    ensures var s := Step(a, e);
            if SourceOf(e).None? then s == a
            else Doomed(s) && s.runs == a.runs && |s.posts| == |a.posts| + 1 && a.posts <= s.posts
                 && s.posts[|a.posts|].task == a.current
  {
    if SourceOf(e).Some? {
      StepMoves(a, e);
      DecidedMove(a, Step(a, e));
    }
  }

  lemma DecidedMove(a: App, b: App)
    requires a.current < |a.tasks| && Cur(a).state.Completed? && a.cancelled && a.aborted == AbortedRecipe
    requires Moves(a, b)
    ensures PostsFinal(a, b) && Doomed(b)
  {
  }

  /** The current task's status was decided before the abort: its next handler step posts it. */
  lemma {:induction false} DecidedRun(a: App, run: seq<Event>)
    requires Valid(a) && a.current < |a.tasks| && Cur(a).state.Completed? && IsRun(a, run) && NoTaskAbort(run)
    requires a.cancelled && a.aborted == AbortedRecipe
    ensures var b := After(a, run);
            && b.runs == a.runs && a.posts <= b.posts
            && var added := b.posts[|a.posts|..];
               added == [] || (added[0].task == a.current && AllByUser(added[1..]))
    decreases |run|
  {
    if run != [] {
      var s := Step(a, run[0]);
      StepKeepsValid(a, run[0]);
      DecidedStep(a, run[0]);
      if SourceOf(run[0]).Some? {
        DoomedRun(s, run[1..]);
        OneMore(a.posts, s.posts, After(s, run[1..]).posts);
      } else {
        DecidedRun(s, run[1..]);
      }
    }
  }

  /** After a recipe abort that no task abort follows, no task is run any more, and every status posted
    * is Aborted by the user, except that the current task's own may already have been decided. */
  lemma RecipeAbortStopsTheRest(a: App, run: seq<Event>)
    requires Valid(a) && a.current < |a.tasks| && NoTaskAbort(run) && IsRun(Step(a, AbortRecipe), run)
    ensures var b := After(Step(a, AbortRecipe), run);
            && b.runs == a.runs && a.posts <= b.posts
            && var added := b.posts[|a.posts|..];
               if Cur(a).state.Completed? then
                 added == [] || (added[0].task == a.current && AllByUser(added[1..]))
               else
                 AllByUser(added)
  {
    StepKeepsValid(a, AbortRecipe);
    if !Cur(a).state.Completed? {
      DoomedRun(Step(a, AbortRecipe), run);
    } else {
      DecidedRun(Step(a, AbortRecipe), run);
    }
  }

  // ---- aborting a task ------------------------------------------------------------------------------------

  /** No abort is in force or about to be reported. */
  predicate Clear(a: App) {
    a.aborted == NotAborted && (a.current < |a.tasks| ==> !a.cancelled && Cur(a).error != Some(AbortedByUser))
  }

  lemma ClearMove(a: App, b: App)
    requires Valid(a) && Clear(a) && Moves(a, b)
    ensures Clear(b) && a.posts <= b.posts && NoneByUser(b.posts[|a.posts|..])
  {
  }

  lemma ClearStep(a: App, e: Event)
    requires Valid(a) && Clear(a) && Enabled(a, e) && !e.AbortTask? && !e.AbortRecipe?
    ensures var b := Step(a, e); Clear(b) && a.posts <= b.posts && NoneByUser(b.posts[|a.posts|..])
  {
    StepMoves(a, e);
    ClearMove(a, Step(a, e));
  }

  lemma {:induction false} ClearRun(a: App, run: seq<Event>)
    requires Valid(a) && Clear(a) && IsRun(a, run) && NoAborts(run)
    ensures var b := After(a, run); Clear(b) && a.posts <= b.posts && NoneByUser(b.posts[|a.posts|..])
    decreases |run|
  {
    hide Valid, Clear, Step;
    if run != [] {
      var s := Step(a, run[0]);
      StepKeepsValid(a, run[0]);
      ClearStep(a, run[0]);
      ClearRun(s, run[1..]);
      var b := After(a, run);
      assert b.posts[|a.posts|..] == s.posts[|a.posts|..] + b.posts[|s.posts|..];
    }
  }

  /** A task abort waits for a COMPLETED step to consume it; `decided` says whether that step will post a
    * status that was decided before the abort. */
  predicate Armed(a: App, decided: bool) {
    && a.current < |a.tasks| && a.cancelled && a.aborted == AbortedTask
    && (decided ==> Cur(a).state.Completed?)
    && (!decided && Cur(a).state.Completed? ==> Cur(a).error == Some(AbortedByUser))
  }

  /** The abort is spent: on the status of task `task` that has just been posted, or on the recipe's end. */
  predicate Spent(a: App, b: App, decided: bool)
    requires a.current < |a.tasks|
  {
    && Clear(b)
    && (|| (b.posts == a.posts && b.current == |b.tasks|)
        || (&& |b.posts| == |a.posts| + 1 && a.posts <= b.posts
            && b.posts[|a.posts|].task == a.current && !Cur(a).state.Next?
            && (!decided ==> ByUser(b.posts[|a.posts|]))))
  }

  /** A task is left only in its NEXT state, and one that was not finished gets there only by reporting. */
  predicate Onward(a: App, b: App) {
    && a.current < |a.tasks| && b.current < |b.tasks|
    && (b.current == a.current || (Cur(a).state.Next? && a.current < b.current))
    && (b.current == a.current ==>
          && Cur(b).finished == Cur(a).finished
          && (Cur(a).state.Next? ==> Cur(b).state.Next?)
          && (Cur(b).state.Next? ==> Cur(a).state.Next? || Cur(a).finished))
  }

  lemma ArmedMove(a: App, b: App, decided: bool)
    requires Valid(a) && Armed(a, decided) && Moves(a, b)
    ensures || (&& Armed(b, decided) && b.posts == a.posts && a.current <= b.current
                && Onward(a, b))
            || Spent(a, b, decided)
  {
  }

  lemma ArmedStep(a: App, e: Event, decided: bool)
    requires Valid(a) && Armed(a, decided) && Enabled(a, e) && !e.AbortTask? && !e.AbortRecipe?
    ensures var b := Step(a, e);
            || (&& Armed(b, decided) && b.posts == a.posts && a.current <= b.current
                && Onward(a, b))
            || Spent(a, b, decided)
  {
    StepMoves(a, e);
    ArmedMove(a, Step(a, e), decided);
  }

  /** What has been posted since a task abort was armed: nothing yet, or first the status that consumed
    * it and then only statuses that are nobody's abort.  The status is the current task's own unless
    * that task had nothing left to report. */
  predicate HitsAtMostOne(before: App, after: App, decided: bool)
    requires before.current < |before.tasks|
  {
    && before.posts <= after.posts
    && var added := after.posts[|before.posts|..];
       added == []
       || (&& added[0].task >= before.current && (Cur(before).state.Next? ==> added[0].task > before.current)
           && (!Cur(before).state.Next? && !Cur(before).finished ==> added[0].task == before.current)
           && (!decided ==> ByUser(added[0]))
           && NoneByUser(added[1..]) && Clear(after))
  }

  lemma SpentRun(a: App, s: App, run: seq<Event>, decided: bool)
    requires a.current < |a.tasks| && Valid(s) && Spent(a, s, decided) && IsRun(s, run) && NoAborts(run)
    ensures HitsAtMostOne(a, After(s, run), decided)
  {
    ClearRun(s, run);
    var b := After(s, run);
    if s.posts != a.posts {
      OneMore(a.posts, s.posts, b.posts);
    } else {
      EndedRun(s, run);
    }
  }

  /** Once the last task is done nothing is posted any more. */
  lemma {:induction false} EndedRun(a: App, run: seq<Event>)
    requires Valid(a) && a.current == |a.tasks| && IsRun(a, run)
    ensures After(a, run).posts == a.posts
    decreases |run|
  {
    hide Step, Valid, Enabled;
    if run != [] {
      StepKeepsValid(a, run[0]);
      LastStep(a, run[0]);
      EndedRun(Step(a, run[0]), run[1..]);
    }
  }

  lemma ArmedThenHits(a: App, s: App, b: App, decided: bool)
    requires Onward(a, s) && a.current < |a.tasks| && s.current < |s.tasks| && a.current <= s.current
    requires s.posts == a.posts && HitsAtMostOne(s, b, decided)
    ensures HitsAtMostOne(a, b, decided)
  {
  }

  lemma NothingHit(a: App, decided: bool)
    requires a.current < |a.tasks|
    ensures HitsAtMostOne(a, a, decided)
  {
  }

  lemma {:induction false} ArmedRun(a: App, run: seq<Event>, decided: bool)
    requires Valid(a) && Armed(a, decided) && IsRun(a, run) && NoAborts(run)
    ensures HitsAtMostOne(a, After(a, run), decided)
    decreases |run|
  {
    hide Step, Valid, Enabled, Spent, HitsAtMostOne;
    if run == [] {
      NothingHit(a, decided);
    } else {
      var s := Step(a, run[0]);
      StepKeepsValid(a, run[0]);
      ArmedStep(a, run[0], decided);
      if Spent(a, s, decided) {
        SpentRun(a, s, run[1..], decided);
      } else {
        ArmedRun(s, run[1..], decided);
        ArmedThenHits(a, s, After(s, run[1..]), decided);
      }
    }
  }

  /** A task abort aborts at most one task and is gone after the next final status, whether or not a
    * recipe abort was in force before.  It is the current task that it hits, unless that task's status
    * has been decided, which is then posted as it is, or even posted: then the abort falls on a later
    * task that nobody asked to abort. */
  lemma TaskAbortHitsOneTask(a: App, run: seq<Event>)
    requires Valid(a) && a.current < |a.tasks| && IsRun(Step(a, AbortTask), run) && NoAborts(run)
    ensures var s := Step(a, AbortTask);
            HitsAtMostOne(s, After(s, run), Cur(a).state.Completed? && Cur(a).error != Some(AbortedByUser))
  {
    StepKeepsValid(a, AbortTask);
    ArmedRun(Step(a, AbortTask), run, Cur(a).state.Completed? && Cur(a).error != Some(AbortedByUser));
  }

  /** Four handler steps in which the config file can be read. */
  function FourSteps(c: Circumstances): seq<Event> {
    [OnTaskHandler(c), OnTaskHandler(c), OnTaskHandler(c), OnTaskHandler(c)]
  }

  /** The machine is about to handle `state` of an unfinished current task under a task abort. */
  predicate AbortedIn(a: App, state: TaskState) {
    && a.current < |a.tasks| && Cur(a).state == state && !Cur(a).finished
    && a.cancelled && a.aborted == AbortedTask && a.outstanding == multiset{TaskHandler}
    && (state.Completed? ==> Cur(a).error == Some(AbortedByUser))
  }

  lemma LateNext(a: App, c: Circumstances)
    requires a.current + 1 < |a.tasks| && Cur(a).state.Next? && a.outstanding == multiset{TaskHandler}
    requires !a.tasks[a.current + 1].finished && a.cancelled && a.aborted == AbortedTask
    ensures var b := Step(a, OnTaskHandler(c));
            AbortedIn(b, Idle) && b.current == a.current + 1 && b.posts == a.posts && b.runs == a.runs
  {
  }

  lemma LateIdle(a: App, c: Circumstances)
    requires AbortedIn(a, Idle) && c.readable
    ensures var b := Step(a, OnTaskHandler(c));
            AbortedIn(b, Complete) && b.current == a.current && b.posts == a.posts && b.runs == a.runs
  {
  }

  lemma LateComplete(a: App, c: Circumstances)
    requires AbortedIn(a, Complete)
    ensures var b := Step(a, OnTaskHandler(c));
            AbortedIn(b, Completed) && b.current == a.current && b.posts == a.posts && b.runs == a.runs
  {
  }

  lemma LateCompleted(a: App, c: Circumstances)
    requires AbortedIn(a, Completed)
    ensures var b := Step(a, OnTaskHandler(c));
            b.posts == a.posts + [Post(a.current, StatusAborted(AbortedByUser))] && b.runs == a.runs
  {
  }

  /** The late abort at work: once the status of the current task has been posted, aborting that task
    * aborts the next one, which never runs. */
  lemma LateAbortHitsTheNextTask(a: App, c: Circumstances)
    requires a.current + 1 < |a.tasks| && Cur(a).state.Next? && a.outstanding == multiset{TaskHandler}
    requires !a.tasks[a.current + 1].finished && c.readable
    ensures Enabled(a, AbortTask)
    ensures var s := Step(a, AbortTask);
            && IsRun(s, FourSteps(c))
            && After(s, FourSteps(c)).posts == a.posts + [Post(a.current + 1, StatusAborted(AbortedByUser))]
            && After(s, FourSteps(c)).runs == a.runs
  {
    hide HandlerStep, AbortedIn;
    var e := OnTaskHandler(c);
    var s := Step(a, AbortTask);
    LateNext(s, c);
    var s1 := Step(s, e);
    LateIdle(s1, c);
    var s2 := Step(s1, e);
    LateComplete(s2, c);
    var s3 := Step(s2, e);
    LateCompleted(s3, c);
    FirstStep(s3, e, []);
    FirstStep(s2, e, [e]);
    FirstStep(s1, e, [e, e]);
    FirstStep(s, e, [e, e, e]);
    assert FourSteps(c) == [e] + [e, e, e];
  }
}
