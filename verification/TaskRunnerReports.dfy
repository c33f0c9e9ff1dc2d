/** A task that has reported its end, or was finished when the recipe began, is done with for good. */
module TaskRunnerReports {
  import opened Common
  import opened TaskRunnerModel
  import opened TaskRunnerInvariants
  import opened TaskRunnerSteps

  predicate Done(a: App, t: nat) {
    t < |a.tasks| && (a.tasks[t].finished || t in Finals(a.posts))
  }

  lemma {:induction false} ReportingBelow(tasks: seq<Task>, n: nat, t: nat)
    requires n <= |tasks| && t in Reporting(tasks, n)
    ensures t < n
    decreases n
  {
    if n > 0 && t in Reporting(tasks, n - 1) {
      ReportingBelow(tasks, n - 1, t);
    }
  }

  /** Only tasks behind the current one have posted a final status, and the current one in its NEXT state. */
  lemma FinalsBehind(a: App, t: nat)
    requires Shape(a) && a.current < |a.tasks| && t in Finals(a.posts)
    ensures t < a.current || (t == a.current && Cur(a).state.Next?)
  {
    hide Reporting, Finals;
    if t in Reporting(a.tasks, a.current) {
      ReportingBelow(a.tasks, a.current, t);
    }
  }

  lemma DoneIsNotStarted(a: App, t: nat)
    requires Shape(a) && a.current < |a.tasks| && Done(a, t)
    ensures Cur(a).state.Run? || Cur(a).state.Idle? ==> t != a.current || Cur(a).finished
  {
    hide Finals, Fresh;
    if t in Finals(a.posts) {
      FinalsBehind(a, t);
    }
  }

  function Last<T>(s: seq<T>): T
    requires s != []
  {
    s[|s| - 1]
  }

  /** `b` is `a` with at most one more element. */
  predicate OneMore<T(==)>(a: seq<T>, b: seq<T>) {
    b == a || (b != [] && b == a + [Last(b)])
  }

  /** What one step adds: at most one run, not of `t`, and at most one status, for `t` a final one. */
  predicate LeavesAlone(a: App, b: App, t: nat) {
    && OneMore(a.runs, b.runs) && (b.runs != a.runs ==> Last(b.runs) != t)
    && OneMore(a.posts, b.posts) && (b.posts != a.posts && Last(b.posts).task == t ==> IsFinal(Last(b.posts)))
  }

  lemma DoneMove(a: App, b: App, t: nat)
    requires Shape(a) && Done(a, t) && Moves(a, b)
    requires a.current < |a.tasks| ==>
               (Cur(a).state.Run? || Cur(a).state.Idle? ==> t != a.current || Cur(a).finished)
    ensures LeavesAlone(a, b, t) && |b.tasks| == |a.tasks| && b.tasks[t].finished == a.tasks[t].finished
  {
    hide Shape, Finals;
    if StartsTask(a, b) {
      assert Last(b.posts) == Post(a.current, StatusRunning);
    } else if RunsTask(a, b) {
      assert Last(b.runs) == a.current;
    } else if PostsFinal(a, b) {
      assert IsFinal(Last(b.posts));
    }
  }

  lemma FinalsKeep(posts: seq<Post>, p: Post, t: nat)
    requires t in Finals(posts)
    ensures t in Finals(posts + [p])
  {
    FinalsGrow(posts, p);
  }

  /** A task that is done is never run again, posts nothing but final statuses, and stays done. */
  lemma DoneStays(a: App, e: Event, t: nat)
    requires Valid(a) && Enabled(a, e) && Done(a, t)
    ensures Done(Step(a, e), t) && LeavesAlone(a, Step(a, e), t)
  {
    var b := Step(a, e);
    if SourceOf(e).None? {
      hide Valid, Finals, Step;
      RequestStep(a, e);
    } else {
      hide Step, Moves, Finals, CurrentOk;
      StepMoves(a, e);
      if a.current < |a.tasks| {
        DoneIsNotStarted(a, t);
      }
      DoneMove(a, b, t);
      if b.posts != a.posts && t in Finals(a.posts) {
        FinalsKeep(a.posts, Last(b.posts), t);
      }
    }
  }

  // ---- the order of a task's statuses ---------------------------------------------------------------------

  /** The first `n` statuses include a final one of the task. */
  predicate Reported(posts: seq<Post>, n: nat, t: nat)
    requires n <= |posts|
  {
    exists i :: 0 <= i < n && posts[i].task == t && IsFinal(posts[i])
  }

  /** Statuses name tasks of the recipe, those of finished tasks are final, and none but final ones follow a
    * final one. */
  predicate PostsOk(a: App) {
    && (forall i :: 0 <= i < |a.posts| ==>
          a.posts[i].task < |a.tasks| && (a.tasks[a.posts[i].task].finished ==> IsFinal(a.posts[i])))
    && (forall i, j :: 0 <= i < j < |a.posts| && IsFinal(a.posts[i]) && a.posts[j].task == a.posts[i].task ==>
          IsFinal(a.posts[j]))
  }

  lemma {:induction false} FinalIsReported(posts: seq<Post>, t: nat)
    ensures t in Finals(posts) <==> Reported(posts, |posts|, t)
    decreases |posts|
  {
    if posts != [] {
      var front, last := posts[..|posts| - 1], posts[|posts| - 1];
      FinalIsReported(front, t);
      if Reported(front, |front|, t) {
        var i :| 0 <= i < |front| && front[i].task == t && IsFinal(front[i]);
        assert posts[i].task == t && IsFinal(posts[i]);
      }
      if Reported(posts, |posts|, t) {
        var i :| 0 <= i < |posts| && posts[i].task == t && IsFinal(posts[i]);
        if i < |front| {
          assert front[i].task == t && IsFinal(front[i]);
        }
      }
    }
  }

  lemma ReportedAt(posts: seq<Post>, i: nat)
    requires i < |posts| && IsFinal(posts[i])
    ensures posts[i].task in Finals(posts)
  {
    FinalIsReported(posts, posts[i].task);
  }

  /** What a move adds to the statuses fits behind them. */
  lemma NewPostOk(a: App, b: App)
    requires Shape(a) && Moves(a, b)
    ensures |b.tasks| == |a.tasks| && (forall t :: 0 <= t < |a.tasks| ==> b.tasks[t].finished == a.tasks[t].finished)
    ensures OneMore(a.posts, b.posts) && (b.posts != a.posts ==> Fits(a, Last(b.posts)))
  {
    hide Finals, Fresh;
    if StartsTask(a, b) {
      assert Last(b.posts) == Post(a.current, StatusRunning);
      if a.current in Finals(a.posts) {
        FinalsBehind(a, a.current);
      }
    } else if PostsFinal(a, b) {
      assert IsFinal(Last(b.posts));
    }
  }

  predicate Fits(a: App, p: Post) {
    p.task < |a.tasks| && (IsFinal(p) || (!a.tasks[p.task].finished && p.task !in Finals(a.posts)))
  }

  lemma FittingPost(a: App, b: App, p: Post)
    requires PostsOk(a) && Fits(a, p) && b.posts == a.posts + [p] && |b.tasks| == |a.tasks|
    requires forall t :: 0 <= t < |a.tasks| ==> b.tasks[t].finished == a.tasks[t].finished
    ensures PostsOk(b)
  {
    hide Finals;
    forall i, j | 0 <= i < j < |b.posts| && IsFinal(b.posts[i]) && b.posts[j].task == b.posts[i].task
      ensures IsFinal(b.posts[j])
    {
      if j == |a.posts| {
        ReportedAt(a.posts, i);
      }
    }
  }

  lemma StepKeepsPostsOk(a: App, e: Event)
    requires Valid(a) && PostsOk(a) && Enabled(a, e)
    ensures PostsOk(Step(a, e))
  {
    var b := Step(a, e);
    if SourceOf(e).None? {
      hide Step, Valid;
      RequestStep(a, e);
    } else {
      hide Step, Moves, Shape, PostsOk, Fits;
      StepMoves(a, e);
      NewPostOk(a, b);
      if b.posts != a.posts {
        FittingPost(a, b, Last(b.posts));
      } else {
        SamePosts(a, b);
      }
    }
  }

  /** A step adds at most one status and finishes no task behind the recipe's back. */
  lemma StepExtends(a: App, e: Event)
    requires Valid(a) && Enabled(a, e)
    ensures var b := Step(a, e);
            && OneMore(a.posts, b.posts) && |b.tasks| == |a.tasks|
            && (forall t :: 0 <= t < |a.tasks| ==> b.tasks[t].finished == a.tasks[t].finished)
  {
    if SourceOf(e).None? {
      hide Step, Valid;
      RequestStep(a, e);
    } else {
      hide Step, Moves, Shape;
      StepMoves(a, e);
      NewPostOk(a, Step(a, e));
    }
  }

  lemma MoveAddsOneRun(a: App, b: App)
    requires Moves(a, b)
    ensures OneMore(a.runs, b.runs)
  {
    if RunsTask(a, b) {
      assert Last(b.runs) == a.current;
    }
  }

  lemma StepAddsOneRun(a: App, e: Event)
    requires Valid(a) && Enabled(a, e)
    ensures OneMore(a.runs, Step(a, e).runs)
  {
    if SourceOf(e).None? {
      hide Step, Valid;
      RequestStep(a, e);
    } else {
      hide Step, Moves, Valid;
      StepMoves(a, e);
      MoveAddsOneRun(a, Step(a, e));
    }
  }

  lemma SamePosts(a: App, b: App)
    requires PostsOk(a) && b.posts == a.posts && |b.tasks| == |a.tasks|
    requires forall t :: 0 <= t < |a.tasks| ==> b.tasks[t].finished == a.tasks[t].finished
    ensures PostsOk(b)
  {
  }

  // ---- who posts a final status ---------------------------------------------------------------------------

  lemma {:induction false} ReportingReports(tasks: seq<Task>, n: nat, t: nat)
    requires n <= |tasks| && t in Reporting(tasks, n)
    ensures t < |tasks| && Reports(tasks[t])
    decreases n
  {
    if n > 0 && t in Reporting(tasks, n - 1) {
      ReportingReports(tasks, n - 1, t);
    }
  }

  /** A task that was finished when the recipe began posts a final status only if its section of the config file
    * could not be read. */
  lemma FinishedReportsUnreadable(a: App, i: nat)
    requires Valid(a) && i < |a.posts| && IsFinal(a.posts[i])
    ensures var t := a.posts[i].task; t < |a.tasks| && (a.tasks[t].finished ==> a.tasks[t].unreadable)
  {
    hide Reporting, Finals, Fresh;
    var t := a.posts[i].task;
    ReportedAt(a.posts, i);
    if t in Reporting(a.tasks, a.current) {
      ReportingReports(a.tasks, a.current, t);
    }
  }
}
