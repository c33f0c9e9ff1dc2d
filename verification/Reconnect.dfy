/** The client of src/client.c over connections that break: each one runs the recipe's task runner on the
  * remote host from the statuses the client has, and delivers the statuses that it posts. */
module ReconnectModel {
  import R = TaskRunnerModel

  datatype Status = New | Running | Completed | Aborted | Cancelled | Other(text: string)

  /** tasks_finished counts only these two as finished. */
  predicate Terminal(s: Status) {
    s.Completed? || s.Aborted?
  }

  /** parse_task also counts Cancelled. */
  predicate FinishedForServer(s: Status) {
    s.Completed? || s.Aborted? || s.Cancelled?
  }

  /** While a connection is up, `app` is the remote recipe and `seen` the number of its status messages that
    * have arrived. */
  datatype Link = Up(app: R.App, seen: nat) | Retrying | Finished

  /** `kinds` are the tasks as the job describes them; `executed` the tasks run so far, over all connections. */
  datatype Recipe = Recipe(kinds: seq<R.Task>, statuses: seq<Status>, hasRecipeUrl: bool, link: Link,
                           cancelled: bool, executed: seq<nat>)

  datatype Client = Client(recipes: seq<Recipe>, connRetries: nat, maxRetries: nat, started: bool, quit: bool)

  datatype Event =
    | Remote(r: nat, e: R.Event)
    | Deliver(r: nat)
    | Message(r: nat, starts: bool)
    | Disconnect(r: nat)
    | Reconnect(r: nat)
    | Cancel(r: nat)

  /** The tasks that a server parses out of the recipe it is sent. */
  function SessionTasks(kinds: seq<R.Task>, statuses: seq<Status>): seq<R.Task>
    requires |kinds| == |statuses|
  {
    seq(|kinds|, t requires 0 <= t < |kinds| =>
      kinds[t].(finished := FinishedForServer(statuses[t]), started := FinishedForServer(statuses[t])))
  }

  /** run_recipe_handler */
  function Connected(r: Recipe): Recipe
    requires |r.kinds| == |r.statuses|
  {
    r.(link := Up(R.Begin(SessionTasks(r.kinds, r.statuses), r.hasRecipeUrl), 0))
  }

  function StatusOf(s: R.Status): Status {
    match s
    case StatusRunning => Running
    case StatusCompleted => Completed
    case StatusAborted(_) => Aborted
  }

  /** One step of the remote recipe. */
  function OnRemote(r: Recipe, e: R.Event): Recipe
    requires r.link.Up? && R.Enabled(r.link.app, e)
  {
    var app := R.Step(r.link.app, e);
    r.(link := Up(app, r.link.seen),
       executed := if |app.runs| > |r.link.app.runs| then r.executed + [app.runs[|app.runs| - 1]] else r.executed)
  }

  /** tasks_status_cb; a status for a task that is not in the recipe is dropped. */
  function OnStatus(r: Recipe): Recipe
    requires r.link.Up? && r.link.seen < |r.link.app.posts|
  {
    var p := r.link.app.posts[r.link.seen];
    r.(link := Up(r.link.app, r.link.seen + 1),
       statuses := if p.task < |r.statuses| then r.statuses[p.task := StatusOf(p.status)] else r.statuses)
  }

  predicate AllTerminal(statuses: seq<Status>) {
    forall t :: 0 <= t < |statuses| ==> Terminal(statuses[t])
  }

  predicate JobFinished(recipes: seq<Recipe>) {
    forall r :: 0 <= r < |recipes| ==> AllTerminal(recipes[r].statuses)
  }

  /** What recipe_finish makes of a task's status. */
  function Settled(s: Status): Status {
    if s.New? || s.Running? then Aborted else s
  }

  function SettleAll(statuses: seq<Status>): seq<Status> {
    seq(|statuses|, t requires 0 <= t < |statuses| => Settled(statuses[t]))
  }

  /** recipe_finish */
  function OnRecipeFinish(c: Client, r: nat): Client
    requires r < |c.recipes|
  {
    var rs := c.recipes[r := c.recipes[r].(link := Finished, statuses := SettleAll(c.recipes[r].statuses))];
    c.(recipes := rs, quit := c.quit || JobFinished(rs))
  }

  predicate Retries(c: Client, r: nat)
    requires r < |c.recipes|
  {
    && c.started && !AllTerminal(c.recipes[r].statuses) && !c.recipes[r].cancelled
    && c.connRetries < c.maxRetries
  }

  /** remote_process_finish */
  function OnDisconnect(c: Client, r: nat): Client
    requires r < |c.recipes|
  {
    if Retries(c, r) then
      c.(recipes := c.recipes[r := c.recipes[r].(link := Retrying)], connRetries := c.connRetries + 1)
    else OnRecipeFinish(c, r)
  }

  predicate Enabled(c: Client, e: Event) {
    && e.r < |c.recipes|
    && var r := c.recipes[e.r];
       match e
       case Remote(_, re) => r.link.Up? && R.Enabled(r.link.app, re)
       case Deliver(_) => r.link.Up? && r.link.seen < |r.link.app.posts|
       case Message(_, _) => r.link.Up?
       case Disconnect(_) => r.link.Up?
       case Reconnect(_) => r.link.Retrying? && |r.kinds| == |r.statuses|
       case Cancel(_) => true
  }

  function WithRecipe(c: Client, i: nat, r: Recipe): Client
    requires i < |c.recipes|
  {
    c.(recipes := c.recipes[i := r])
  }

  function Step(c: Client, e: Event): Client
    requires Enabled(c, e)
  {
    var r := c.recipes[e.r];
    match e
    case Remote(i, re) => WithRecipe(c, i, OnRemote(r, re))
    case Deliver(i) => WithRecipe(c, i, OnStatus(r)).(connRetries := 0, started := true)
    case Message(_, starts) => c.(connRetries := 0, started := c.started || starts)
    case Disconnect(i) => OnDisconnect(c, i)
    case Reconnect(i) => WithRecipe(c, i, Connected(r))
    case Cancel(i) => WithRecipe(c, i, r.(cancelled := true))
  }

  predicate IsRun(c: Client, run: seq<Event>)
    decreases |run|
  {
    run == [] || (Enabled(c, run[0]) && IsRun(Step(c, run[0]), run[1..]))
  }

  function After(c: Client, run: seq<Event>): Client
    requires IsRun(c, run)
    decreases |run|
  {
    if run == [] then c else After(Step(c, run[0]), run[1..])
  }

  /** A client before its first connections. */
  predicate Initial(c: Client) {
    && c.recipes != [] && c.connRetries == 0 && !c.started && !c.quit
    && (forall r :: 0 <= r < |c.recipes| ==>
          && c.recipes[r].kinds != [] && |c.recipes[r].kinds| == |c.recipes[r].statuses|
          && c.recipes[r].link == Retrying && c.recipes[r].executed == []
          && forall t :: 0 <= t < |c.recipes[r].kinds| ==> R.Fresh(c.recipes[r].kinds[t]))
  }
}

module ReconnectTheorems {
  import opened ReconnectModel
  import R = TaskRunnerModel
  import I = TaskRunnerInvariants
  import D = TaskRunnerReports
  import Paths = TaskRunnerPaths

  // ---- one recipe -----------------------------------------------------------------------------------------

  predicate KindsOk(r: Recipe) {
    && r.kinds != [] && |r.kinds| == |r.statuses|
    && (forall t :: 0 <= t < |r.kinds| ==> R.Fresh(r.kinds[t]))
  }

  /** What the client holds for terminal, the remote recipe is done with. */
  predicate SessionOk(statuses: seq<Status>, app: R.App, seen: nat) {
    && I.Valid(app) && D.PostsOk(app) && |app.tasks| == |statuses| && seen <= |app.posts|
    && (forall t :: 0 <= t < |statuses| && Terminal(statuses[t]) ==>
          app.tasks[t].finished || D.Reported(app.posts, seen, t))
  }

  predicate RecipeOk(r: Recipe) {
    && KindsOk(r)
    && (r.link.Up? ==> SessionOk(r.statuses, r.link.app, r.link.seen))
    && (r.link.Finished? ==> forall t :: 0 <= t < |r.statuses| ==> !r.statuses[t].New? && !r.statuses[t].Running?)
  }

  /** From `r` to `s` no terminal status is lost and no task that has one is executed. */
  predicate Keeps(r: Recipe, s: Recipe) {
    && |s.statuses| == |r.statuses| && D.OneMore(r.executed, s.executed)
    && (forall t :: 0 <= t < |r.statuses| && Terminal(r.statuses[t]) ==>
          Terminal(s.statuses[t]) && (s.executed != r.executed ==> D.Last(s.executed) != t))
  }

  lemma DoneRemotely(statuses: seq<Status>, app: R.App, seen: nat, t: nat)
    requires SessionOk(statuses, app, seen) && t < |statuses| && Terminal(statuses[t])
    ensures D.Done(app, t)
  {
    if !app.tasks[t].finished {
      var i :| 0 <= i < seen && app.posts[i].task == t && I.IsFinal(app.posts[i]);
      D.ReportedAt(app.posts, i);
    }
  }

  lemma StillReported(a: R.App, b: R.App, seen: nat, t: nat)
    requires seen <= |a.posts| && D.OneMore(a.posts, b.posts) && D.Reported(a.posts, seen, t)
    ensures D.Reported(b.posts, seen, t)
  {
    var i :| 0 <= i < seen && a.posts[i].task == t && I.IsFinal(a.posts[i]);
    assert b.posts[i] == a.posts[i];
  }

  lemma RemoteKeeps(r: Recipe, e: R.Event)
    requires RecipeOk(r) && r.link.Up? && R.Enabled(r.link.app, e)
    ensures RecipeOk(OnRemote(r, e)) && Keeps(r, OnRemote(r, e))
  {
    hide R.Step, R.Enabled, I.Valid, D.PostsOk, D.Done, D.Reported;
    var a := r.link.app;
    var b := R.Step(a, e);
    I.StepKeepsValid(a, e);
    D.StepKeepsPostsOk(a, e);
    D.StepExtends(a, e);
    RunsExtend(a, e);
    forall t | 0 <= t < |r.statuses| && Terminal(r.statuses[t])
      ensures D.LeavesAlone(a, b, t) && (b.tasks[t].finished || D.Reported(b.posts, r.link.seen, t))
    {
      DoneRemotely(r.statuses, a, r.link.seen, t);
      D.DoneStays(a, e, t);
      if !a.tasks[t].finished {
        StillReported(a, b, r.link.seen, t);
      }
    }
  }

  lemma RunsExtend(a: R.App, e: R.Event)
    requires I.Valid(a) && R.Enabled(a, e)
    ensures D.OneMore(a.runs, R.Step(a, e).runs)
  {
    D.StepAddsOneRun(a, e);
  }

  lemma StatusKeeps(r: Recipe)
    requires RecipeOk(r) && r.link.Up? && r.link.seen < |r.link.app.posts|
    ensures RecipeOk(OnStatus(r)) && Keeps(r, OnStatus(r))
  {
    hide I.Valid, R.Fresh;
    var a, seen := r.link.app, r.link.seen;
    var p := a.posts[seen];
    var s := OnStatus(r);
    if Terminal(r.statuses[p.task]) {
      LaterStatusIsFinal(r.statuses, a, seen);
    }
    forall t | 0 <= t < |s.statuses| && Terminal(s.statuses[t])
      ensures a.tasks[t].finished || D.Reported(a.posts, seen + 1, t)
    {
      if t == p.task {
        assert I.IsFinal(a.posts[seen]);
      } else if !a.tasks[t].finished {
        SeenMore(a, seen, t);
      }
    }
  }

  lemma SeenMore(a: R.App, seen: nat, t: nat)
    requires seen < |a.posts| && D.Reported(a.posts, seen, t)
    ensures D.Reported(a.posts, seen + 1, t)
  {
  }

  /** A status that arrives for a task with a terminal status is terminal, too. */
  lemma LaterStatusIsFinal(statuses: seq<Status>, a: R.App, seen: nat)
    requires SessionOk(statuses, a, seen) && seen < |a.posts| && Terminal(statuses[a.posts[seen].task])
    ensures I.IsFinal(a.posts[seen])
  {
    hide I.Valid;
    var t := a.posts[seen].task;
    if !a.tasks[t].finished {
      var i :| 0 <= i < seen && a.posts[i].task == t && I.IsFinal(a.posts[i]);
    }
  }

  lemma SettlingKeeps(r: Recipe)
    requires RecipeOk(r)
    ensures var s := r.(link := Finished, statuses := SettleAll(r.statuses)); RecipeOk(s) && Keeps(r, s)
  {
  }

  lemma ConnectingKeeps(r: Recipe)
    requires KindsOk(r)
    ensures RecipeOk(Connected(r)) && Keeps(r, Connected(r))
  {
    hide I.Valid;
    var tasks := SessionTasks(r.kinds, r.statuses);
    forall t | t in tasks ensures R.Fresh(t) {
      var i :| 0 <= i < |tasks| && tasks[i] == t;
      assert R.Fresh(r.kinds[i]);
    }
    I.BeginIsValid(tasks, r.hasRecipeUrl);
  }

  // ---- the client -----------------------------------------------------------------------------------------

  predicate AllDown(c: Client) {
    forall r :: 0 <= r < |c.recipes| ==> c.recipes[r].link.Finished?
  }

  predicate Valid(c: Client) {
    && c.recipes != [] && c.connRetries <= c.maxRetries
    && (forall r :: 0 <= r < |c.recipes| ==> RecipeOk(c.recipes[r]))
    && (c.quit ==> JobFinished(c.recipes))
    && (AllDown(c) && JobFinished(c.recipes) ==> c.quit)
  }

  predicate ClientKeeps(c: Client, d: Client) {
    |d.recipes| == |c.recipes| && forall r :: 0 <= r < |c.recipes| ==> Keeps(c.recipes[r], d.recipes[r])
  }

  lemma SameRecipe(r: Recipe)
    ensures Keeps(r, r)
  {
  }

  lemma KeepsTerminal(r: Recipe, s: Recipe)
    requires Keeps(r, s) && AllTerminal(r.statuses)
    ensures AllTerminal(s.statuses)
  {
  }

  /** Replacing a recipe by one that keeps it, without one more recipe going down. */
  lemma ReplacingKeeps(c: Client, d: Client, i: nat, s: Recipe)
    requires Valid(c) && i < |c.recipes| && RecipeOk(s) && Keeps(c.recipes[i], s)
    requires s.link.Finished? ==> c.recipes[i].link.Finished? && s.statuses == c.recipes[i].statuses
    requires d.recipes == c.recipes[i := s] && d.quit == c.quit && d.connRetries <= d.maxRetries
    ensures Valid(d) && ClientKeeps(c, d)
  {
    hide RecipeOk, Keeps, AllTerminal;
    forall r | 0 <= r < |c.recipes| ensures Keeps(c.recipes[r], d.recipes[r]) {
      SameRecipe(c.recipes[r]);
    }
    if c.quit {
      forall r | 0 <= r < |d.recipes| ensures AllTerminal(d.recipes[r].statuses) {
        KeepsTerminal(c.recipes[r], d.recipes[r]);
      }
    }
    if AllDown(d) && JobFinished(d.recipes) {
      forall r | 0 <= r < |c.recipes|
        ensures c.recipes[r].link.Finished? && AllTerminal(c.recipes[r].statuses)
      {
        assert d.recipes[r].link.Finished? && AllTerminal(d.recipes[r].statuses);
      }
    }
  }

  lemma FinishKeeps(c: Client, i: nat)
    requires Valid(c) && i < |c.recipes|
    ensures Valid(OnRecipeFinish(c, i)) && ClientKeeps(c, OnRecipeFinish(c, i))
  {
    hide RecipeOk, Keeps, AllTerminal, SettleAll;
    var d := OnRecipeFinish(c, i);
    SettlingKeeps(c.recipes[i]);
    forall r | 0 <= r < |c.recipes| ensures Keeps(c.recipes[r], d.recipes[r]) {
      SameRecipe(c.recipes[r]);
    }
    if c.quit {
      forall r | 0 <= r < |d.recipes| ensures AllTerminal(d.recipes[r].statuses) {
        KeepsTerminal(c.recipes[r], d.recipes[r]);
      }
    }
  }

  lemma FlagsKeep(c: Client, d: Client)
    requires Valid(c) && d.recipes == c.recipes && d.quit == c.quit && d.connRetries <= d.maxRetries
    ensures Valid(d) && ClientKeeps(c, d)
  {
    hide RecipeOk, Keeps;
    forall r | 0 <= r < |c.recipes| ensures Keeps(c.recipes[r], d.recipes[r]) {
      SameRecipe(c.recipes[r]);
    }
  }

  lemma CancelKeeps(r: Recipe)
    requires RecipeOk(r)
    ensures RecipeOk(r.(cancelled := true)) && Keeps(r, r.(cancelled := true))
  {
    hide SessionOk, R.Fresh;
  }

  lemma RetryingKeeps(r: Recipe)
    requires RecipeOk(r)
    ensures RecipeOk(r.(link := Retrying)) && Keeps(r, r.(link := Retrying))
  {
    hide SessionOk, R.Fresh;
  }

  lemma RecipeIsOk(c: Client, i: nat)
    requires Valid(c) && i < |c.recipes|
    ensures RecipeOk(c.recipes[i]) && KindsOk(c.recipes[i])
  {
  }

  lemma StepKeeps(c: Client, e: Event)
    requires Valid(c) && Enabled(c, e)
    ensures Valid(Step(c, e)) && ClientKeeps(c, Step(c, e))
  {
    RecipeIsOk(c, e.r);
    assert c.connRetries <= c.maxRetries;
    hide Valid, RecipeOk, Keeps, KindsOk, ClientKeeps, OnRecipeFinish, OnRemote, OnStatus, Connected, R.Enabled;
    var r := c.recipes[e.r];
    match e
    case Remote(i, re) =>
      RemoteKeeps(r, re);
      StaysUp(r, re);
      ReplacingKeeps(c, Step(c, e), i, OnRemote(r, re));
    case Deliver(i) =>
      StatusKeeps(r);
      StatusStaysUp(r);
      ReplacingKeeps(c, Step(c, e), i, OnStatus(r));
    case Message(_, _) => FlagsKeep(c, Step(c, e));
    case Disconnect(i) =>
      if Retries(c, i) {
        RetryingKeeps(r);
        ReplacingKeeps(c, Step(c, e), i, r.(link := Retrying));
      } else {
        FinishKeeps(c, i);
      }
    case Reconnect(i) =>
      ConnectingKeeps(r);
      ConnectedIsUp(r);
      ReplacingKeeps(c, Step(c, e), i, Connected(r));
    case Cancel(i) =>
      CancelKeeps(r);
      ReplacingKeeps(c, Step(c, e), i, r.(cancelled := true));
  }

  lemma DisconnectKeepsValid(c: Client, r: nat)
    requires Valid(c) && r < |c.recipes| && c.recipes[r].link.Up?
    ensures Valid(OnDisconnect(c, r))
  {
    hide Valid, OnDisconnect;
    StepKeeps(c, Disconnect(r));
  }

  lemma StaysUp(r: Recipe, e: R.Event)
    requires r.link.Up? && R.Enabled(r.link.app, e)
    ensures OnRemote(r, e).link.Up?
  {
  }

  lemma StatusStaysUp(r: Recipe)
    requires r.link.Up? && r.link.seen < |r.link.app.posts|
    ensures OnStatus(r).link.Up?
  {
  }

  lemma ConnectedIsUp(r: Recipe)
    requires |r.kinds| == |r.statuses|
    ensures Connected(r).link.Up?
  {
  }

  lemma InitialIsValid(c: Client)
    requires Initial(c)
    ensures Valid(c)
  {
    assert !AllDown(c) by {
      assert !c.recipes[0].link.Finished?;
    }
  }

  // ---- whole runs -----------------------------------------------------------------------------------------

  lemma {:induction false} RunKeepsValid(c: Client, run: seq<Event>)
    requires Valid(c) && IsRun(c, run)
    ensures Valid(After(c, run))
    decreases |run|
  {
    hide Valid, Step, Enabled, ClientKeeps;
    if run != [] {
      StepKeeps(c, run[0]);
      RunKeepsValid(Step(c, run[0]), run[1..]);
    }
  }

  /** The client's status of the task is terminal. */
  predicate Ended(c: Client, r: nat, t: nat) {
    r < |c.recipes| && t < |c.recipes[r].statuses| && Terminal(c.recipes[r].statuses[t])
  }

  /** `later` continues `earlier` without another `t`. */
  predicate NotAgain(earlier: seq<nat>, later: seq<nat>, t: nat) {
    earlier <= later && t !in later[|earlier|..]
  }

  lemma EndedStep(c: Client, e: Event, r: nat, t: nat)
    requires Valid(c) && Enabled(c, e) && Ended(c, r, t)
    ensures var d := Step(c, e);
            Ended(d, r, t) && NotAgain(c.recipes[r].executed, d.recipes[r].executed, t)
  {
    hide Valid, Step, Enabled;
    StepKeeps(c, e);
    assert Keeps(c.recipes[r], Step(c, e).recipes[r]);
  }

  lemma NotAgainJoins(a: seq<nat>, b: seq<nat>, c: seq<nat>, t: nat)
    requires NotAgain(a, b, t) && NotAgain(b, c, t)
    ensures NotAgain(a, c, t)
  {
    assert c[|a|..] == b[|a|..] + c[|b|..];
  }

  /** Over any run of disconnects and reconnects, a task whose Completed or Aborted status has reached the
    * client is never executed again, and its status stays one of the two. */
  lemma {:induction false} NeverExecutedAgain(c: Client, run: seq<Event>, r: nat, t: nat)
    requires Valid(c) && IsRun(c, run) && Ended(c, r, t)
    ensures var d := After(c, run);
            Ended(d, r, t) && NotAgain(c.recipes[r].executed, d.recipes[r].executed, t)
    decreases |run|
  {
    hide Valid, Step, Enabled, NotAgain;
    if run != [] {
      StepKeeps(c, run[0]);
      EndedStep(c, run[0], r, t);
      var s := Step(c, run[0]);
      NeverExecutedAgain(s, run[1..], r, t);
      NotAgainJoins(c.recipes[r].executed, s.recipes[r].executed, After(s, run[1..]).recipes[r].executed, t);
    } else {
      NothingAgain(c.recipes[r].executed, t);
    }
  }

  lemma NothingAgain(s: seq<nat>, t: nat)
    ensures NotAgain(s, s, t)
  {
  }

  // ---- retries --------------------------------------------------------------------------------------------

  /** No message is dispatched. */
  predicate Silent(run: seq<Event>) {
    forall i :: 0 <= i < |run| ==> !run[i].Deliver? && !run[i].Message?
  }

  /** The disconnects in a run that are answered by another try. */
  function RetryCount(c: Client, run: seq<Event>): nat
    requires IsRun(c, run)
    decreases |run|
  {
    if run == [] then 0
    else (if run[0].Disconnect? && Retries(c, run[0].r) then 1 else 0) + RetryCount(Step(c, run[0]), run[1..])
  }

  lemma SilentStep(c: Client, e: Event)
    requires Enabled(c, e) && !e.Deliver? && !e.Message? && c.connRetries <= c.maxRetries
    ensures var d := Step(c, e);
            && d.connRetries == c.connRetries + (if e.Disconnect? && Retries(c, e.r) then 1 else 0)
            && d.maxRetries == c.maxRetries && d.connRetries <= d.maxRetries
  {
    hide OnRemote, OnStatus, Connected, SettleAll, R.Enabled, JobFinished;
  }

  /** As long as no message is dispatched, the client reconnects at most as often as it has retries left. */
  lemma {:induction false} RetriesAreBounded(c: Client, run: seq<Event>)
    requires IsRun(c, run) && Silent(run) && c.connRetries <= c.maxRetries
    ensures RetryCount(c, run) + c.connRetries == After(c, run).connRetries <= c.maxRetries
    decreases |run|
  {
    hide Step, Enabled, Retries;
    if run != [] {
      SilentStep(c, run[0]);
      RetriesAreBounded(Step(c, run[0]), run[1..]);
    }
  }

  /** Some task of the recipe is neither Completed nor Aborted. */
  predicate Unfinished(r: Recipe) {
    exists t :: 0 <= t < |r.statuses| && r.statuses[t] != Completed && r.statuses[t] != Aborted
  }

  /** A connection that breaks is tried again, with every status kept, if and only if the client has started, some
    * task of the recipe has not ended, the recipe is not cancelled and a retry is left; otherwise the recipe is
    * over, with its New and Running tasks aborted. */
  lemma BrokenConnection(c: Client, r: nat)
    requires r < |c.recipes|
    ensures var again := c.started && Unfinished(c.recipes[r]) && !c.recipes[r].cancelled && c.connRetries < c.maxRetries;
            var d := OnDisconnect(c, r);
            && (d.recipes[r] == c.recipes[r].(link := Retrying) && d.connRetries == c.connRetries + 1 <==> again)
            && (!again ==>
                  && d.recipes[r].link == Finished && d.connRetries == c.connRetries
                  && |d.recipes[r].statuses| == |c.recipes[r].statuses|
                  && forall t :: 0 <= t < |c.recipes[r].statuses| ==>
                       d.recipes[r].statuses[t] == if c.recipes[r].statuses[t] in {New, Running} then Aborted
                                                   else c.recipes[r].statuses[t])
  {
    hide JobFinished;
    assert Unfinished(c.recipes[r]) <==> !AllTerminal(c.recipes[r].statuses) by {
      if !AllTerminal(c.recipes[r].statuses) {
        var t :| 0 <= t < |c.recipes[r].statuses| && !Terminal(c.recipes[r].statuses[t]);
        assert c.recipes[r].statuses[t] != Completed && c.recipes[r].statuses[t] != Aborted;
      }
    }
  }

  /** A recipe can be cancelled at any time, and then its next break is its last. */
  lemma CancelEndsRetries(c: Client, r: nat)
    requires r < |c.recipes|
    ensures Enabled(c, Cancel(r)) && Step(c, Cancel(r)).recipes == c.recipes[r := c.recipes[r].(cancelled := true)]
    ensures c.recipes[r].link.Up? ==>
              var d := Step(c, Cancel(r)); Enabled(d, Disconnect(r)) && Step(d, Disconnect(r)).recipes[r].link == Finished
  {
    hide JobFinished, SettleAll, AllTerminal;
  }

  /** At no moment of the run have more than `max` connections broken since the last message; `n` had before it. */
  predicate FewBreaks(run: seq<Event>, n: nat, max: nat) {
    n <= max && (run != [] ==> FewBreaks(run[1..], BreaksAfter(n, run[0]), max))
  }

  function BreaksAfter(n: nat, e: Event): nat {
    if e.Deliver? || e.Message? then 0 else if e.Disconnect? then n + 1 else n
  }

  predicate NotCancelled(run: seq<Event>, r: nat) {
    forall i :: 0 <= i < |run| ==> run[i] != Cancel(r)
  }

  lemma AliveStep(c: Client, e: Event, r: nat, n: nat)
    requires Valid(c) && Enabled(c, e) && r < |c.recipes| && e != Cancel(r)
    requires c.started && !c.recipes[r].link.Finished? && !c.recipes[r].cancelled && Unfinished(c.recipes[r])
    requires c.connRetries <= n && (e.Disconnect? ==> n < c.maxRetries)
    ensures var d := Step(c, e);
            && d.started && !d.recipes[r].link.Finished? && !d.recipes[r].cancelled && d.maxRetries == c.maxRetries
            && d.connRetries <= BreaksAfter(n, e)
  {
    hide Valid, R.Step, R.Enabled, JobFinished, SettleAll;
  }

  lemma UnfinishedBefore(c: Client, e: Event, r: nat)
    requires Valid(c) && Enabled(c, e) && r < |c.recipes|
    ensures |Step(c, e).recipes| == |c.recipes|
    ensures Unfinished(Step(c, e).recipes[r]) ==> Unfinished(c.recipes[r])
  {
    hide Valid, Step, Enabled;
    StepKeeps(c, e);
    assert Keeps(c.recipes[r], Step(c, e).recipes[r]);
  }

  lemma {:induction false} UnfinishedAllAlong(c: Client, run: seq<Event>, r: nat)
    requires Valid(c) && IsRun(c, run) && r < |c.recipes|
    ensures |After(c, run).recipes| == |c.recipes|
    ensures Unfinished(After(c, run).recipes[r]) ==> Unfinished(c.recipes[r])
    decreases |run|
  {
    hide Valid, Step, Enabled, Unfinished, ClientKeeps;
    if run != [] {
      UnfinishedBefore(c, run[0], r);
      StepKeeps(c, run[0]);
      UnfinishedAllAlong(Step(c, run[0]), run[1..], r);
    }
  }

  /** Once the client has started, a recipe that is not cancelled and has an unfinished task to the end survives
    * every run in which no more than maxRetries connections break without a message in between. */
  lemma {:induction false} SurvivesItsBreaks(c: Client, run: seq<Event>, r: nat, n: nat)
    requires Valid(c) && IsRun(c, run) && r < |c.recipes| && NotCancelled(run, r)
    requires c.started && !c.recipes[r].link.Finished? && !c.recipes[r].cancelled
    requires c.connRetries <= n && FewBreaks(run, n, c.maxRetries)
    requires r < |After(c, run).recipes| && Unfinished(After(c, run).recipes[r])
    ensures !After(c, run).recipes[r].link.Finished?
    decreases |run|
  {
    hide Valid, Step, Enabled, Unfinished, ClientKeeps;
    if run != [] {
      UnfinishedAllAlong(c, run, r);
      UnfinishedBefore(c, run[0], r);
      StillFew(run, n, c.maxRetries);
      assert run[0] != Cancel(r);
      AliveStep(c, run[0], r, n);
      StepKeeps(c, run[0]);
      SurvivesItsBreaks(Step(c, run[0]), run[1..], r, BreaksAfter(n, run[0]));
    }
  }

  lemma StillFew(run: seq<Event>, n: nat, max: nat)
    requires run != [] && FewBreaks(run, n, max)
    ensures run[0].Disconnect? ==> n < max
  {
    if run[0].Disconnect? {
      assert FewBreaks(run[1..], n + 1, max);
    }
  }

  predicate SomeMessageStarts(run: seq<Event>) {
    run != [] && (run[0].Deliver? || (run[0].Message? && run[0].starts) || SomeMessageStarts(run[1..]))
  }

  /** The client has started once a status or another message that says so has come in, and never before; any
    * message gives all retries back. */
  lemma {:induction false} StartedByAMessage(c: Client, run: seq<Event>)
    requires IsRun(c, run)
    ensures After(c, run).started <==> c.started || SomeMessageStarts(run)
    decreases |run|
  {
    hide Step, Enabled;
    if run != [] {
      MessageStarts(c, run[0]);
      StartedByAMessage(Step(c, run[0]), run[1..]);
    }
  }

  lemma MessageStarts(c: Client, e: Event)
    requires Enabled(c, e)
    ensures Step(c, e).started <==> c.started || e.Deliver? || (e.Message? && e.starts)
    ensures e.Deliver? || e.Message? ==> Step(c, e).connRetries == 0
  {
    hide R.Step, R.Enabled, JobFinished, SettleAll, AllTerminal;
  }

  // ---- one connection -------------------------------------------------------------------------------------

  /** The steps of the remote recipe in a run of the client. */
  function RemoteSteps(run: seq<Event>, r: nat): seq<R.Event> {
    if run == [] then []
    else (if run[0].Remote? && run[0].r == r then [run[0].e] else []) + RemoteSteps(run[1..], r)
  }

  predicate StaysConnected(run: seq<Event>, r: nat) {
    forall i :: 0 <= i < |run| ==> run[i] != Disconnect(r)
  }

  /** What one event does to a recipe that is connected. */
  predicate GoesOnAs(r: Recipe, s: Recipe, steps: seq<R.Event>) {
    && r.link.Up? && s.link.Up? && R.IsRun(r.link.app, steps) && s.link.app == R.After(r.link.app, steps)
    && r.link.app.runs <= s.link.app.runs && s.executed == r.executed + s.link.app.runs[|r.link.app.runs|..]
  }

  lemma NoSteps(r: Recipe, s: Recipe)
    requires r.link.Up? && s.link.Up? && s.link.app == r.link.app && s.executed == r.executed
    ensures GoesOnAs(r, s, [])
  {
  }

  lemma OneRemoteStep(r: Recipe, e: R.Event)
    requires RecipeOk(r) && r.link.Up? && R.Enabled(r.link.app, e)
    ensures GoesOnAs(r, OnRemote(r, e), [e])
  {
    hide R.Step, R.Enabled, KindsOk, D.PostsOk, I.Valid;
    RunsExtend(r.link.app, e);
    I.FirstStep(r.link.app, e, []);
    assert [e] + [] == [e];
    var a, b := r.link.app, R.Step(r.link.app, e);
    if b.runs != a.runs {
      assert b.runs == a.runs + [D.Last(b.runs)];
    }
  }

  lemma ConnectedStep(c: Client, e: Event, r: nat)
    requires Valid(c) && Enabled(c, e) && r < |c.recipes| && c.recipes[r].link.Up? && e != Disconnect(r)
    ensures r < |Step(c, e).recipes| && GoesOnAs(c.recipes[r], Step(c, e).recipes[r], RemoteSteps([e], r))
  {
    RecipeIsOk(c, r);
    assert RemoteSteps([e], r) == if e.Remote? && e.r == r then [e.e] else [];
    hide Valid, RecipeOk, KindsOk, R.Step, R.Enabled, GoesOnAs, JobFinished, AllTerminal;
    if e.Remote? && e.r == r {
      hide OnRemote;
      OneRemoteStep(c.recipes[r], e.e);
    } else {
      NoSteps(c.recipes[r], Step(c, e).recipes[r]);
    }
  }

  lemma JoinSteps(r: Recipe, s: Recipe, t: Recipe, first: seq<R.Event>, more: seq<R.Event>)
    requires GoesOnAs(r, s, first) && GoesOnAs(s, t, more)
    ensures GoesOnAs(r, t, first + more)
  {
    hide R.IsRun, R.After;
    Paths.JoinRuns(r.link.app, first, more);
    var a, b, c := r.link.app.runs, s.link.app.runs, t.link.app.runs;
    assert c[|a|..] == b[|a|..] + c[|b|..];
  }

  /** As long as a connection is up, the remote recipe runs the task state machine, step by step, and what the client
    * counts as executed is what that has run. */
  lemma {:induction false} ConnectionIsARecipeRun(c: Client, run: seq<Event>, r: nat)
    requires Valid(c) && IsRun(c, run) && r < |c.recipes| && c.recipes[r].link.Up? && StaysConnected(run, r)
    ensures r < |After(c, run).recipes| && GoesOnAs(c.recipes[r], After(c, run).recipes[r], RemoteSteps(run, r))
    decreases |run|
  {
    hide Valid, Step, Enabled, ClientKeeps, R.IsRun, R.After;
    if run != [] {
      var d := Step(c, run[0]);
      assert run[0] != Disconnect(r);
      ConnectedStep(c, run[0], r);
      StepKeeps(c, run[0]);
      ConnectionIsARecipeRun(d, run[1..], r);
      JoinSteps(c.recipes[r], d.recipes[r], After(d, run[1..]).recipes[r], RemoteSteps([run[0]], r), RemoteSteps(run[1..], r));
      assert RemoteSteps([run[0]], r) + RemoteSteps(run[1..], r) == RemoteSteps(run, r);
    } else {
      NoSteps(c.recipes[r], c.recipes[r]);
    }
  }

  // ---- what the client believes ---------------------------------------------------------------------------

  /** What the next status message of a connection says, in the client's words. */
  function Word(p: R.Post): Status {
    match p.status
    case StatusRunning => Running
    case StatusCompleted => Completed
    case StatusAborted(_) => Aborted
  }

  /** What a client that knows `known` of the task knows after the event. */
  function Heard(known: Status, c: Client, e: Event, r: nat, t: nat): Status {
    if e.r != r then known
    else if Arrives(c, e, r, t) then Word(c.recipes[r].link.app.posts[c.recipes[r].link.seen])
    else if e.Disconnect? && r < |c.recipes| && known in {New, Running}
            && !(c.started && Unfinished(c.recipes[r]) && !c.recipes[r].cancelled && c.connRetries < c.maxRetries)
    then Aborted
    else known
  }

  function HeardIn(known: Status, c: Client, run: seq<Event>, r: nat, t: nat): Status
    requires IsRun(c, run)
    decreases |run|
  {
    if run == [] then known else HeardIn(Heard(known, c, run[0], r, t), Step(c, run[0]), run[1..], r, t)
  }

  lemma StepIsHeard(c: Client, e: Event, r: nat, t: nat)
    requires Enabled(c, e) && r < |c.recipes| && t < |c.recipes[r].statuses|
    ensures r < |Step(c, e).recipes| && t < |Step(c, e).recipes[r].statuses|
    ensures Step(c, e).recipes[r].statuses[t] == Heard(c.recipes[r].statuses[t], c, e, r, t)
  {
    hide R.Step, R.Enabled, JobFinished, Unfinished;
    if e.Disconnect? {
      hide OnDisconnect;
      BrokenConnection(c, e.r);
      OthersStay(c, e.r, r);
    }
  }

  lemma OthersStay(c: Client, i: nat, r: nat)
    requires i < |c.recipes| && r < |c.recipes|
    ensures |OnDisconnect(c, i).recipes| == |c.recipes| && (r != i ==> OnDisconnect(c, i).recipes[r] == c.recipes[r])
  {
    hide JobFinished, SettleAll;
  }

  /** Over any run of breaks and reconnects the client's status of a task is what the last status message for it
    * said, Completed for Completed and Aborted for Aborted; without one it is what the job said, and a recipe
    * that is given up turns New and Running into Aborted. */
  lemma {:induction false} ClientKnowsWhatItHeard(c: Client, run: seq<Event>, r: nat, t: nat)
    requires IsRun(c, run) && r < |c.recipes| && t < |c.recipes[r].statuses|
    ensures var d := After(c, run);
            && r < |d.recipes| && t < |d.recipes[r].statuses|
            && d.recipes[r].statuses[t] == HeardIn(c.recipes[r].statuses[t], c, run, r, t)
    decreases |run|
  {
    hide Step, Enabled, Heard;
    if run != [] {
      StepIsHeard(c, run[0], r, t);
      ClientKnowsWhatItHeard(Step(c, run[0]), run[1..], r, t);
    }
  }

  /** A new connection runs the recipe from its first task, and the tasks that it takes for finished are exactly
    * those whose status is Completed, Aborted or Cancelled. */
  lemma ReconnectSkipsFinished(c: Client, r: nat, t: nat)
    requires Enabled(c, Reconnect(r)) && t < |c.recipes[r].kinds|
    ensures var d := Step(c, Reconnect(r)).recipes[r];
            && d.link.Up? && d.link.seen == 0 && d.link.app.posts == [] && d.link.app.runs == []
            && |d.link.app.tasks| == |c.recipes[r].kinds| && d.statuses == c.recipes[r].statuses
            && d.link.app.current == 0 && R.Enabled(d.link.app, R.OnTaskHandler(R.Circumstances(true, false, false, false, true)))
            && (d.link.app.tasks[t].finished <==> c.recipes[r].statuses[t] in {Completed, Aborted, Cancelled})
            && (d.link.app.tasks[t].started <==> d.link.app.tasks[t].finished)
  {
    hide R.HandlerStep;
  }

  // ---- the end --------------------------------------------------------------------------------------------

  /** A status that neither ends a task nor is settled when its recipe ends. */
  predicate Stuck(s: Status) {
    s.Cancelled? || s.Other?
  }

  predicate NoneStuck(c: Client) {
    forall r, t :: 0 <= r < |c.recipes| && 0 <= t < |c.recipes[r].statuses| ==> !Stuck(c.recipes[r].statuses[t])
  }

  /** A status of the task arrives. */
  predicate Arrives(c: Client, e: Event, r: nat, t: nat) {
    && e == Deliver(r) && Enabled(c, e)
    && c.recipes[r].link.app.posts[c.recipes[r].link.seen].task == t
  }

  predicate IsStuck(c: Client, r: nat, t: nat) {
    r < |c.recipes| && t < |c.recipes[r].statuses| && Stuck(c.recipes[r].statuses[t])
  }

  /** A step makes no status stuck, and a stuck one goes away exactly if a status of its task arrives. */
  lemma StuckStep(c: Client, e: Event, r: nat, t: nat)
    requires Enabled(c, e)
    ensures IsStuck(Step(c, e), r, t) <==> IsStuck(c, r, t) && !Arrives(c, e, r, t)
    ensures |Step(c, e).recipes| == |c.recipes|
    ensures r < |c.recipes| ==> |Step(c, e).recipes[r].statuses| == |c.recipes[r].statuses|
  {
    hide R.Step, R.Enabled, JobFinished, AllTerminal;
  }

  predicate SomeArrives(c: Client, run: seq<Event>, r: nat, t: nat)
    requires IsRun(c, run)
    decreases |run|
  {
    run != [] && (Arrives(c, run[0], r, t) || SomeArrives(Step(c, run[0]), run[1..], r, t))
  }

  /** Over a run a status that is neither New, Running, Completed nor Aborted stays until a status of its task
    * arrives, and none comes up. */
  lemma {:induction false} StuckUntilAStatusArrives(c: Client, run: seq<Event>, r: nat, t: nat)
    requires IsRun(c, run)
    ensures IsStuck(After(c, run), r, t) <==> IsStuck(c, r, t) && !SomeArrives(c, run, r, t)
    decreases |run|
  {
    hide Step, Enabled, IsStuck, Arrives;
    if run != [] {
      StuckStep(c, run[0], r, t);
      StuckUntilAStatusArrives(Step(c, run[0]), run[1..], r, t);
    }
  }

  /** The connection of every recipe breaks before anything has been received, from recipe `k` on. */
  function Breaks(c: Client, k: nat): seq<Event>
    requires k <= |c.recipes|
    decreases |c.recipes| - k
  {
    if k == |c.recipes| then [] else [Reconnect(k)] + ([Disconnect(k)] + Breaks(c, k + 1))
  }

  /** The recipes below `k` have finished and the others have not been connected. */
  predicate Broken(c: Client, k: nat) {
    && !c.started
    && (forall r :: 0 <= r < |c.recipes| ==>
          && |c.recipes[r].kinds| == |c.recipes[r].statuses|
          && c.recipes[r].link == if r < k then Finished else Retrying)
  }

  lemma FirstEvent(c: Client, e: Event, run: seq<Event>)
    requires Enabled(c, e) && IsRun(Step(c, e), run)
    ensures IsRun(c, [e] + run) && After(c, [e] + run) == After(Step(c, e), run)
  {
    assert ([e] + run)[1..] == run;
  }

  lemma BreakOne(c: Client, k: nat)
    requires Broken(c, k) && k < |c.recipes|
    ensures Enabled(c, Reconnect(k)) && Enabled(Step(c, Reconnect(k)), Disconnect(k))
    ensures var d := Step(Step(c, Reconnect(k)), Disconnect(k)); Broken(d, k + 1) && |d.recipes| == |c.recipes|
  {
    hide JobFinished, AllTerminal, R.Enabled;
  }

  lemma {:induction false} BreaksLength(c: Client, d: Client, k: nat)
    requires |c.recipes| == |d.recipes| && k <= |c.recipes|
    ensures Breaks(c, k) == Breaks(d, k)
    decreases |c.recipes| - k
  {
    if k < |c.recipes| {
      BreaksLength(c, d, k + 1);
    }
  }

  lemma {:induction false} AllBreak(c: Client, k: nat, r: nat, t: nat)
    requires Broken(c, k) && k <= |c.recipes| && IsStuck(c, r, t)
    ensures var run := Breaks(c, k);
            IsRun(c, run) && AllDown(After(c, run)) && IsStuck(After(c, run), r, t)
    decreases |c.recipes| - k
  {
    hide Broken, IsStuck, Step, Enabled, Arrives;
    if k < |c.recipes| {
      BreakOne(c, k);
      var b := Step(c, Reconnect(k));
      var d := Step(b, Disconnect(k));
      StuckStep(c, Reconnect(k), r, t);
      StuckStep(b, Disconnect(k), r, t);
      NothingArrives(c, b, k, r, t);
      AllBreak(d, k + 1, r, t);
      BreaksLength(c, d, k + 1);
      FirstEvent(b, Disconnect(k), Breaks(c, k + 1));
      FirstEvent(c, Reconnect(k), [Disconnect(k)] + Breaks(c, k + 1));
    } else {
      BrokenIsDown(c);
    }
  }

  lemma NothingArrives(c: Client, b: Client, k: nat, r: nat, t: nat)
    ensures !Arrives(c, Reconnect(k), r, t) && !Arrives(b, Disconnect(k), r, t)
  {
    hide Enabled;
  }

  lemma BrokenIsDown(c: Client)
    requires Broken(c, |c.recipes|)
    ensures AllDown(c)
  {
  }

  /** The run in which every first connection breaks finishes all recipes, and a status that is stuck from the
    * start keeps the loop from being told to quit. */
  lemma StuckNeverQuits(c: Client, r: nat, t: nat)
    requires Initial(c) && IsStuck(c, r, t)
    ensures var run := Breaks(c, 0);
            && IsRun(c, run) && AllDown(After(c, run))
            && !After(c, run).quit && !JobFinished(After(c, run).recipes)
  {
    hide Valid, Breaks, RecipeOk, AllDown;
    InitialIsValid(c);
    AllBreak(c, 0, r, t);
    RunKeepsValid(c, Breaks(c, 0));
    StuckIsUnfinished(After(c, Breaks(c, 0)), r, t);
  }

  lemma StuckIsUnfinished(d: Client, r: nat, t: nat)
    requires Valid(d) && IsStuck(d, r, t)
    ensures !JobFinished(d.recipes) && !d.quit
  {
    hide RecipeOk, AllDown;
    assert !AllTerminal(d.recipes[r].statuses);
  }

  lemma {:induction false} NoneGetsStuck(c: Client, run: seq<Event>)
    requires IsRun(c, run) && NoneStuck(c)
    ensures NoneStuck(After(c, run))
  {
    hide IsRun, After;
    var d := After(c, run);
    forall r, t | 0 <= r < |d.recipes| && 0 <= t < |d.recipes[r].statuses|
      ensures !Stuck(d.recipes[r].statuses[t])
    {
      StuckUntilAStatusArrives(c, run, r, t);
    }
  }

  predicate QuitsWhenDown(c: Client, run: seq<Event>) {
    IsRun(c, run) && AllDown(After(c, run)) ==> After(c, run).quit && JobFinished(After(c, run).recipes)
  }

  /** Whatever happens to the connections, the loop is told to quit with every task terminal once all recipes
    * have finished, if and only if no task of the job starts with a status outside New, Running, Completed and
    * Aborted.  A Cancelled one, which the server would not run again, can keep the client waiting. */
  lemma FinishedRecipesQuit(c: Client)
    requires Initial(c)
    ensures NoneStuck(c) <==> forall run :: QuitsWhenDown(c, run)
  {
    hide Valid, AllDown, JobFinished;
    if NoneStuck(c) {
      forall run ensures QuitsWhenDown(c, run) {
        if IsRun(c, run) && AllDown(After(c, run)) {
          UnstuckQuits(c, run);
        }
      }
    } else {
      var r, t :| 0 <= r < |c.recipes| && 0 <= t < |c.recipes[r].statuses| && Stuck(c.recipes[r].statuses[t]);
      StuckNeverQuits(c, r, t);
      assert !QuitsWhenDown(c, Breaks(c, 0));
    }
  }

  lemma UnstuckQuits(c: Client, run: seq<Event>)
    requires Initial(c) && NoneStuck(c) && IsRun(c, run) && AllDown(After(c, run))
    ensures After(c, run).quit && JobFinished(After(c, run).recipes)
  {
    hide IsRun, After, RecipeOk, KindsOk;
    InitialIsValid(c);
    RunKeepsValid(c, run);
    NoneGetsStuck(c, run);
    DownIsFinished(After(c, run));
  }

  lemma DownIsFinished(d: Client)
    requires Valid(d) && AllDown(d) && NoneStuck(d)
    ensures JobFinished(d.recipes) && d.quit
  {
    hide SessionOk, KindsOk;
    forall r | 0 <= r < |d.recipes| ensures AllTerminal(d.recipes[r].statuses) {
      assert RecipeOk(d.recipes[r]) && d.recipes[r].link.Finished?;
      forall t | 0 <= t < |d.recipes[r].statuses| ensures Terminal(d.recipes[r].statuses[t]) {
        assert !Stuck(d.recipes[r].statuses[t]);
      }
    }
  }

  /** Run by run: once all recipes have finished, the loop has been told to quit exactly if a status has arrived
    * for every task whose status was stuck at the start. */
  lemma QuitsOnceStuckOnesReport(c: Client, run: seq<Event>)
    requires Initial(c) && IsRun(c, run) && AllDown(After(c, run))
    ensures After(c, run).quit <==> forall r: nat, t: nat :: IsStuck(c, r, t) ==> SomeArrives(c, run, r, t)
  {
    hide IsRun, After, Valid, IsStuck, SomeArrives, JobFinished, AllDown;
    InitialIsValid(c);
    RunKeepsValid(c, run);
    var d := After(c, run);
    forall r: nat, t: nat ensures IsStuck(d, r, t) <==> IsStuck(c, r, t) && !SomeArrives(c, run, r, t) {
      StuckUntilAStatusArrives(c, run, r, t);
    }
    if d.quit {
      forall r: nat, t: nat | IsStuck(c, r, t) ensures SomeArrives(c, run, r, t) {
        if !SomeArrives(c, run, r, t) {
          StuckIsUnfinished(d, r, t);
        }
      }
    } else if forall r: nat, t: nat :: IsStuck(c, r, t) ==> SomeArrives(c, run, r, t) {
      forall r: nat, t: nat ensures !IsStuck(d, r, t) {
      }
      NoStuckIsNoneStuck(d);
      DownIsFinished(d);
    }
  }

  lemma NoStuckIsNoneStuck(d: Client)
    requires forall r: nat, t: nat :: !IsStuck(d, r, t)
    ensures NoneStuck(d)
  {
    forall r, t | 0 <= r < |d.recipes| && 0 <= t < |d.recipes[r].statuses|
      ensures !Stuck(d.recipes[r].statuses[t])
    {
      assert !IsStuck(d, r, t);
    }
  }

  // ---- cancelled tasks --------------------------------------------------------------------------------------

  /** The remote recipe takes a Cancelled task for finished. */
  predicate CancelledSkipped(r: Recipe) {
    r.link.Up? ==>
      forall t :: 0 <= t < |r.statuses| && r.statuses[t].Cancelled? ==>
        t < |r.link.app.tasks| && r.link.app.tasks[t].finished
  }

  predicate AllCancelledSkipped(c: Client) {
    forall r :: 0 <= r < |c.recipes| ==> CancelledSkipped(c.recipes[r])
  }

  lemma RemoteSkips(r: Recipe, e: R.Event)
    requires RecipeOk(r) && CancelledSkipped(r) && r.link.Up? && R.Enabled(r.link.app, e)
    ensures CancelledSkipped(OnRemote(r, e))
  {
    hide R.Step, R.Enabled, I.Valid, D.PostsOk, D.Reported;
    D.StepExtends(r.link.app, e);
  }

  lemma StepSkips(c: Client, e: Event)
    requires Valid(c) && Enabled(c, e) && AllCancelledSkipped(c)
    ensures AllCancelledSkipped(Step(c, e))
  {
    RecipeIsOk(c, e.r);
    hide Valid, RecipeOk, KindsOk, R.Step, R.Enabled, JobFinished, AllTerminal;
    if e.Remote? {
      hide OnRemote, CancelledSkipped;
      RemoteSkips(c.recipes[e.r], e.e);
    }
  }

  lemma {:induction false} RunSkips(c: Client, run: seq<Event>)
    requires Valid(c) && IsRun(c, run) && AllCancelledSkipped(c)
    ensures AllCancelledSkipped(After(c, run)) && Valid(After(c, run))
    decreases |run|
  {
    hide Valid, Step, Enabled, AllCancelledSkipped, ClientKeeps;
    if run != [] {
      StepKeeps(c, run[0]);
      StepSkips(c, run[0]);
      RunSkips(Step(c, run[0]), run[1..]);
    }
  }

  /** The status that takes a Cancelled one away comes from a session that could not read the task's section of
    * the config file. */
  lemma CancelledNeedsUnreadable(c: Client, run: seq<Event>, r: nat, t: nat)
    requires Initial(c) && IsRun(c, run) && Arrives(After(c, run), Deliver(r), r, t)
    requires var d := After(c, run); t < |d.recipes[r].statuses| && d.recipes[r].statuses[t].Cancelled?
    ensures var a := After(c, run).recipes[r].link.app; t < |a.tasks| && a.tasks[t].unreadable
  {
    hide IsRun, After, I.Valid;
    var d := After(c, run);
    InitialIsValid(c);
    RunSkips(c, run);
    RecipeIsOk(d, r);
    var link := d.recipes[r].link;
    assert CancelledSkipped(d.recipes[r]);
    assert I.IsFinal(link.app.posts[link.seen]);
    D.FinishedReportsUnreadable(link.app, link.seen);
  }
}

/** The client's AppData and its callbacks. */
module Reconnect {
  import M = ReconnectModel
  import Theorems = ReconnectTheorems

  class ClientAppData {
    var recipes: seq<M.Recipe>
    var connRetries: nat
    const maxRetries: nat
    var started: bool
    var quit: bool

    ghost function View(): M.Client
      reads this
    {
      M.Client(recipes, connRetries, maxRetries, started, quit)
    }

    constructor (recipes: seq<M.Recipe>, maxRetries: nat)
      ensures View() == M.Client(recipes, 0, maxRetries, false, false)
    {
      this.recipes, connRetries, this.maxRetries, started, quit := recipes, 0, maxRetries, false, false;
    }

    /** tasks_finished on the tasks of one recipe. */
    static method TasksFinished(statuses: seq<M.Status>) returns (finished: bool)
      ensures finished == M.AllTerminal(statuses)
    {
      finished := true;
      for i := 0 to |statuses|
        invariant finished == forall t :: 0 <= t < i ==> M.Terminal(statuses[t])
      {
        finished := finished && M.Terminal(statuses[i]);
      }
    }

    /** tasks_finished on the whole job. */
    method AllTasksFinished() returns (finished: bool)
      ensures finished == M.JobFinished(recipes)
    {
      finished := true;
      for i := 0 to |recipes|
        invariant finished == forall r :: 0 <= r < i ==> M.AllTerminal(recipes[r].statuses)
      {
        var f := TasksFinished(recipes[i].statuses);
        finished := finished && f;
      }
    }

    /** The loop of recipe_finish. */
    static method AbortUnfinished(statuses: seq<M.Status>) returns (settled: seq<M.Status>)
      ensures settled == M.SettleAll(statuses)
    {
      settled := [];
      for i := 0 to |statuses|
        invariant settled == M.SettleAll(statuses)[..i]
      {
        if statuses[i].New? || statuses[i].Running? {
          settled := settled + [M.Aborted];
        } else {
          settled := settled + [statuses[i]];
        }
      }
    }

    /** recipe_finish */
    method RecipeFinish(r: nat)
      requires r < |recipes|
      modifies this
      ensures View() == old(M.OnRecipeFinish(View(), r))
    {
      hide M.SettleAll, M.JobFinished;
      var settled := AbortUnfinished(recipes[r].statuses);
      recipes := recipes[r := recipes[r].(link := M.Finished, statuses := settled)];
      var finished := AllTasksFinished();
      if finished {
        quit := true;
      }
    }

    /** remote_process_finish; of a connection that was up, it keeps the invariant of the client. */
    method RemoteProcessFinish(r: nat)
      requires r < |recipes|
      modifies this
      ensures View() == old(M.OnDisconnect(View(), r))
      ensures old(Theorems.Valid(View()) && recipes[r].link.Up?) ==> Theorems.Valid(View())
    {
      hide M.OnRecipeFinish, M.AllTerminal, Theorems.Valid;
      if Theorems.Valid(View()) && recipes[r].link.Up? {
        Theorems.DisconnectKeepsValid(View(), r);
      }
      var finished := TasksFinished(recipes[r].statuses);
      if started && !finished && !recipes[r].cancelled && connRetries < maxRetries {
        connRetries := connRetries + 1;
        recipes := recipes[r := recipes[r].(link := M.Retrying)];
      } else {
        RecipeFinish(r);
      }
    }

    /** handle_message for the next status message of a connection. */
    method HandleStatus(r: nat)
      requires M.Enabled(View(), M.Deliver(r))
      modifies this
      ensures View() == old(M.Step(View(), M.Deliver(r)))
      ensures old(Theorems.Valid(View())) ==> Theorems.Valid(View())
    {
      hide Theorems.Valid;
      if Theorems.Valid(View()) {
        Theorems.StepKeeps(View(), M.Deliver(r));
      }
      connRetries := 0;
      started := true;
      recipes := recipes[r := M.OnStatus(recipes[r])];
    }

    /** handle_message for any other message that has a callback. */
    method HandleOther(starts: bool)
      modifies `connRetries, `started
      ensures View() == old(View().(connRetries := 0, started := View().started || starts))
    {
      connRetries := 0;
      started := started || starts;
    }
  }
}
