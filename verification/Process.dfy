/** The life of a child process in src/process.c: its I/O watch, its child watch, its watchdog timer and
  * the idle callback that joins them. */
module ProcessModel {
  import opened Common

  datatype Pid = ForkFailed | Live | Reaped

  /** A descriptor of ProcessData: `open` unless its field is -1, and how often it has been closed. */
  datatype Descriptor = Descriptor(open: bool, closed: nat)

  /** `idle` is whether a process_pid_finish source is pending, `finishId` whether finish_handler_id says so;
    * `timer` is the period of the watchdog timer; `calls` are the arguments of finish_callback. */
  datatype Process = Process(
    pid: Pid,
    ioWatch: bool,
    childWatch: bool,
    cancelHandler: bool,
    idle: bool,
    finishId: bool,
    timer: Option<nat>,
    maxTime: nat,
    fdOut: Descriptor,
    fdIn: Descriptor,
    status: int,
    localWatchdog: bool,
    calls: seq<(int, bool)>)

  /** What the caller asks for, and what the operating system makes of it.  `userLeft` is how much time
    * the user's timeout callback says is left, None where there is no such callback. */
  datatype Request = Request(forkOk: bool, withIo: bool, withInput: bool, maxTime: nat, cancellable: bool,
                             alreadyCancelled: bool, killOk: bool)

  datatype Event =
    | IoEnd
    | ChildExit(status: int)
    | Idle
    | Timeout(userLeft: Option<nat>, killOk: bool)
    | Cancel(killOk: bool)

  function Close(d: Descriptor): Descriptor {
    if d.open then Descriptor(false, d.closed + 1) else d
  }

  /** process_kill */
  function Kill(p: Process, killOk: bool): Process {
    if p.pid.Reaped? then p
    else if killOk then p.(localWatchdog := true)
    else p.(childWatch := false)
  }

  /** The record process_run has after the fork; a failed one leaves no descriptors and only the idle source. */
  function Fork(q: Request): Process {
    if q.forkOk then
      Process(Live, false, false, q.cancellable, false, false, None, q.maxTime,
              Descriptor(true, 0), Descriptor(q.withInput, 0), 0, false, [])
    else
      Process(ForkFailed, false, false, false, true, false, None, q.maxTime,
              Descriptor(false, 0), Descriptor(false, 0), 0, false, [])
  }

  /** The timer and the watches that process_run adds last. */
  function Watch(q: Request, p: Process): Process {
    p.(timer := if q.maxTime != 0 then Some(Min(q.maxTime, HEARTBEAT)) else None,
       fdIn := Close(p.fdIn), ioWatch := q.withIo, childWatch := true)
  }

  /** process_run; a cancellable that is already cancelled kills the child before it is watched. */
  function Run(q: Request): Process {
    if !q.forkOk then Fork(q)
    else if q.cancellable && q.alreadyCancelled then Watch(q, Kill(Fork(q), q.killOk))
    else Watch(q, Fork(q))
  }

  /** The tail of process_io_finish and of process_pid_callback. */
  function ScheduleFinish(p: Process): Process {
    if p.finishId then p else p.(idle := true, finishId := true)
  }

  /** process_io_finish */
  function OnIoEnd(p: Process): Process {
    ScheduleFinish(p.(fdOut := Close(p.fdOut), fdIn := Close(p.fdIn), ioWatch := false))
  }

  /** process_pid_callback */
  function OnChildExit(p: Process, status: int): Process {
    ScheduleFinish(p.(childWatch := false, status := status, pid := Reaped,
                      fdOut := Close(p.fdOut), fdIn := Close(p.fdIn)))
  }

  /** process_pid_finish; freeing the ProcessData disconnects the cancel handler. */
  function OnIdle(p: Process): Process {
    if p.pid != Reaped || p.ioWatch then
      p.(idle := false, finishId := false)
    else
      p.(idle := false, timer := None, cancelHandler := false, calls := p.calls + [(p.status, p.localWatchdog)])
  }

  /** What the timeout callback finds left: the user's answer, or one heartbeat less than before. */
  function TimeLeft(p: Process, userLeft: Option<nat>): nat {
    match userLeft
    case Some(n) => n
    case None => if p.maxTime < HEARTBEAT then 0 else p.maxTime - HEARTBEAT
  }

  /** process_timeout_callback */
  function OnTimeout(p: Process, userLeft: Option<nat>, killOk: bool): Process
    requires p.timer.Some?
  {
    var left := TimeLeft(p, userLeft);
    if p.pid.Reaped? then p.(timer := None)
    else if left == 0 then Kill(p.(maxTime := left), killOk).(timer := None)
    else p.(maxTime := left, timer := if left < HEARTBEAT then Some(left) else p.timer)
  }

  /** process_cancelled_cb */
  function OnCancel(p: Process, killOk: bool): Process {
    Kill(p, killOk).(timer := None)
  }

  predicate Enabled(p: Process, e: Event) {
    match e
    case IoEnd => p.ioWatch
    case ChildExit(_) => p.childWatch
    case Idle => p.idle
    case Timeout(_, _) => p.timer.Some?
    case Cancel(_) => p.cancelHandler
  }

  function Step(p: Process, e: Event): Process
    requires Enabled(p, e)
  {
    match e
    case IoEnd => OnIoEnd(p)
    case ChildExit(status) => OnChildExit(p, status)
    case Idle => OnIdle(p)
    case Timeout(userLeft, killOk) => OnTimeout(p, userLeft, killOk)
    case Cancel(killOk) => OnCancel(p, killOk)
  }

  predicate IsRun(p: Process, run: seq<Event>)
    decreases |run|
  {
    run == [] || (Enabled(p, run[0]) && IsRun(Step(p, run[0]), run[1..]))
  }

  function After(p: Process, run: seq<Event>): Process
    requires IsRun(p, run)
    decreases |run|
  {
    if run == [] then p else After(Step(p, run[0]), run[1..])
  }
}

module ProcessTheorems {
  import opened Common
  import opened ProcessModel

  /** The child watch was removed after a kill that failed: nobody will notice the child's exit. */
  predicate Lost(p: Process) {
    p.pid.Live? && !p.childWatch
  }

  predicate Joined(p: Process) {
    p.pid.Reaped? && !p.ioWatch
  }

  /** Closed exactly once, or never opened. */
  predicate ClosedOnce(d: Descriptor, wasOpened: bool) {
    !d.open && d.closed == (if wasOpened then 1 else 0)
  }

  predicate Untouched(d: Descriptor, wasOpened: bool) {
    d.open == wasOpened && d.closed == 0
  }

  predicate Valid(q: Request, p: Process) {
    && |p.calls| <= 1
    && (p.pid.ForkFailed? <==> !q.forkOk)
    && (p.pid.Reaped? ==> !p.childWatch)
    && (p.ioWatch ==> q.withIo && q.forkOk)
    && (!q.forkOk ==> p.calls == [] && !p.childWatch && !p.cancelHandler && p.timer.None? && !p.finishId)
    && ClosedOnce(p.fdIn, q.forkOk && q.withInput)
    && (ClosedOnce(p.fdOut, q.forkOk) || Untouched(p.fdOut, q.forkOk))
    && (p.pid.Reaped? || (q.withIo && q.forkOk && !p.ioWatch) ==> ClosedOnce(p.fdOut, q.forkOk))
    && (q.forkOk && p.calls == [] ==> p.idle == p.finishId)
    && (q.forkOk && p.calls == [] && Joined(p) ==> p.idle)
    && (p.calls != [] ==>
          Joined(p) && !p.idle && p.timer.None? && !p.cancelHandler && p.calls == [(p.status, p.localWatchdog)])
  }

  lemma RunIsValid(q: Request)
    ensures Valid(q, Run(q))
  {
  }

  lemma EndKeepsValid(q: Request, p: Process, e: Event)
    requires Valid(q, p) && Enabled(p, e) && (e.IoEnd? || e.ChildExit?)
    ensures Valid(q, Step(p, e))
  {
  }

  lemma IdleKeepsValid(q: Request, p: Process)
    requires Valid(q, p) && p.idle
    ensures Valid(q, OnIdle(p))
  {
  }

  lemma KillKeepsValid(q: Request, p: Process, killOk: bool)
    requires Valid(q, p) && p.calls == [] && q.forkOk
    ensures Valid(q, Kill(p, killOk)) && Valid(q, Kill(p, killOk).(timer := None))
  {
  }

  lemma TimerKeepsValid(q: Request, p: Process, maxTime: nat, timer: Option<nat>)
    requires Valid(q, p) && p.timer.Some?
    ensures Valid(q, p.(maxTime := maxTime, timer := timer))
  {
  }

  lemma TimeoutKeepsValid(q: Request, p: Process, userLeft: Option<nat>, killOk: bool)
    requires Valid(q, p) && p.timer.Some?
    ensures Valid(q, OnTimeout(p, userLeft, killOk))
  {
    var left := TimeLeft(p, userLeft);
    TimerKeepsValid(q, p, p.maxTime, None);
    TimerKeepsValid(q, p, left, p.timer);
    TimerKeepsValid(q, p, left, Some(left));
    KillKeepsValid(q, p.(maxTime := left), killOk);
    assert p.(maxTime := left, timer := p.timer) == p.(maxTime := left);
  }

  lemma StepKeepsValid(q: Request, p: Process, e: Event)
    requires Valid(q, p) && Enabled(p, e)
    ensures Valid(q, Step(p, e))
  {
    match e
    case IoEnd => EndKeepsValid(q, p, e);
    case ChildExit(_) => EndKeepsValid(q, p, e);
    case Idle => IdleKeepsValid(q, p);
    case Cancel(killOk) => KillKeepsValid(q, p, killOk);
    case Timeout(userLeft, killOk) => TimeoutKeepsValid(q, p, userLeft, killOk);
  }

  lemma {:induction false} RunKeepsValid(q: Request, p: Process, run: seq<Event>)
    requires Valid(q, p) && IsRun(p, run)
    ensures Valid(q, After(p, run))
    decreases |run|
  {
    hide Valid, Step;
    if run != [] {
      StepKeepsValid(q, p, run[0]);
      RunKeepsValid(q, Step(p, run[0]), run[1..]);
    }
  }

  /** In every interleaving the finish callback runs at most once, after both the child and the I/O have
    * ended, with the child's status; both descriptors have then been closed exactly once, no timer is
    * armed and nothing can refer to the freed record any more. */
  lemma FinishesAtMostOnce(q: Request, run: seq<Event>)
    requires IsRun(Run(q), run)
    ensures var p := After(Run(q), run);
            && |p.calls| <= 1
            && (p.calls != [] ==>
                  && Joined(p) && p.calls[0].0 == p.status && p.timer.None?
                  && ClosedOnce(p.fdOut, true) && ClosedOnce(p.fdIn, q.withInput)
                  && forall e :: !Enabled(p, e))
  {
    RunIsValid(q);
    RunKeepsValid(q, Run(q), run);
  }

  /** Once the child and the I/O have ended the callback has run or is about to: the next idle round runs it. */
  lemma JoinIsScheduled(q: Request, run: seq<Event>)
    requires IsRun(Run(q), run) && Joined(After(Run(q), run))
    ensures var p := After(Run(q), run);
            p.calls != [] || (Enabled(p, Idle) && |Step(p, Idle).calls| == 1)
  {
    RunIsValid(q);
    RunKeepsValid(q, Run(q), run);
  }

  predicate Abandoned(q: Request, p: Process) {
    p.calls == [] && (Lost(p) || !q.forkOk)
  }

  lemma AbandonedStep(q: Request, p: Process, e: Event)
    requires Valid(q, p) && Abandoned(q, p) && Enabled(p, e)
    ensures Abandoned(q, Step(p, e))
  {
  }

  /** After a failed fork, and after a kill that failed on a watched child, no continuation ever calls it. */
  lemma {:induction false} LostNeverFinishes(q: Request, p: Process, run: seq<Event>)
    requires Valid(q, p) && Abandoned(q, p) && IsRun(p, run)
    ensures Abandoned(q, After(p, run))
    decreases |run|
  {
    hide Valid, Abandoned, Step;
    if run != [] {
      AbandonedStep(q, p, run[0]);
      StepKeepsValid(q, p, run[0]);
      LostNeverFinishes(q, Step(p, run[0]), run[1..]);
    }
  }

  /** A child is lost exactly by a failed kill of a live, watched child. */
  lemma LostByFailedKill(q: Request, p: Process, e: Event)
    requires Valid(q, p) && Enabled(p, e) && q.forkOk && !Lost(p)
    ensures Lost(Step(p, e)) <==> FailsToKill(p, e)
  {
  }

  /** No time is left: the user's callback says so, or process.c counts down its last heartbeat. */
  predicate OutOfTime(p: Process, userLeft: Option<nat>) {
    match userLeft
    case Some(n) => n == 0
    case None => p.maxTime <= 60
  }

  /** The event tries to kill a live child that is being watched, and fails. */
  predicate FailsToKill(p: Process, e: Event) {
    && p.pid.Live? && p.childWatch
    && match e
       case Cancel(killOk) => !killOk
       case Timeout(userLeft, killOk) => !killOk && OutOfTime(p, userLeft)
       case _ => false
  }

  /** Some kill in the run fails on a live, watched child. */
  predicate SomeKillFails(p: Process, run: seq<Event>)
    requires IsRun(p, run)
    decreases |run|
  {
    run != [] && (FailsToKill(p, run[0]) || SomeKillFails(Step(p, run[0]), run[1..]))
  }

  lemma LostStaysLost(q: Request, p: Process, e: Event)
    requires Valid(q, p) && Lost(p) && Enabled(p, e) && q.forkOk
    ensures Lost(Step(p, e))
  {
  }

  lemma {:induction false} LostBySomeFailedKill(q: Request, p: Process, run: seq<Event>)
    requires Valid(q, p) && q.forkOk && IsRun(p, run)
    ensures Lost(After(p, run)) <==> Lost(p) || SomeKillFails(p, run)
    decreases |run|
  {
    hide Valid, Step;
    if run != [] {
      StepKeepsValid(q, p, run[0]);
      LostBySomeFailedKill(q, Step(p, run[0]), run[1..]);
      LostStep(q, p, run[0]);
    }
  }

  lemma LostStep(q: Request, p: Process, e: Event)
    requires Valid(q, p) && Enabled(p, e) && q.forkOk
    ensures Lost(Step(p, e)) <==> Lost(p) || FailsToKill(p, e)
  {
    hide Step;
    if Lost(p) {
      LostStaysLost(q, p, e);
    } else {
      LostByFailedKill(q, p, e);
    }
  }

  ghost predicate OnlyCancelLeft(p: Process) {
    forall e :: Enabled(p, e) ==> e.Cancel?
  }

  /** When nothing but a cancellation can happen any more, the callback has run exactly if the fork
    * succeeded and no kill in the run failed on a live child that was being watched. */
  lemma FinishesUnlessLost(q: Request, run: seq<Event>)
    requires IsRun(Run(q), run)
    requires OnlyCancelLeft(After(Run(q), run))
    ensures |After(Run(q), run).calls| == 1 <==> q.forkOk && !SomeKillFails(Run(q), run)
  {
    RunIsValid(q);
    RunKeepsValid(q, Run(q), run);
    var p := After(Run(q), run);
    CalledUnlessLost(q, p);
    if q.forkOk {
      LostBySomeFailedKill(q, Run(q), run);
      assert !Lost(Run(q));
    }
  }

  lemma CalledUnlessLost(q: Request, p: Process)
    requires Valid(q, p) && OnlyCancelLeft(p)
    ensures |p.calls| == 1 <==> q.forkOk && !Lost(p)
  {
    assert Enabled(p, IoEnd) ==> IoEnd.Cancel?;
    assert Enabled(p, ChildExit(0)) ==> ChildExit(0).Cancel?;
    assert Enabled(p, Idle) ==> Idle.Cancel?;
  }

  // ---- the callback does come -----------------------------------------------------------------------

  /** What is left of the ends that the join waits for, and of the idle rounds they cause. */
  function EndsLeft(p: Process): nat {
    (if p.ioWatch then 2 else 0) + (if p.childWatch then 2 else 0) + (if p.idle then 1 else 0)
  }

  /** Timer ticks and cancellations aside, every event brings the end nearer. */
  lemma EventsRunOut(q: Request, p: Process, e: Event)
    requires Valid(q, p) && Enabled(p, e)
    ensures EndsLeft(Step(p, e)) <= EndsLeft(p)
    ensures e.IoEnd? || e.ChildExit? || e.Idle? ==> EndsLeft(Step(p, e)) < EndsLeft(p)
  {
  }

  // ---- the timer ----------------------------------------------------------------------------------------

  /** The event ends the timer: a cancellation, or a tick that finds the child gone or no time left. */
  predicate EndsTimer(p: Process, e: Event) {
    match e
    case Cancel(_) => true
    case Timeout(userLeft, _) => p.pid.Reaped? || OutOfTime(p, userLeft)
    case _ => false
  }

  predicate SomeEndsTimer(p: Process, run: seq<Event>)
    requires IsRun(p, run)
    decreases |run|
  {
    run != [] && (EndsTimer(p, run[0]) || SomeEndsTimer(Step(p, run[0]), run[1..]))
  }

  lemma TimerStep(q: Request, p: Process, e: Event)
    requires Valid(q, p) && Enabled(p, e)
    ensures Step(p, e).timer.Some? <==> p.timer.Some? && !EndsTimer(p, e) && |Step(p, e).calls| == |p.calls|
    ensures |p.calls| <= |Step(p, e).calls|
  {
    hide Valid;
    match e
    case IoEnd =>
    case ChildExit(_) =>
    case Idle =>
    case Timeout(userLeft, killOk) => TimeoutTimer(p, userLeft, killOk);
    case Cancel(_) =>
  }

  lemma TimeoutTimer(p: Process, userLeft: Option<nat>, killOk: bool)
    requires p.timer.Some?
    ensures OnTimeout(p, userLeft, killOk).timer.Some? <==> !p.pid.Reaped? && !OutOfTime(p, userLeft)
    ensures OnTimeout(p, userLeft, killOk).calls == p.calls
  {
    hide TimeLeft, OutOfTime, Kill;
    LeftIsTime(p, userLeft);
    KillLeavesCalls(p.(maxTime := TimeLeft(p, userLeft)), killOk);
  }

  lemma KillLeavesCalls(p: Process, killOk: bool)
    ensures Kill(p, killOk).calls == p.calls && Kill(p, killOk).(timer := None).calls == p.calls
  {
  }

  /** Over any run the timer of a process with a time limit is armed until the first cancellation, the first tick
    * that finds the child gone or no time left, or the finish callback, and never again. */
  lemma {:induction false} TimerRunsUntilItsEnd(q: Request, p: Process, run: seq<Event>)
    requires Valid(q, p) && IsRun(p, run)
    ensures After(p, run).timer.Some? <==> p.timer.Some? && !SomeEndsTimer(p, run) && |After(p, run).calls| == |p.calls|
    ensures |p.calls| <= |After(p, run).calls|
    decreases |run|
  {
    hide Valid, Step, Enabled, EndsTimer;
    if run != [] {
      TimerStep(q, p, run[0]);
      StepKeepsValid(q, p, run[0]);
      TimerRunsUntilItsEnd(q, Step(p, run[0]), run[1..]);
    }
  }

  /** After a failed fork one idle round comes and finds nothing to finish; then nothing can happen any more. */
  lemma FailedForkIdlesOnce(q: Request)
    requires !q.forkOk
    ensures Enabled(Run(q), Idle) && forall e :: Enabled(Run(q), e) ==> e.Idle?
    ensures Step(Run(q), Idle).calls == [] && forall e :: !Enabled(Step(Run(q), Idle), e)
  {
  }

  // ---- what the callback is told ----------------------------------------------------------------------

  /** The exit statuses that the child watch delivers in a run. */
  function ExitStatuses(run: seq<Event>): seq<int> {
    if run == [] then [] else (if run[0].ChildExit? then [run[0].status] else []) + ExitStatuses(run[1..])
  }

  /** The event kills the child. */
  predicate Kills(p: Process, e: Event) {
    match e
    case Cancel(killOk) => killOk
    case Timeout(userLeft, killOk) => killOk && OutOfTime(p, userLeft)
    case _ => false
  }

  /** Some kill in the run succeeds on a child whose exit has not been seen; `exited` says whether it has been
    * before the run. */
  predicate SomeKillSucceeds(p: Process, run: seq<Event>, exited: bool)
    requires IsRun(p, run)
    decreases |run|
  {
    run != [] && ((!exited && Kills(p, run[0])) || SomeKillSucceeds(Step(p, run[0]), run[1..], exited || run[0].ChildExit?))
  }

  /** What the record knows: whether the child's exit has been seen, with what status, and whether a kill has
    * succeeded before it. */
  predicate Knows(p: Process, exit: Option<int>, killed: bool) {
    && (p.pid.Reaped? <==> exit.Some?) && (exit.Some? ==> p.status == exit.value && !p.childWatch)
    && p.localWatchdog == killed
    && (p.calls != [] ==> exit.Some? && p.calls == [(exit.value, killed)] && OverForGood(p))
  }

  predicate OverForGood(p: Process) {
    !p.ioWatch && !p.idle && !p.cancelHandler && p.timer.None?
  }

  function ExitAfter(exit: Option<int>, e: Event): Option<int> {
    if e.ChildExit? then Some(e.status) else exit
  }

  lemma KillKnows(p: Process, exit: Option<int>, killed: bool, killOk: bool)
    requires Knows(p, exit, killed) && p.calls == []
    ensures var k := killed || (exit.None? && killOk);
            Knows(Kill(p, killOk), exit, k) && Knows(Kill(p, killOk).(timer := None), exit, k)
  {
  }

  lemma TimeKnows(p: Process, exit: Option<int>, killed: bool, maxTime: nat, timer: Option<nat>)
    requires Knows(p, exit, killed) && p.calls == []
    ensures Knows(p.(maxTime := maxTime), exit, killed) && Knows(p.(maxTime := maxTime, timer := timer), exit, killed)
    ensures Knows(p.(timer := timer), exit, killed)
  {
  }

  lemma TimerIsLive(p: Process, exit: Option<int>, killed: bool)
    requires Knows(p, exit, killed) && p.timer.Some?
    ensures p.calls == [] && (p.pid.Reaped? <==> exit.Some?)
  {
  }

  lemma LeftIsTime(p: Process, userLeft: Option<nat>)
    ensures TimeLeft(p, userLeft) == 0 <==> OutOfTime(p, userLeft)
  {
  }

  lemma TimeoutKnows(p: Process, exit: Option<int>, killed: bool, userLeft: Option<nat>, killOk: bool)
    requires Knows(p, exit, killed) && p.timer.Some?
    ensures Knows(OnTimeout(p, userLeft, killOk), exit,
                  killed || (exit.None? && Kills(p, Timeout(userLeft, killOk))))
  {
    hide Knows, Kill, TimeLeft, OutOfTime;
    var left := TimeLeft(p, userLeft);
    TimerIsLive(p, exit, killed);
    LeftIsTime(p, userLeft);
    TimeKnows(p, exit, killed, left, if left < HEARTBEAT then Some(left) else p.timer);
    TimeKnows(p, exit, killed, left, None);
    KillKnows(p.(maxTime := left), exit, killed, killOk);
  }

  lemma EndKnows(p: Process, e: Event, exit: Option<int>, killed: bool)
    requires Knows(p, exit, killed) && Enabled(p, e) && !p.pid.ForkFailed? && (e.IoEnd? || e.ChildExit?)
    ensures Knows(Step(p, e), ExitAfter(exit, e), killed)
  {
  }

  lemma IdleKnows(p: Process, exit: Option<int>, killed: bool)
    requires Knows(p, exit, killed) && p.idle
    ensures Knows(OnIdle(p), exit, killed)
  {
  }

  lemma StepKnows(p: Process, e: Event, exit: Option<int>, killed: bool)
    requires Knows(p, exit, killed) && Enabled(p, e) && (p.pid.ForkFailed? ==> e.Idle?)
    ensures Knows(Step(p, e), ExitAfter(exit, e), killed || (exit.None? && Kills(p, e)))
  {
    match e
    case IoEnd => EndKnows(p, e, exit, killed);
    case ChildExit(_) => EndKnows(p, e, exit, killed);
    case Idle => IdleKnows(p, exit, killed);
    case Timeout(userLeft, killOk) => TimeoutKnows(p, exit, killed, userLeft, killOk);
    case Cancel(killOk) => KillKnows(p, exit, killed, killOk);
  }

  /** The child watch delivers one status at most. */
  lemma OneExit(p: Process, e: Event, exit: Option<int>, killed: bool)
    requires Knows(p, exit, killed) && Enabled(p, e)
    ensures exit.Some? ==> !e.ChildExit?
  {
  }

  function ExitsSince(exit: Option<int>, run: seq<Event>): seq<int> {
    (if exit.Some? then [exit.value] else []) + ExitStatuses(run)
  }

  lemma {:induction false} RunKnows(q: Request, p: Process, run: seq<Event>, exit: Option<int>, killed: bool)
    returns (last: Option<int>)
    requires Valid(q, p) && Knows(p, exit, killed) && IsRun(p, run)
    ensures Knows(After(p, run), last, killed || SomeKillSucceeds(p, run, exit.Some?))
    ensures ExitsSince(exit, run) == ExitsSince(last, [])
    decreases |run|
  {
    hide Valid, Knows, Step, Kills, Enabled;
    last := exit;
    if run != [] {
      FailedForkOnlyIdles(q, p, run[0]);
      OneExit(p, run[0], exit, killed);
      StepKnows(p, run[0], exit, killed);
      StepKeepsValid(q, p, run[0]);
      last := RunKnows(q, Step(p, run[0]), run[1..], ExitAfter(exit, run[0]), killed || (exit.None? && Kills(p, run[0])));
    }
  }

  lemma FailedForkOnlyIdles(q: Request, p: Process, e: Event)
    requires Valid(q, p) && Enabled(p, e)
    ensures p.pid.ForkFailed? ==> e.Idle?
  {
  }

  /** Over any run the finish callback is told the status that the child watch delivered, and that the local
    * watchdog has expired if and only if a kill succeeded before the child's exit was seen: in the run, or in
    * process_run, where the cancellable had been cancelled already. */
  lemma CallbackIsToldTheTruth(q: Request, run: seq<Event>)
    requires IsRun(Run(q), run) && After(Run(q), run).calls != []
    ensures var call := After(Run(q), run).calls[0];
            && ExitStatuses(run) == [call.0]
            && (call.1 <==> (q.cancellable && q.alreadyCancelled && q.killOk) || SomeKillSucceeds(Run(q), run, false))
  {
    RunIsValid(q);
    RunKeepsValid(q, Run(q), run);
    var last := RunKnows(q, Run(q), run, None, q.forkOk && q.cancellable && q.alreadyCancelled && q.killOk);
    assert q.forkOk;
    hide IsRun, SomeKillSucceeds, Valid;
    assert ExitsSince(None, run) == ExitStatuses(run) && ExitsSince(last, []) == [last.value] + [];
  }
}

/** ProcessData and its callbacks. */
module Process {
  import opened Common
  import M = ProcessModel

  class ProcessData {
    var pid: M.Pid
    var ioWatch: bool
    var childWatch: bool
    var cancelHandler: bool
    var idle: bool
    var finishId: bool
    var timer: Option<nat>
    var maxTime: nat
    var fdOut: M.Descriptor
    var fdIn: M.Descriptor
    var status: int
    var localWatchdog: bool
    ghost var calls: seq<(int, bool)>

    ghost function View(): M.Process
      reads this
    {
      M.Process(pid, ioWatch, childWatch, cancelHandler, idle, finishId, timer, maxTime, fdOut, fdIn, status,
                localWatchdog, calls)
    }

    /** process_run */
    constructor (q: M.Request)
      ensures View() == M.Run(q)
    {
      ioWatch, childWatch, finishId, localWatchdog := false, false, false, false;
      pid := if q.forkOk then M.Live else M.ForkFailed;
      cancelHandler, idle := q.forkOk && q.cancellable, !q.forkOk;
      timer, maxTime, status, calls := None, q.maxTime, 0, [];
      fdOut, fdIn := M.Descriptor(q.forkOk, 0), M.Descriptor(q.forkOk && q.withInput, 0);
      new;
      assert View() == M.Fork(q);
      hide M.Fork, M.Watch, M.Kill;
      if q.forkOk {
        if q.cancellable && q.alreadyCancelled {
          Kill(q.killOk);
        }
        Watch(q);
      }
    }

    /** The end of process_run. */
    method Watch(q: M.Request)
      requires !timer.Some? && maxTime == q.maxTime
      modifies this
      ensures View() == old(M.Watch(q, View()))
    {
      if maxTime != 0 {
        timer := Some(if maxTime < HEARTBEAT then maxTime else HEARTBEAT);
      }
      if fdIn.open {
        fdIn := M.Descriptor(false, fdIn.closed + 1);
      }
      ioWatch := q.withIo;
      childWatch := true;
    }

    method CloseDescriptors()
      modifies this`fdOut, this`fdIn
      ensures fdOut == M.Close(old(fdOut)) && fdIn == M.Close(old(fdIn))
    {
      if fdOut.open {
        fdOut := M.Descriptor(false, fdOut.closed + 1);
      }
      if fdIn.open {
        fdIn := M.Descriptor(false, fdIn.closed + 1);
      }
    }

    method ScheduleFinish()
      modifies this`idle, this`finishId
      ensures View() == M.ScheduleFinish(old(View()))
    {
      if !finishId {
        idle, finishId := true, true;
      }
    }

    /** process_io_finish */
    method IoFinish()
      modifies this
      ensures View() == M.OnIoEnd(old(View()))
    {
      hide M.ScheduleFinish;
      CloseDescriptors();
      ioWatch := false;
      ScheduleFinish();
    }

    /** process_pid_callback */
    method PidCallback(exitStatus: int)
      modifies this
      ensures View() == M.OnChildExit(old(View()), exitStatus)
    {
      hide M.ScheduleFinish;
      childWatch, status, pid := false, exitStatus, M.Reaped;
      CloseDescriptors();
      ScheduleFinish();
    }

    /** process_pid_finish */
    method PidFinish()
      modifies this
      ensures View() == M.OnIdle(old(View()))
    {
      idle := false;
      if pid != M.Reaped || ioWatch {
        finishId := false;
        return;
      }
      if timer.Some? {
        timer := None;
      }
      calls := calls + [(status, localWatchdog)];
      cancelHandler := false;
    }

    /** process_kill */
    method Kill(killOk: bool)
      modifies this`localWatchdog, this`childWatch
      ensures View() == M.Kill(old(View()), killOk)
    {
      if pid == M.Reaped {
        return;
      }
      if killOk {
        localWatchdog := true;
      } else if childWatch {
        childWatch := false;
      }
    }

    /** process_timeout_callback */
    method TimeoutCallback(userLeft: Option<nat>, killOk: bool)
      requires timer.Some?
      modifies this
      ensures View() == M.OnTimeout(old(View()), userLeft, killOk)
    {
      hide M.Kill, M.TimeLeft;
      if pid == M.Reaped {
        timer := None;
        return;
      }
      maxTime := RemainingTime(userLeft);
      if maxTime > 0 {
        if maxTime < HEARTBEAT {
          timer := Some(maxTime);
        }
        return;
      }
      Kill(killOk);
      timer := None;
    }

    method RemainingTime(userLeft: Option<nat>) returns (left: nat)
      ensures left == M.TimeLeft(View(), userLeft)
    {
      if userLeft.Some? {
        left := userLeft.value;
      } else if maxTime < HEARTBEAT {
        left := 0;
      } else {
        left := maxTime - HEARTBEAT;
      }
    }

    /** process_cancelled_cb */
    method CancelledCallback(killOk: bool)
      modifies this
      ensures View() == M.OnCancel(old(View()), killOk)
    {
      Kill(killOk);
      if timer.Some? {
        timer := None;
      }
    }
  }
}
