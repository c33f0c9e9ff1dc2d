/** The local watchdog of a task: the timer of src/process.c, the heartbeat of src/task.c that manages the
  * remaining time, and the adjustment request of src/server.c.
  *
  * Time is counted in whole seconds and a timer fires exactly when it is due. */
module WatchdogModel {
  import opened Common

  datatype Timer = Timer(due: int, period: nat)

  /** `remaining` is task->remaining_time, `changedAt` the moment in task->time_chged and None for NULL,
    * `saved` the remaining_time of the task's section in the config file, 0 when it has none. */
  datatype Watchdog = Watchdog(
    remaining: nat,
    changedAt: Option<int>,
    timer: Option<Timer>,
    saved: nat,
    killedAt: Option<int>)

  datatype Event = Tick | Adjust(at: int, seconds: nat)

  /** The timer that process_run adds; a budget of 0 adds none. */
  function Arm(start: int, budget: nat, saved: nat): Watchdog {
    var period := Min(budget, HEARTBEAT);
    Watchdog(budget, None, if budget == 0 then None else Some(Timer(start + period, period)), saved, None)
  }

  /** task_heartbeat_callback at time `now`: the remaining time it leaves. */
  function Heartbeat(w: Watchdog, now: int): nat {
    match w.changedAt
    case Some(at) =>
      if w.remaining != 0 && now - at < w.remaining then w.remaining - (now - at) else 0
    case None =>
      if w.remaining > HEARTBEAT then w.remaining - HEARTBEAT else 0
  }

  /** process_timeout_callback with task_timeout_cb as the user's callback: a time left below the
    * heartbeat replaces the timer, a longer one keeps it and its period, and none kills the process. */
  function OnTick(w: Watchdog): Watchdog
    requires w.timer.Some?
  {
    var t := w.timer.value;
    var left := Heartbeat(w, t.due);
    var v := w.(remaining := left, changedAt := None, saved := left);
    if left == 0 then v.(timer := None, killedAt := Some(t.due))
    else if left < HEARTBEAT then v.(timer := Some(Timer(t.due + left, left)))
    else v.(timer := Some(Timer(t.due + t.period, t.period)))
  }

  /** The watchdog branch of server_recipe_callback. */
  function OnAdjust(w: Watchdog, at: int, seconds: nat): Watchdog {
    w.(remaining := seconds, changedAt := Some(at))
  }

  /** A request arrives no later than the next tick and no earlier than the last request. */
  predicate Enabled(w: Watchdog, e: Event) {
    match e
    case Tick => w.timer.Some?
    case Adjust(at, _) =>
      && (w.timer.Some? ==> at <= w.timer.value.due)
      && (w.changedAt.Some? ==> w.changedAt.value <= at)
  }

  function Step(w: Watchdog, e: Event): Watchdog
    requires Enabled(w, e)
  {
    match e
    case Tick => OnTick(w)
    case Adjust(at, seconds) => OnAdjust(w, at, seconds)
  }

  predicate IsRun(w: Watchdog, run: seq<Event>)
    decreases |run|
  {
    run == [] || (Enabled(w, run[0]) && IsRun(Step(w, run[0]), run[1..]))
  }

  function After(w: Watchdog, run: seq<Event>): Watchdog
    requires IsRun(w, run)
    decreases |run|
  {
    if run == [] then w else After(Step(w, run[0]), run[1..])
  }
}

/** What the watchdog promises: when it kills, and what a restart gives a task back. */
module WatchdogTheorems {
  import opened Common
  import opened WatchdogModel

  predicate Valid(w: Watchdog) {
    && (w.timer.Some? ==> 0 < w.timer.value.period <= HEARTBEAT)
    && (w.timer.Some? && w.changedAt.Some? ==> w.changedAt.value <= w.timer.value.due)
    && (w.killedAt.Some? ==> w.timer.None?)
  }

  /** The moment an armed watchdog will kill its process if it is not adjusted any more. */
  function KillTime(w: Watchdog): int
    requires w.timer.Some?
  {
    var t := w.timer.value;
    var left := Heartbeat(w, t.due);
    t.due + left / HEARTBEAT * t.period + left % HEARTBEAT
  }

  /** The number of ticks it takes to get there. */
  function TicksLeft(w: Watchdog): nat
    requires w.timer.Some?
  {
    var left := Heartbeat(w, w.timer.value.due);
    1 + left / HEARTBEAT + (if left % HEARTBEAT == 0 then 0 else 1)
  }

  lemma RoundsOfHeartbeat(left: nat, period: nat)
    requires left >= HEARTBEAT
    ensures left / HEARTBEAT == 1 + (left - HEARTBEAT) / HEARTBEAT
    ensures left % HEARTBEAT == (left - HEARTBEAT) % HEARTBEAT
    ensures left / HEARTBEAT * period == period + (left - HEARTBEAT) / HEARTBEAT * period
  {
    var q := (left - HEARTBEAT) / HEARTBEAT;
    assert (1 + q) * period == period + q * period;
  }

  /** A tick either kills at the predicted moment or leaves the prediction as it was. */
  lemma TickKeepsKillTime(w: Watchdog)
    requires Valid(w) && w.timer.Some?
    ensures Valid(OnTick(w))
    ensures OnTick(w).timer.None? ==> OnTick(w).killedAt == Some(KillTime(w)) && TicksLeft(w) == 1
    ensures OnTick(w).timer.Some? ==>
              KillTime(OnTick(w)) == KillTime(w) && TicksLeft(OnTick(w)) == TicksLeft(w) - 1
              && OnTick(w).killedAt == w.killedAt
  {
    var t := w.timer.value;
    var left := Heartbeat(w, t.due);
    if left >= HEARTBEAT {
      RoundsOfHeartbeat(left, t.period);
    }
  }

  function Ticks(n: nat): (run: seq<Event>)
    ensures |run| == n
  {
    if n == 0 then [] else [Tick] + Ticks(n - 1)
  }

  /** Left alone, an armed watchdog kills, and at the predicted moment. */
  lemma {:induction false} KillsAtKillTime(w: Watchdog)
    requires Valid(w) && w.timer.Some? && w.killedAt.None?
    ensures IsRun(w, Ticks(TicksLeft(w)))
    ensures After(w, Ticks(TicksLeft(w))).killedAt == Some(KillTime(w))
    decreases TicksLeft(w)
  {
    TickKeepsKillTime(w);
    var run := Ticks(TicksLeft(w));
    assert run[0] == Tick && run[1..] == Ticks(TicksLeft(w) - 1);
    if OnTick(w).timer.Some? {
      KillsAtKillTime(OnTick(w));
    }
  }

  /** Without an adjustment a process with a budget is killed when exactly the budget has passed. */
  lemma UnadjustedKillTime(start: int, budget: nat, saved: nat)
    requires budget > 0
    ensures var w := Arm(start, budget, saved);
            && Valid(w) && w.timer.Some? && w.killedAt.None? && KillTime(w) == start + budget
            && IsRun(w, Ticks(TicksLeft(w))) && After(w, Ticks(TicksLeft(w))).killedAt == Some(start + budget)
  {
    if budget >= HEARTBEAT {
      RoundsOfHeartbeat(budget, HEARTBEAT);
    }
    KillsAtKillTime(Arm(start, budget, saved));
  }

  /** Seconds of an adjustment that the next tick finds still to be run. */
  function LeftAtTick(due: int, at: int, seconds: nat): nat {
    Max(0, seconds - (due - at))
  }

  lemma ShortRounds(rounds: nat, period: nat)
    requires period <= HEARTBEAT
    ensures rounds * period + (HEARTBEAT - period) * rounds == rounds * HEARTBEAT
    ensures (HEARTBEAT - period) * rounds == 0 <==> period == HEARTBEAT || rounds == 0
  {
    var short := HEARTBEAT - period;
    assert rounds * HEARTBEAT == rounds * (period + short) == rounds * period + rounds * short;
    if short > 0 && rounds > 0 {
      assert short * rounds >= short;
    }
  }

  /** What a timer of `period` seconds loses on a remaining time that is counted in heartbeats. */
  lemma Shortfall(left: nat, period: nat)
    requires 0 < period <= HEARTBEAT
    ensures left / HEARTBEAT * period + left % HEARTBEAT == left - (HEARTBEAT - period) * (left / HEARTBEAT)
    ensures (HEARTBEAT - period) * (left / HEARTBEAT) == 0 <==> period == HEARTBEAT || left < HEARTBEAT
  {
    ShortRounds(left / HEARTBEAT, period);
  }

  /** An adjustment to `seconds` made at `at` counts from the moment it was made.  When a full heartbeat
    * timer sees it, the process is killed at exactly that moment plus `seconds`, or at the tick if
    * that is later.  A shorter timer keeps its period: the process dies too early, by what each round
    * of 60 seconds is short of, exactly when a round or more is left at its tick. */
  lemma AdjustedKillTime(w: Watchdog, at: int, seconds: nat)
    requires Valid(w) && w.timer.Some? && at <= w.timer.value.due
    requires w.changedAt.Some? ==> w.changedAt.value <= at
    ensures Enabled(w, Adjust(at, seconds)) && Step(w, Adjust(at, seconds)) == OnAdjust(w, at, seconds)
    ensures var t := w.timer.value; var v := OnAdjust(w, at, seconds);
            var promised := Max(t.due, at + seconds);
            var left := LeftAtTick(t.due, at, seconds);
            && Valid(v) && v.timer.Some?
            && KillTime(v) == promised - (HEARTBEAT - t.period) * (left / HEARTBEAT)
            && (KillTime(v) == promised <==> t.period == HEARTBEAT || left < HEARTBEAT)
  {
    var t := w.timer.value;
    var left := LeftAtTick(t.due, at, seconds);
    assert Heartbeat(OnAdjust(w, at, seconds), t.due) == left;
    Shortfall(left, t.period);
  }

  /** A short timer at work: a process with 30 seconds left that is given 200 more after 10 is killed after
    * 120, not after 210. */
  lemma ShortTimerKillsEarly()
    ensures var run := [Adjust(10, 200)]; var w := Arm(0, 30, 0);
            && IsRun(w, run) && IsRun(After(w, run), Ticks(4)) && After(After(w, run), Ticks(4)).killedAt == Some(120)
  {
    var w := Arm(0, 30, 0);
    var v := Step(w, Adjust(10, 200));
    assert [Adjust(10, 200)][1..] == [] && After(w, [Adjust(10, 200)]) == v;
    assert KillTime(v) == 120 && TicksLeft(v) == 4;
    KillsAtKillTime(v);
  }

  /** The watchdog of a process that starts when its budget has been adjusted to `seconds` at `at` already. */
  function ArmAdjusted(start: int, at: int, seconds: nat, saved: nat): Watchdog {
    Arm(start, seconds, saved).(changedAt := Some(at))
  }

  /** An adjustment that comes before its process starts is one more adjustment of a fresh watchdog, and it is
    * always honoured. */
  lemma AdjustedBeforeStart(start: int, at: int, seconds: nat, saved: nat)
    requires at <= start && seconds > 0
    ensures Enabled(Arm(start, seconds, saved), Adjust(at, seconds))
    ensures ArmAdjusted(start, at, seconds, saved) == Step(Arm(start, seconds, saved), Adjust(at, seconds))
    ensures KillTime(ArmAdjusted(start, at, seconds, saved)) == Max(start + Min(seconds, HEARTBEAT), at + seconds)
  {
    UnadjustedKillTime(start, seconds, saved);
    AdjustedKillTime(Arm(start, seconds, saved), at, seconds);
  }

  /** Of several adjustments before one tick only the last counts. */
  lemma LastAdjustmentWins(w: Watchdog, at: int, seconds: nat, at': int, seconds': nat)
    requires Enabled(w, Adjust(at, seconds)) && Enabled(w, Adjust(at', seconds')) && at <= at'
    ensures OnAdjust(OnAdjust(w, at, seconds), at', seconds') == OnAdjust(w, at', seconds')
  {
  }

  /** A run of ticks is at most as long as predicted, and it kills exactly when it is that long. */
  lemma {:induction false} KilledWhenPredicted(w: Watchdog, n: nat)
    requires Valid(w) && w.timer.Some? && w.killedAt.None? && IsRun(w, Ticks(n))
    ensures n <= TicksLeft(w)
    ensures After(w, Ticks(n)).killedAt == if n == TicksLeft(w) then Some(KillTime(w)) else None
    decreases n
  {
    if n > 0 {
      TickKeepsKillTime(w);
      assert Ticks(n)[0] == Tick && Ticks(n)[1..] == Ticks(n - 1);
      if OnTick(w).timer.Some? {
        KilledWhenPredicted(OnTick(w), n - 1);
      }
    }
  }

  /** A process that starts without a budget has no timer, and no adjustment ever gives it one. */
  lemma {:induction false} DisabledWatchdogNeverKills(w: Watchdog, run: seq<Event>)
    requires w.timer.None? && IsRun(w, run)
    ensures After(w, run).timer.None? && After(w, run).killedAt == w.killedAt
    decreases |run|
  {
    if run != [] {
      DisabledWatchdogNeverKills(Step(w, run[0]), run[1..]);
    }
  }

  // ---- the countdown that process.c keeps when it has no user callback ------------------------------

  function ProcessCountdown(maxTime: nat): nat {
    if maxTime < HEARTBEAT then 0 else maxTime - HEARTBEAT
  }

  function TaskCountdown(remaining: nat): nat {
    if remaining > HEARTBEAT then remaining - HEARTBEAT else 0
  }

  /** The intervals of the timers that one process arms, under either countdown. */
  function Intervals(countdown: nat -> nat, left: nat, fuel: nat): seq<nat>
    decreases fuel
  {
    if left == 0 || fuel == 0 then []
    else [Min(left, HEARTBEAT)] + Intervals(countdown, countdown(left), fuel - 1)
  }

  function Sum(s: seq<nat>): nat {
    if s == [] then 0 else s[0] + Sum(s[1..])
  }

  /** Both countdowns arm the same timers, and these add up to the budget. */
  lemma {:induction false} CountdownsAgree(budget: nat, fuel: nat)
    requires budget <= fuel
    ensures Intervals(ProcessCountdown, budget, fuel) == Intervals(TaskCountdown, budget, fuel)
    ensures Sum(Intervals(TaskCountdown, budget, fuel)) == budget
    decreases fuel
  {
    if budget > 0 {
      assert ProcessCountdown(budget) == TaskCountdown(budget);
      CountdownsAgree(TaskCountdown(budget), fuel - 1);
      var rest := Intervals(TaskCountdown, TaskCountdown(budget), fuel - 1);
      assert ([Min(budget, HEARTBEAT)] + rest)[1..] == rest;
    }
  }

  /** The periods of the timers that fire, from the one that is armed to the one that kills. */
  function TimerPeriods(w: Watchdog): seq<nat>
    requires Valid(w)
    decreases if w.timer.Some? then TicksLeft(w) else 0
  {
    if w.timer.None? then []
    else
      TickKeepsKillTime(w);
      [w.timer.value.period] + TimerPeriods(OnTick(w))
  }

  /** The timers of an unadjusted task are those of its countdown. */
  lemma {:induction false} TaskTimers(start: int, budget: nat, saved: nat, fuel: nat)
    requires budget <= fuel
    ensures Valid(Arm(start, budget, saved))
    ensures TimerPeriods(Arm(start, budget, saved)) == Intervals(TaskCountdown, budget, fuel)
    decreases fuel
  {
    if budget > HEARTBEAT {
      assert OnTick(Arm(start, budget, saved)) == Arm(start + HEARTBEAT, budget - HEARTBEAT, budget - HEARTBEAT);
      TaskTimers(start + HEARTBEAT, budget - HEARTBEAT, budget - HEARTBEAT, fuel - 1);
    }
  }

  // ---- from the start of a process ------------------------------------------------------------------

  lemma {:induction false} RunsKeepValid(w: Watchdog, run: seq<Event>)
    requires Valid(w) && (w.timer.Some? ==> w.killedAt.None?) && IsRun(w, run)
    ensures Valid(After(w, run)) && (After(w, run).timer.Some? ==> After(w, run).killedAt.None?)
    decreases |run|
  {
    if run != [] {
      if run[0].Tick? {
        TickKeepsKillTime(w);
      }
      RunsKeepValid(Step(w, run[0]), run[1..]);
    }
  }

  /** Whatever ticks and adjustments came before: an adjustment that a full timer sees, and that is the
    * last one, kills the process at the later of that timer's tick and the moment it asked for. */
  lemma AdjustmentIsHonoured(start: int, budget: nat, saved: nat, run: seq<Event>, at: int, seconds: nat)
    requires IsRun(Arm(start, budget, saved), run)
    requires var w := After(Arm(start, budget, saved), run);
             w.timer.Some? && w.timer.value.period == HEARTBEAT && Enabled(w, Adjust(at, seconds))
    ensures var w := After(Arm(start, budget, saved), run);
            var v := OnAdjust(w, at, seconds);
            && IsRun(v, Ticks(TicksLeft(v)))
            && After(v, Ticks(TicksLeft(v))).killedAt == Some(Max(w.timer.value.due, at + seconds))
  {
    RunsKeepValid(Arm(start, budget, saved), run);
    var w := After(Arm(start, budget, saved), run);
    AdjustedKillTime(w, at, seconds);
    KillsAtKillTime(OnAdjust(w, at, seconds));
  }

  // ---- restarts -------------------------------------------------------------------------------------

  /** metadata_finish_cb: a remaining time in the config file takes the place of the task's own. */
  function Restored(maxTime: nat, saved: nat): nat {
    if saved == 0 then maxTime else saved
  }

  /** While more than `n` heartbeats are left, `n` ticks leave what a fresh process with the rest would have. */
  lemma {:induction false} TicksCountDown(start: int, budget: nat, saved: nat, n: nat)
    requires HEARTBEAT * n < budget
    ensures var w := Arm(start, budget, saved); var left := budget - HEARTBEAT * n;
            IsRun(w, Ticks(n)) &&
            After(w, Ticks(n)) == Arm(start + HEARTBEAT * n, left, if n == 0 then saved else left)
    decreases n
  {
    if n > 0 {
      assert Ticks(n)[0] == Tick && Ticks(n)[1..] == Ticks(n - 1);
      assert OnTick(Arm(start, budget, saved)) == Arm(start + HEARTBEAT, budget - HEARTBEAT, budget - HEARTBEAT);
      TicksCountDown(start + HEARTBEAT, budget - HEARTBEAT, budget - HEARTBEAT, n - 1);
    }
  }

  /** A process that is interrupted `ran` seconds after its start, before its watchdog expired, has had
    * one tick for each full heartbeat and the next one is still to come. */
  lemma InterruptedState(start: int, budget: nat, saved: nat, ran: nat)
    requires ran < budget
    ensures var w := Arm(start, budget, saved); var n := ran / HEARTBEAT;
            && IsRun(w, Ticks(n)) && HEARTBEAT * n <= ran
            && After(w, Ticks(n)).timer.Some? && start + ran < After(w, Ticks(n)).timer.value.due
            && After(w, Ticks(n)).saved == if n == 0 then saved else budget - HEARTBEAT * n
  {
    TicksCountDown(start, budget, saved, ran / HEARTBEAT);
  }

  /** The task's section of the config file. */
  datatype Section = Section(saved: nat, reboots: nat)

  /** One execution of the task that is interrupted `ran` seconds after it began, and the section it
    * leaves; TASK_RUN writes the reboot count it was started with plus one. */
  function Interrupted(maxTime: nat, s: Section, ran: nat): (t: Section)
    requires ran < Restored(maxTime, s.saved)
    ensures t.reboots == s.reboots + 1
    ensures Restored(maxTime, t.saved) == Restored(maxTime, s.saved) - HEARTBEAT * (ran / HEARTBEAT) > 0
  {
    var w := Arm(0, Restored(maxTime, s.saved), s.saved);
    InterruptedState(0, Restored(maxTime, s.saved), s.saved, ran);
    Section(After(w, Ticks(ran / HEARTBEAT)).saved, s.reboots + 1)
  }

  /** Executions interrupted after the given times, each before its watchdog would have expired. */
  predicate IsHistory(maxTime: nat, s: Section, ran: seq<nat>)
    decreases |ran|
  {
    ran == [] ||
    (ran[0] < Restored(maxTime, s.saved) && IsHistory(maxTime, Interrupted(maxTime, s, ran[0]), ran[1..]))
  }

  function Leaves(maxTime: nat, s: Section, ran: seq<nat>): Section
    requires IsHistory(maxTime, s, ran)
    decreases |ran|
  {
    if ran == [] then s else Leaves(maxTime, Interrupted(maxTime, s, ran[0]), ran[1..])
  }

  /** The seconds of each execution that no heartbeat has accounted for. */
  function Unaccounted(ran: seq<nat>): nat {
    if ran == [] then 0 else ran[0] % HEARTBEAT + Unaccounted(ran[1..])
  }

  /** However often a task is interrupted, its restored budget is never 0; what it has run and what it may
    * still run add up to its budget and the unaccounted remainders, less than a heartbeat for each
    * interruption; and its next execution sees as many reboots as there were interruptions. */
  lemma {:induction false} BudgetSurvivesRestarts(maxTime: nat, s: Section, ran: seq<nat>)
    requires 0 < Restored(maxTime, s.saved) && IsHistory(maxTime, s, ran)
    ensures var t := Leaves(maxTime, s, ran);
            && 0 < Restored(maxTime, t.saved)
            && Sum(ran) + Restored(maxTime, t.saved) == Restored(maxTime, s.saved) + Unaccounted(ran)
            && Unaccounted(ran) <= (HEARTBEAT - 1) * |ran|
            && t.reboots == s.reboots + |ran|
    decreases |ran|
  {
    if ran != [] {
      BudgetSurvivesRestarts(maxTime, Interrupted(maxTime, s, ran[0]), ran[1..]);
    }
  }

  /** The total a task can run: its last execution may go on until its watchdog kills it. */
  lemma TotalRunningTime(maxTime: nat, ran: seq<nat>, last: nat)
    requires 0 < maxTime && IsHistory(maxTime, Section(0, 0), ran) && ran != []
    requires last <= Restored(maxTime, Leaves(maxTime, Section(0, 0), ran).saved)
    ensures Sum(ran) + last <= maxTime + Unaccounted(ran) < maxTime + HEARTBEAT * |ran|
    ensures Leaves(maxTime, Section(0, 0), ran).reboots == |ran|
  {
    BudgetSurvivesRestarts(maxTime, Section(0, 0), ran);
  }
}

/** The two countdowns on the timers of their machines. */
module WatchdogTimers {
  import opened Common
  import W = WatchdogModel
  import P = ProcessModel
  import opened WatchdogTheorems

  /** The periods of the first timers that fire on a live process without a user callback. */
  function ProcessPeriods(p: P.Process, fuel: nat): seq<nat>
    decreases fuel
  {
    if p.timer.None? || fuel == 0 then []
    else [p.timer.value] + ProcessPeriods(P.OnTimeout(p, None, true), fuel - 1)
  }

  lemma {:induction false} ProcessTimers(p: P.Process, fuel: nat)
    requires p.pid.Live? && p.timer == if p.maxTime == 0 then None else Some(Min(p.maxTime, HEARTBEAT))
    ensures ProcessPeriods(p, fuel) == Intervals(ProcessCountdown, p.maxTime, fuel)
    decreases fuel
  {
    if p.maxTime > 0 && fuel > 0 {
      var q := P.OnTimeout(p, None, true);
      assert q.pid.Live? && ProcessCountdown(p.maxTime) == P.TimeLeft(p, None);
      if P.TimeLeft(p, None) > 0 {
        ProcessTimers(q, fuel - 1);
      } else {
        assert ProcessPeriods(q, fuel - 1) == [] && Intervals(ProcessCountdown, 0, fuel - 1) == [];
      }
    }
  }

  /** A process that process.c counts down by itself and one that task.c counts down arm the same timers, and
    * these add up to the budget. */
  lemma SameTimers(q: P.Request, start: int, saved: nat)
    requires q.forkOk
    ensures Valid(W.Arm(start, q.maxTime, saved))
    ensures ProcessPeriods(P.Run(q), q.maxTime) == TimerPeriods(W.Arm(start, q.maxTime, saved))
    ensures Sum(TimerPeriods(W.Arm(start, q.maxTime, saved))) == q.maxTime
  {
    ProcessTimers(P.Run(q), q.maxTime);
    TaskTimers(start, q.maxTime, saved, q.maxTime);
    CountdownsAgree(q.maxTime, q.maxTime);
  }
}

/** The watchdog fields of ProcessData and Task, and the callbacks that update them. */
module Watchdog {
  import opened Common
  import M = WatchdogModel

  class TaskWatchdog {
    var maxTime: nat
    var remainingTime: nat
    var timeChged: Option<int>
    var timer: Option<M.Timer>
    var saved: nat
    var killedAt: Option<int>

    ghost function View(): M.Watchdog
      reads this
    {
      M.Watchdog(remainingTime, timeChged, timer, saved, killedAt)
    }

    /** task_run, and the part of process_run that adds the first timer. */
    constructor (start: int, budget: nat, saved: nat)
      ensures View() == M.Arm(start, budget, saved) && maxTime == budget
    {
      maxTime, remainingTime, timeChged := budget, budget, None;
      this.saved, killedAt, timer := saved, None, None;
      var timeout := if budget < HEARTBEAT then budget else HEARTBEAT;
      if budget != 0 {
        timer := Some(M.Timer(start + timeout, timeout));
      }
    }

    /** The watchdog branch of server_recipe_callback; it ignores tasks without a local watchdog. */
    method AdjustWatchdog(at: int, seconds: nat, noLocalWatchdog: bool)
      modifies this`remainingTime, this`timeChged
      ensures View() == if noLocalWatchdog then old(View()) else M.OnAdjust(old(View()), at, seconds)
    {
      if !noLocalWatchdog {
        remainingTime := seconds;
        timeChged := Some(at);
      }
    }

    /** task_heartbeat_callback */
    method HeartbeatCallback(now: int)
      modifies this`remainingTime, this`timeChged, this`saved
      ensures remainingTime == M.Heartbeat(old(View()), now) && timeChged == None && saved == remainingTime
    {
      if timeChged.Some? {
        if remainingTime != 0 {
          var delta := now - timeChged.value;
          if delta < remainingTime {
            remainingTime := remainingTime - delta;
          } else {
            remainingTime := 0;
          }
        }
        timeChged := None;
      } else if remainingTime > HEARTBEAT {
        remainingTime := remainingTime - HEARTBEAT;
      } else {
        remainingTime := 0;
      }
      saved := remainingTime;
    }

    /** process_timeout_callback with task_timeout_cb, while the process is alive and the kill succeeds. */
    method TimeoutCallback()
      requires timer.Some?
      modifies this
      ensures View() == M.OnTick(old(View())) && maxTime == remainingTime
    {
      var t := timer.value;
      HeartbeatCallback(t.due);
      maxTime := remainingTime;
      if maxTime > 0 {
        if maxTime < HEARTBEAT {
          timer := Some(M.Timer(t.due + maxTime, maxTime));
        } else {
          timer := Some(M.Timer(t.due + t.period, t.period));
        }
      } else {
        killedAt := Some(t.due);
        timer := None;
      }
    }
  }
}
