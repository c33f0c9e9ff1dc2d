/** The queue of HTTP messages in src/message.c: one message in flight at a time, retried with a growing delay
  * until the server answers it. */
module MessageQueueModel {
  const MIN_DELAY := 2
  const MAX_DELAY := 625

  datatype Message = Message(id: nat, hasCallback: bool)

  /** `idle` and `timers` are the main-loop sources that will call message_handler, the timers with their
    * delays, and `inFlight` the messages handed to libsoup.  The rest is history: the messages queued and
    * acknowledged so far, the callbacks run, the positions in `enqueued` of the messages sent, and the
    * failures since the last acknowledgement. */
  datatype State = State(
    queue: seq<Message>,
    active: bool,
    delay: nat,
    idle: nat,
    timers: seq<nat>,
    inFlight: seq<Message>,
    enqueued: seq<Message>,
    acked: seq<Message>,
    calls: seq<Message>,
    sends: seq<nat>,
    failures: nat)

  /** `more` are the messages that the callback of an acknowledged message queues. */
  datatype Event =
    | Enqueue(m: Message)
    | IdleHandler
    | TimerHandler
    | Answer(status: nat, more: seq<Message>)

  function Initial(): State {
    State([], false, MIN_DELAY, 0, [], [], [], [], [], [], 0)
  }

  /** SOUP_STATUS_IS_SUCCESSFUL or SOUP_STATUS_IS_CLIENT_ERROR: trying again would change nothing. */
  predicate Acknowledges(status: nat) {
    200 <= status < 300 || 400 <= status < 500
  }

  /** (gint) (delay * 1.5), at most MAX_DELAY */
  function Backoff(delay: nat): nat {
    var longer := delay * 3 / 2;
    if longer > MAX_DELAY then MAX_DELAY else longer
  }

  /** restraint_queue_message */
  function OnEnqueue(s: State, m: Message): State {
    var t := s.(queue := s.queue + [m], enqueued := s.enqueued + [m]);
    if s.active then t else t.(idle := s.idle + 1, active := true)
  }

  function EnqueueAll(s: State, ms: seq<Message>): State
    decreases |ms|
  {
    if ms == [] then s else EnqueueAll(OnEnqueue(s, ms[0]), ms[1..])
  }

  /** message_handler */
  function OnHandler(s: State): State {
    if s.queue == [] then s.(active := false)
    else s.(queue := s.queue[1..], inFlight := s.inFlight + [s.queue[0]], sends := s.sends + [|s.acked|])
  }

  /** message_complete for a message that will not be sent again. */
  function OnAcknowledged(s: State, more: seq<Message>): State
    requires s.inFlight != []
  {
    var m := s.inFlight[0];
    var t := s.(inFlight := s.inFlight[1..], acked := s.acked + [m], failures := 0, delay := MIN_DELAY);
    var t := if m.hasCallback then EnqueueAll(t.(calls := t.calls + [m]), more) else t;
    t.(idle := t.idle + 1)
  }

  /** message_complete for a message that goes back to the head of the queue. */
  function OnFailed(s: State): State
    requires s.inFlight != []
  {
    var delay := Backoff(s.delay);
    s.(inFlight := s.inFlight[1..], queue := [s.inFlight[0]] + s.queue, delay := delay,
       timers := s.timers + [delay], failures := s.failures + 1)
  }

  predicate Enabled(s: State, e: Event) {
    match e
    case Enqueue(_) => true
    case IdleHandler => s.idle > 0
    case TimerHandler => s.timers != []
    case Answer(_, _) => s.inFlight != []
  }

  function Step(s: State, e: Event): State
    requires Enabled(s, e)
  {
    match e
    case Enqueue(m) => OnEnqueue(s, m)
    case IdleHandler => OnHandler(s.(idle := s.idle - 1))
    case TimerHandler => OnHandler(s.(timers := s.timers[1..]))
    case Answer(status, more) => if Acknowledges(status) then OnAcknowledged(s, more) else OnFailed(s)
  }

  predicate IsRun(s: State, run: seq<Event>)
    decreases |run|
  {
    run == [] || (Enabled(s, run[0]) && IsRun(Step(s, run[0]), run[1..]))
  }

  function After(s: State, run: seq<Event>): State
    requires IsRun(s, run)
    decreases |run|
  {
    if run == [] then s else After(Step(s, run[0]), run[1..])
  }
}

module MessageQueueTheorems {
  import opened MessageQueueModel

  /** The number of things that will make the queue go on. */
  function Pumps(s: State): nat {
    s.idle + |s.timers| + |s.inFlight|
  }

  function WithCallback(ms: seq<Message>): seq<Message> {
    if ms == [] then []
    else WithCallback(ms[..|ms| - 1]) + (if ms[|ms| - 1].hasCallback then [ms[|ms| - 1]] else [])
  }

  /** The delay after `n` failures in a row. */
  function DelayAfter(n: nat): nat {
    if n == 0 then MIN_DELAY else Backoff(DelayAfter(n - 1))
  }

  /** Messages are sent in the order of the queue: each one again and again until the next one's turn. */
  predicate InTurn(sends: seq<nat>, next: nat) {
    && (sends == [] ==> next == 0)
    && (sends != [] ==> sends[0] == 0 && (sends[|sends| - 1] == next || sends[|sends| - 1] + 1 == next))
    && (forall i :: 0 < i < |sends| ==> sends[i] == sends[i - 1] || sends[i] == sends[i - 1] + 1)
  }

  predicate Valid(s: State) {
    && s.enqueued == s.acked + s.inFlight + s.queue
    && Pumps(s) == (if s.active then 1 else 0)
    && (!s.active ==> s.queue == [])
    && s.calls == WithCallback(s.acked)
    && s.delay == DelayAfter(s.failures)
    && (s.failures > 0 ==> s.inFlight != [] || s.queue != [])
    && (s.timers != [] ==> s.timers == [s.delay] && s.failures > 0)
    && InTurn(s.sends, |s.acked|)
    && (s.inFlight != [] || s.failures > 0 ==> s.sends != [] && s.sends[|s.sends| - 1] == |s.acked|)
  }

  lemma EnqueueKeepsValid(s: State, m: Message)
    requires Valid(s)
    ensures Valid(OnEnqueue(s, m)) && OnEnqueue(s, m).acked == s.acked
  {
  }

  /** A callback runs while no pump exists but queue_active still says that there is one. */
  predicate InCallback(s: State) {
    s.active && Pumps(s) == 0 && Valid(s.(idle := 1))
  }

  lemma {:induction false} CallbackKeepsValid(s: State, ms: seq<Message>)
    requires InCallback(s)
    ensures InCallback(EnqueueAll(s, ms)) && EnqueueAll(s, ms).acked == s.acked
    decreases |ms|
  {
    if ms != [] {
      EnqueueKeepsValid(s.(idle := 1), ms[0]);
      assert OnEnqueue(s, ms[0]).(idle := 1) == OnEnqueue(s.(idle := 1), ms[0]);
      CallbackKeepsValid(OnEnqueue(s, ms[0]), ms[1..]);
    }
  }

  lemma HandlerKeepsValid(s: State)
    requires s.active && Pumps(s) == 0 && (Valid(s.(idle := 1)) || Valid(s.(timers := [s.delay])))
    ensures Valid(OnHandler(s)) && OnHandler(s).acked == s.acked
  {
  }

  /** The state in which the callback of an acknowledged message runs. */
  function Acknowledged(s: State): State
    requires s.inFlight != []
  {
    var m := s.inFlight[0];
    s.(inFlight := s.inFlight[1..], acked := s.acked + [m], failures := 0, delay := MIN_DELAY,
       calls := if m.hasCallback then s.calls + [m] else s.calls)
  }

  lemma AcknowledgedIsInCallback(s: State)
    requires Valid(s) && s.inFlight != []
    ensures InCallback(Acknowledged(s))
  {
    var t := Acknowledged(s);
    assert s.inFlight == [s.inFlight[0]];
    assert t.acked[..|t.acked| - 1] == s.acked;
    assert t.acked + t.inFlight + t.queue == s.acked + s.inFlight + s.queue;
  }

  lemma AcknowledgementKeepsValid(s: State, more: seq<Message>)
    requires Valid(s) && s.inFlight != []
    ensures Valid(OnAcknowledged(s, more)) && OnAcknowledged(s, more).acked == s.acked + [s.inFlight[0]]
  {
    AcknowledgedIsInCallback(s);
    CallbackKeepsValid(Acknowledged(s), more);
    hide Valid, EnqueueAll;
  }

  lemma FailureKeepsValid(s: State)
    requires Valid(s) && s.inFlight != []
    ensures Valid(OnFailed(s)) && OnFailed(s).acked == s.acked
  {
    assert s.inFlight == [s.inFlight[0]];
  }

  lemma StepKeepsValid(s: State, e: Event)
    requires Valid(s) && Enabled(s, e)
    ensures Valid(Step(s, e)) && s.acked <= Step(s, e).acked
  {
    match e
    case Enqueue(m) => EnqueueKeepsValid(s, m);
    case IdleHandler =>
      assert s.(idle := s.idle - 1).(idle := 1) == s;
      HandlerKeepsValid(s.(idle := s.idle - 1));
    case TimerHandler =>
      assert s.(timers := []).(timers := [s.delay]) == s;
      HandlerKeepsValid(s.(timers := []));
    case Answer(status, more) =>
      if Acknowledges(status) {
        AcknowledgementKeepsValid(s, more);
      } else {
        FailureKeepsValid(s);
      }
  }

  lemma {:induction false} RunKeepsValid(s: State, run: seq<Event>)
    requires Valid(s) && IsRun(s, run)
    ensures Valid(After(s, run)) && s.acked <= After(s, run).acked
    decreases |run|
  {
    hide Valid, Step;
    if run != [] {
      StepKeepsValid(s, run[0]);
      RunKeepsValid(Step(s, run[0]), run[1..]);
    }
  }

  /** In every reachable state the queued messages are those acknowledged, then the one in flight, then the
    * ones waiting; queue_active says whether there is a pump, and there is never more than one; the
    * callbacks run are those of the acknowledged messages, once each and in order. */
  lemma QueueConserves(run: seq<Event>)
    requires IsRun(Initial(), run)
    ensures var s := After(Initial(), run);
            && s.enqueued == s.acked + s.inFlight + s.queue
            && |s.inFlight| <= 1 && Pumps(s) == (if s.active then 1 else 0)
            && s.calls == WithCallback(s.acked)
            && InTurn(s.sends, |s.acked|)
  {
    RunKeepsValid(Initial(), run);
  }

  /** The queue stops only when it is empty: while a message waits there is a pump. */
  lemma QueueDrains(run: seq<Event>)
    requires IsRun(Initial(), run)
    requires var s := After(Initial(), run);
             forall e :: Enabled(s, e) ==> e.Enqueue?
    ensures After(Initial(), run).acked == After(Initial(), run).enqueued
  {
    RunKeepsValid(Initial(), run);
    var s := After(Initial(), run);
    var answer := Answer(0, []);
    assert Enabled(s, IdleHandler) ==> IdleHandler.Enqueue?;
    assert Enabled(s, TimerHandler) ==> TimerHandler.Enqueue?;
    assert Enabled(s, answer) ==> answer.Enqueue?;
    assert s.acked + s.inFlight + s.queue == s.acked;
  }

  // ---- which answers end a message ------------------------------------------------------------------------

  /** The messages whose answer in the run has a status of the 2xx or the 4xx class, in order. */
  function Delivered(s: State, run: seq<Event>): seq<Message>
    requires IsRun(s, run)
    decreases |run|
  {
    if run == [] then []
    else
      (match run[0]
       case Answer(status, _) => if 200 <= status <= 299 || 400 <= status <= 499 then [s.inFlight[0]] else []
       case _ => []) + Delivered(Step(s, run[0]), run[1..])
  }

  lemma AnswerDelivers(s: State, e: Event)
    requires Valid(s) && Enabled(s, e)
    ensures Step(s, e).acked == s.acked + Delivered(s, [e])
  {
    assert [e][1..] == [] && Delivered(Step(s, e), []) == [];
    match e
    case Enqueue(m) => EnqueueKeepsValid(s, m);
    case IdleHandler =>
    case TimerHandler =>
    case Answer(status, more) =>
      hide Valid, OnAcknowledged;
      if 200 <= status <= 299 || 400 <= status <= 499 {
        AcknowledgementKeepsValid(s, more);
      }
  }

  lemma {:induction false} RunDelivers(s: State, run: seq<Event>)
    requires Valid(s) && IsRun(s, run)
    ensures After(s, run).acked == s.acked + Delivered(s, run)
    decreases |run|
  {
    hide Valid, Step, Enabled;
    if run != [] {
      AnswerDelivers(s, run[0]);
      StepKeepsValid(s, run[0]);
      RunDelivers(Step(s, run[0]), run[1..]);
      assert [run[0]][1..] == [] && Delivered(s, [run[0]]) + [] == Delivered(s, [run[0]]);
    }
  }

  /** Over any run exactly the messages answered with a status from 200 to 299 or from 400 to 499 are done
    * with, once each and in the order in which they were queued; the others are in flight or waiting. */
  lemma AnsweredMessagesAreDone(run: seq<Event>)
    requires IsRun(Initial(), run)
    ensures var s := After(Initial(), run);
            && s.acked == Delivered(Initial(), run)
            && s.enqueued == Delivered(Initial(), run) + s.inFlight + s.queue
  {
    RunKeepsValid(Initial(), run);
    RunDelivers(Initial(), run);
  }

  /** Any other answer, in any run, leaves its message in front of the queue, in front of all that wait, and
    * arms the timer that sends it again. */
  lemma OtherAnswersRetry(run: seq<Event>, status: nat, more: seq<Message>)
    requires IsRun(Initial(), run) && Enabled(After(Initial(), run), Answer(status, more))
    requires status < 200 || 300 <= status < 400 || 500 <= status
    ensures var s := After(Initial(), run); var t := Step(s, Answer(status, more));
            && t.queue == s.inFlight + s.queue && t.inFlight == [] && t.acked == s.acked && t.active
            && |t.timers| == 1 && Enabled(t, TimerHandler)
            && Step(t, TimerHandler).inFlight == s.inFlight && Step(t, TimerHandler).queue == s.queue
  {
    hide Valid, IsRun, After, Step, Enabled;
    InitialIsValid();
    RunKeepsValid(Initial(), run);
    OtherAnswerRetries(After(Initial(), run), status, more);
  }

  lemma InitialIsValid()
    ensures Valid(Initial())
  {
  }

  lemma OtherAnswerRetries(s: State, status: nat, more: seq<Message>)
    requires Valid(s) && Enabled(s, Answer(status, more)) && (status < 200 || 300 <= status < 400 || 500 <= status)
    ensures var t := Step(s, Answer(status, more));
            && t.queue == s.inFlight + s.queue && t.inFlight == [] && t.acked == s.acked && t.active
            && |t.timers| == 1 && Enabled(t, TimerHandler)
            && Step(t, TimerHandler).inFlight == s.inFlight && Step(t, TimerHandler).queue == s.queue
  {
    hide DelayAfter, WithCallback, InTurn, Backoff;
    assert s.inFlight == [s.inFlight[0]];
  }

  /** A message can be queued at any time, and comes behind all that wait. */
  lemma QueueTakesMessages(run: seq<Event>, m: Message)
    requires IsRun(Initial(), run)
    ensures var s := After(Initial(), run);
            && Enabled(s, Enqueue(m))
            && var t := Step(s, Enqueue(m));
               t.queue == s.queue + [m] && t.enqueued == s.enqueued + [m] && t.acked == s.acked && Pumps(t) == 1
  {
    RunKeepsValid(Initial(), run);
    EnqueueKeepsValid(After(Initial(), run), m);
  }

  // ---- how much is left to do ---------------------------------------------------------------------------

  /** Every step but an enqueueing one and a failed send brings the queue nearer to being drained. */
  function Work(s: State): nat {
    4 * |s.queue| + 3 * |s.inFlight| + s.idle + |s.timers| + (if s.active then 1 else 0)
  }

  lemma StepsUseWork(s: State, e: Event)
    requires Valid(s) && Enabled(s, e) && !e.Enqueue?
    requires e.Answer? ==> (200 <= e.status <= 299 || 400 <= e.status <= 499) && e.more == []
    ensures Work(Step(s, e)) < Work(s)
  {
  }

  // ---- the delay ----------------------------------------------------------------------------------------

  /** The delay stays within its bounds, grows with every failure until it is capped, and is the one that
    * the retry timer is armed with. */
  lemma {:induction false} DelayGrows(n: nat)
    ensures MIN_DELAY <= DelayAfter(n) <= MAX_DELAY
    ensures DelayAfter(n) < DelayAfter(n + 1) || DelayAfter(n) == DelayAfter(n + 1) == MAX_DELAY
    decreases n
  {
    if n > 0 {
      DelayGrows(n - 1);
    }
  }

  lemma FirstDelays()
    ensures DelayAfter(7) == 28 && DelayAfter(14) == 474
  {
    assert DelayAfter(1) == 3 && DelayAfter(2) == 4 && DelayAfter(3) == 6;
    assert DelayAfter(4) == 9 && DelayAfter(5) == 13 && DelayAfter(6) == 19;
    assert DelayAfter(8) == 42 && DelayAfter(9) == 63 && DelayAfter(10) == 94;
    assert DelayAfter(11) == 141 && DelayAfter(12) == 211 && DelayAfter(13) == 316;
  }

  lemma {:induction false} DelaysStayOrdered(n: nat, m: nat)
    requires n <= m
    ensures DelayAfter(n) <= DelayAfter(m)
    decreases m - n
  {
    if n < m {
      DelayGrows(m - 1);
      DelaysStayOrdered(n, m - 1);
    }
  }

  /** The delay is capped from the fifteenth failure in a row on, and from then on it is longer than the
    * ten minutes that the comment beside the cap speaks of. */
  lemma CappedFromTheFifteenth(n: nat)
    ensures DelayAfter(n) == 625 <==> n >= 15
    ensures DelayAfter(n) > 600 <==> n >= 15
  {
    FirstDelays();
    assert DelayAfter(15) == MAX_DELAY;
    if n >= 15 {
      DelaysStayOrdered(15, n);
      DelayGrows(n);
    } else {
      DelaysStayOrdered(n, 14);
    }
  }

  /** In every run the retry timer is armed with the delay that the failures since the last
    * acknowledgement call for. */
  lemma RetriesWaitLongEnough(run: seq<Event>)
    requires IsRun(Initial(), run)
    ensures var s := After(Initial(), run);
            && s.delay == DelayAfter(s.failures) && MIN_DELAY <= s.delay <= MAX_DELAY
            && (s.timers == [] || s.timers == [s.delay])
            && (s.inFlight == [] && s.queue == [] ==> s.delay == MIN_DELAY)
  {
    RunKeepsValid(Initial(), run);
    DelayGrows(After(Initial(), run).failures);
  }
}

/** The queue and the functions that change it. */
module MessageQueue {
  import M = MessageQueueModel
  import Theorems = MessageQueueTheorems

  class Queue {
    var messageQueue: seq<M.Message>
    var queueActive: bool
    var delay: nat
    var idle: nat
    var timers: seq<nat>
    var inFlight: seq<M.Message>
    ghost var enqueued: seq<M.Message>
    ghost var acked: seq<M.Message>
    ghost var calls: seq<M.Message>
    ghost var sends: seq<nat>
    ghost var failures: nat

    ghost function View(): M.State
      reads this
    {
      M.State(messageQueue, queueActive, delay, idle, timers, inFlight, enqueued, acked, calls, sends, failures)
    }

    constructor ()
      ensures View() == M.Initial() && Theorems.Valid(View())
    {
      messageQueue, queueActive, delay, idle, timers, inFlight := [], false, M.MIN_DELAY, 0, [], [];
      enqueued, acked, calls, sends, failures := [], [], [], [], 0;
    }

    /** restraint_queue_message */
    method QueueMessage(m: M.Message)
      modifies this
      ensures View() == old(M.OnEnqueue(View(), m))
    {
      messageQueue := messageQueue + [m];
      enqueued := enqueued + [m];
      if !queueActive {
        idle := idle + 1;
        queueActive := true;
      }
    }

    /** message_handler, called by an idle source or by the retry timer. */
    method MessageHandler(byTimer: bool)
      requires if byTimer then timers != [] else idle > 0
      modifies this
      ensures View() == old(M.OnHandler(if byTimer then View().(timers := timers[1..])
                                        else View().(idle := idle - 1)))
    {
      if byTimer {
        timers := timers[1..];
      } else {
        idle := idle - 1;
      }
      if messageQueue == [] {
        queueActive := false;
      } else {
        inFlight := inFlight + [messageQueue[0]];
        messageQueue := messageQueue[1..];
        sends := sends + [|acked|];
      }
    }

    /** message_complete; `more` is what the message's callback queues. */
    method MessageComplete(status: nat, more: seq<M.Message>)
      requires inFlight != []
      modifies this
      ensures View() == old(if M.Acknowledges(status) then M.OnAcknowledged(View(), more) else M.OnFailed(View()))
    {
      hide M.OnAcknowledged, M.OnFailed;
      if M.Acknowledges(status) {
        Finish(more);
      } else {
        Retry();
      }
    }

    /** The message is done with: its callback runs and the queue goes on. */
    method Finish(more: seq<M.Message>)
      requires inFlight != []
      modifies this
      ensures View() == old(M.OnAcknowledged(View(), more))
    {
      hide M.EnqueueAll;
      var m := inFlight[0];
      inFlight := inFlight[1..];
      delay := M.MIN_DELAY;
      acked := acked + [m];
      failures := 0;
      if m.hasCallback {
        calls := calls + [m];
        Callback(more);
      }
      idle := idle + 1;
    }

    /** The message goes back to the head of the queue until the delay is over. */
    method Retry()
      requires inFlight != []
      modifies this
      ensures View() == old(M.OnFailed(View()))
    {
      delay := delay * 3 / 2;
      if delay > M.MAX_DELAY {
        delay := M.MAX_DELAY;
      }
      messageQueue := [inFlight[0]] + messageQueue;
      inFlight := inFlight[1..];
      timers := timers + [delay];
      failures := failures + 1;
    }

    /** A finish callback that queues further messages. */
    method Callback(more: seq<M.Message>)
      modifies this
      ensures View() == old(M.EnqueueAll(View(), more))
    {
      ghost var before := View();
      var left := more;
      while left != []
        invariant M.EnqueueAll(View(), left) == M.EnqueueAll(before, more)
        decreases |left|
      {
        QueueMessage(left[0]);
        left := left[1..];
      }
    }

    /** The main loop and the callers: every event keeps the queue valid. */
    method Dispatch(e: M.Event)
      requires Theorems.Valid(View()) && M.Enabled(View(), e)
      modifies this
      ensures View() == old(M.Step(View(), e)) && Theorems.Valid(View())
    {
      Theorems.StepKeepsValid(View(), e);
      hide Theorems.Valid, M.OnEnqueue, M.OnHandler, M.OnAcknowledged, M.OnFailed;
      match e {
        case Enqueue(m) => QueueMessage(m);
        case IdleHandler => MessageHandler(false);
        case TimerHandler => MessageHandler(true);
        case Answer(status, more) => MessageComplete(status, more);
      }
    }
  }
}
