/** The rstrnt-sync server of src/cmd_sync.c: events that have been set, and connections that block until
  * theirs is.  A message is taken to come in whole. */
module SyncServerModel {
  /** struct wentry */
  datatype Waiter = Waiter(event: string, sock: nat)

  /** What has happened to an accepted block connection; `received` is whether its message could be read. */
  datatype Connection = Connection(event: string, received: bool, answers: nat, closed: nat)

  /** Connections are numbered in the order in which they are accepted. */
  datatype Server = Server(events: set<string>, wlist: seq<Waiter>, connections: seq<Connection>)

  /** `alive` tells which sockets a PING can still be sent on. */
  datatype Event =
    | Block(event: string, received: bool, alive: nat -> bool)
    | Set(event: string, received: bool)

  const START := Server({}, [], [])

  function Matching(wlist: seq<Waiter>, event: string): seq<Waiter> {
    if wlist == [] then []
    else (if wlist[0].event == event then [wlist[0]] else []) + Matching(wlist[1..], event)
  }

  function Dead(wlist: seq<Waiter>, alive: nat -> bool): seq<Waiter> {
    if wlist == [] then []
    else (if alive(wlist[0].sock) then [] else [wlist[0]]) + Dead(wlist[1..], alive)
  }

  /** The list without the entries in `gone`. */
  function Without(wlist: seq<Waiter>, gone: seq<Waiter>): seq<Waiter> {
    if wlist == [] then []
    else (if wlist[0] in gone then [] else [wlist[0]]) + Without(wlist[1..], gone)
  }

  predicate HasSock(ws: seq<Waiter>, sock: nat) {
    exists i :: 0 <= i < |ws| && ws[i].sock == sock
  }

  function Answer(cs: seq<Connection>, ws: seq<Waiter>): seq<Connection> {
    seq(|cs|, i requires 0 <= i < |cs| =>
      if HasSock(ws, i) then cs[i].(answers := cs[i].answers + 1) else cs[i])
  }

  function Close(cs: seq<Connection>, ws: seq<Waiter>): seq<Connection> {
    seq(|cs|, i requires 0 <= i < |cs| =>
      if HasSock(ws, i) then cs[i].(closed := cs[i].closed + 1) else cs[i])
  }

  /** handle_rconn */
  function OnBlock(s: Server, event: string, received: bool, alive: nat -> bool): Server {
    if !received then s.(connections := s.connections + [Connection(event, false, 0, 1)])
    else
      var dead := Dead(s.wlist, alive);
      var wlist, cs := Without(s.wlist, dead), Close(s.connections, dead);
      if event in s.events then Server(s.events, wlist, cs + [Connection(event, true, 1, 1)])
      else Server(s.events, [Waiter(event, |cs|)] + wlist, cs + [Connection(event, true, 0, 0)])
  }

  /** handle_lconn */
  function OnSet(s: Server, event: string, received: bool): Server {
    if !received then s
    else
      var ws := Matching(s.wlist, event);
      Server(s.events + {event}, Without(s.wlist, ws), Close(Answer(s.connections, ws), ws))
  }

  function Step(s: Server, e: Event): Server {
    match e
    case Block(event, received, alive) => OnBlock(s, event, received, alive)
    case Set(event, received) => OnSet(s, event, received)
  }

  function After(s: Server, run: seq<Event>): Server
    decreases |run|
  {
    if run == [] then s else After(Step(s, run[0]), run[1..])
  }
}

module SyncServerTheorems {
  import opened SyncServerModel

  lemma {:induction false} MatchingHas(wlist: seq<Waiter>, event: string, w: Waiter)
    ensures w in Matching(wlist, event) <==> w in wlist && w.event == event
    decreases |wlist|
  {
    if wlist != [] {
      MatchingHas(wlist[1..], event, w);
      assert wlist == [wlist[0]] + wlist[1..];
    }
  }

  lemma {:induction false} DeadHas(wlist: seq<Waiter>, alive: nat -> bool, w: Waiter)
    ensures w in Dead(wlist, alive) <==> w in wlist && !alive(w.sock)
    decreases |wlist|
  {
    if wlist != [] {
      DeadHas(wlist[1..], alive, w);
      assert wlist == [wlist[0]] + wlist[1..];
    }
  }

  lemma {:induction false} WithoutHas(wlist: seq<Waiter>, gone: seq<Waiter>, w: Waiter)
    ensures w in Without(wlist, gone) <==> w in wlist && w !in gone
    decreases |wlist|
  {
    if wlist != [] {
      WithoutHas(wlist[1..], gone, w);
      assert wlist == [wlist[0]] + wlist[1..];
    }
  }

  predicate Distinct(wlist: seq<Waiter>) {
    forall i, j :: 0 <= i < j < |wlist| ==> wlist[i].sock != wlist[j].sock
  }

  lemma {:induction false} WithoutDistinct(wlist: seq<Waiter>, gone: seq<Waiter>)
    requires Distinct(wlist)
    ensures Distinct(Without(wlist, gone))
    decreases |wlist|
  {
    if wlist != [] {
      WithoutDistinct(wlist[1..], gone);
      var rest := Without(wlist[1..], gone);
      forall i | 0 <= i < |rest| ensures rest[i].sock != wlist[0].sock {
        WithoutHas(wlist[1..], gone, rest[i]);
      }
    }
  }

  /** A connection still waits, has been answered with its event and closed, was dropped unanswered, or never
    * got its message across. */
  datatype Fate = Waiting | Answered | Dropped | Unread

  function FateOf(s: Server, c: nat): Fate
    requires c < |s.connections|
  {
    if HasSock(s.wlist, c) then Waiting
    else if !s.connections[c].received then Unread
    else if s.connections[c].answers > 0 then Answered
    else Dropped
  }

  /** A connection has been answered at most once, only with an event that is set, and closed exactly once
    * unless it waits; one that waits does so for its own event, which is not set. */
  predicate ConnectionOk(s: Server, c: nat)
    requires c < |s.connections|
  {
    var k := s.connections[c];
    match FateOf(s, c)
    case Waiting => k.received && k.answers == 0 && k.closed == 0 && k.event !in s.events
    case Answered => k.answers == 1 && k.closed == 1 && k.event in s.events
    case Dropped => k.closed == 1
    case Unread => k.answers == 0 && k.closed == 1
  }

  predicate Valid(s: Server) {
    && Distinct(s.wlist)
    && (forall w :: w in s.wlist ==> w.sock < |s.connections| && w.event == s.connections[w.sock].event)
    && (forall c :: 0 <= c < |s.connections| ==> ConnectionOk(s, c))
  }

  lemma SockOf(ws: seq<Waiter>, w: Waiter)
    requires w in ws
    ensures HasSock(ws, w.sock)
  {
    var i :| 0 <= i < |ws| && ws[i] == w;
  }

  lemma WaiterOf(ws: seq<Waiter>, sock: nat) returns (w: Waiter)
    requires HasSock(ws, sock)
    ensures w in ws && w.sock == sock
  {
    var i :| 0 <= i < |ws| && ws[i].sock == sock;
    w := ws[i];
  }

  lemma SameSock(wlist: seq<Waiter>, v: Waiter, w: Waiter)
    requires Distinct(wlist) && v in wlist && w in wlist && v.sock == w.sock
    ensures v == w
  {
    var i :| 0 <= i < |wlist| && wlist[i] == v;
    var j :| 0 <= j < |wlist| && wlist[j] == w;
  }

  /** Taking entries off the list takes exactly their sockets off it. */
  lemma SocksLeft(wlist: seq<Waiter>, gone: seq<Waiter>, sock: nat)
    requires Distinct(wlist) && forall w :: w in gone ==> w in wlist
    ensures HasSock(Without(wlist, gone), sock) <==> HasSock(wlist, sock) && !HasSock(gone, sock)
  {
    if HasSock(Without(wlist, gone), sock) {
      var w := WaiterOf(Without(wlist, gone), sock);
      WithoutHas(wlist, gone, w);
      SockOf(wlist, w);
      if HasSock(gone, sock) {
        var v := WaiterOf(gone, sock);
        SameSock(wlist, v, w);
      }
    }
    if HasSock(wlist, sock) && !HasSock(gone, sock) {
      var w := WaiterOf(wlist, sock);
      if w in gone {
        SockOf(gone, w);
      }
      WithoutHas(wlist, gone, w);
      SockOf(Without(wlist, gone), w);
    }
  }

  lemma SomeGone(wlist: seq<Waiter>, gone: seq<Waiter>, sock: nat)
    requires HasSock(gone, sock) && forall w :: w in gone ==> w in wlist
    ensures HasSock(wlist, sock)
  {
    var w := WaiterOf(gone, sock);
    SockOf(wlist, w);
  }

  // ---- block -------------------------------------------------------------------------------------------

  /** The dead waiters are dropped, and nothing else changes. */
  lemma DroppingKeepsValid(s: Server, alive: nat -> bool)
    requires Valid(s)
    ensures var dead := Dead(s.wlist, alive);
            Valid(Server(s.events, Without(s.wlist, dead), Close(s.connections, dead)))
  {
    hide Dead, Without, HasSock;
    var dead := Dead(s.wlist, alive);
    var t := Server(s.events, Without(s.wlist, dead), Close(s.connections, dead));
    WithoutDistinct(s.wlist, dead);
    forall w ensures w in dead ==> w in s.wlist {
      DeadHas(s.wlist, alive, w);
    }
    forall w | w in t.wlist ensures w.sock < |t.connections| && w.event == t.connections[w.sock].event {
      WithoutHas(s.wlist, dead, w);
    }
    forall c | 0 <= c < |t.connections| ensures ConnectionOk(t, c) {
      assert ConnectionOk(s, c);
      SocksLeft(s.wlist, dead, c);
      if HasSock(dead, c) {
        SomeGone(s.wlist, dead, c);
      }
    }
  }

  lemma AcceptedKeepsValid(s: Server, k: Connection, wlist: seq<Waiter>)
    requires Valid(s)
    requires || (wlist == s.wlist && !k.received && k.answers == 0 && k.closed == 1)
             || (wlist == s.wlist && k.received && k.answers == 1 && k.closed == 1 && k.event in s.events)
             || (wlist == [Waiter(k.event, |s.connections|)] + s.wlist && k.received && k.answers == 0
                 && k.closed == 0 && k.event !in s.events)
    ensures Valid(Server(s.events, wlist, s.connections + [k]))
  {
    var t := Server(s.events, wlist, s.connections + [k]);
    forall i, j | 0 <= i < j < |wlist| ensures wlist[i].sock != wlist[j].sock {
      if wlist != s.wlist && i == 0 {
        assert wlist[j] in s.wlist;
      }
    }
    forall w | w in wlist ensures w.sock < |t.connections| && w.event == t.connections[w.sock].event {
      assert wlist != s.wlist ==> w == wlist[0] || w in s.wlist;
    }
    hide Distinct;
    forall c | 0 <= c < |t.connections| ensures ConnectionOk(t, c) {
      SockOfAccepted(s, k, wlist, c);
      if c < |s.connections| {
        assert ConnectionOk(s, c);
      }
    }
  }

  lemma SockOfAccepted(s: Server, k: Connection, wlist: seq<Waiter>, c: nat)
    requires Valid(s) && c <= |s.connections|
    requires wlist == s.wlist || wlist == [Waiter(k.event, |s.connections|)] + s.wlist
    ensures c < |s.connections| ==> (HasSock(wlist, c) <==> HasSock(s.wlist, c))
    ensures c == |s.connections| ==> (HasSock(wlist, c) <==> wlist != s.wlist)
  {
    hide ConnectionOk;
    if HasSock(wlist, c) {
      var w := WaiterOf(wlist, c);
      if w in s.wlist {
        SockOf(s.wlist, w);
      } else {
        assert w == wlist[0];
      }
    }
    if wlist != s.wlist {
      if c == |s.connections| {
        assert wlist[0].sock == c;
      } else if HasSock(s.wlist, c) {
        var w := WaiterOf(s.wlist, c);
        assert w in wlist;
        SockOf(wlist, w);
      }
    }
  }

  lemma BlockKeepsValid(s: Server, event: string, received: bool, alive: nat -> bool)
    requires Valid(s)
    ensures Valid(OnBlock(s, event, received, alive))
  {
    hide Valid, Dead, Without, Close;
    if !received {
      AcceptedKeepsValid(s, Connection(event, false, 0, 1), s.wlist);
    } else {
      var dead := Dead(s.wlist, alive);
      var t := Server(s.events, Without(s.wlist, dead), Close(s.connections, dead));
      DroppingKeepsValid(s, alive);
      if event in s.events {
        AcceptedKeepsValid(t, Connection(event, true, 1, 1), t.wlist);
      } else {
        AcceptedKeepsValid(t, Connection(event, true, 0, 0), [Waiter(event, |t.connections|)] + t.wlist);
      }
    }
  }

  // ---- set -----------------------------------------------------------------------------------------------

  lemma MatchingSock(s: Server, event: string, c: nat)
    requires Valid(s) && c < |s.connections|
    ensures HasSock(Matching(s.wlist, event), c) <==> HasSock(s.wlist, c) && s.connections[c].event == event
  {
    hide Matching, ConnectionOk, Distinct;
    if HasSock(Matching(s.wlist, event), c) {
      var w := WaiterOf(Matching(s.wlist, event), c);
      MatchingHas(s.wlist, event, w);
      SockOf(s.wlist, w);
    }
    if HasSock(s.wlist, c) && s.connections[c].event == event {
      var w := WaiterOf(s.wlist, c);
      MatchingHas(s.wlist, event, w);
      SockOf(Matching(s.wlist, event), w);
    }
  }

  /** Setting an event answers and closes exactly the connections that wait for it and leaves all others as
    * they are. */
  lemma SetAnswersItsWaiters(s: Server, event: string, c: nat)
    requires Valid(s) && c < |s.connections|
    ensures var t := OnSet(s, event, true); var k := s.connections[c];
            && |t.connections| == |s.connections| && t.events == s.events + {event}
            && t.connections[c] == (if HasSock(s.wlist, c) && k.event == event
                                    then k.(answers := k.answers + 1, closed := k.closed + 1) else k)
            && (HasSock(t.wlist, c) <==> HasSock(s.wlist, c) && k.event != event)
  {
    MatchingSock(s, event, c);
    hide HasSock, Matching, Without, ConnectionOk;
    var ws := Matching(s.wlist, event);
    forall w ensures w in ws ==> w in s.wlist {
      MatchingHas(s.wlist, event, w);
    }
    SocksLeft(s.wlist, ws, c);
  }

  lemma SetKeepsValid(s: Server, event: string, received: bool)
    requires Valid(s)
    ensures Valid(OnSet(s, event, received))
  {
    if received {
      hide HasSock, Matching, Without, Answer, Close;
      var t := OnSet(s, event, received);
      WithoutDistinct(s.wlist, Matching(s.wlist, event));
      forall w | w in t.wlist ensures w.sock < |t.connections| && w.event == t.connections[w.sock].event {
        WithoutHas(s.wlist, Matching(s.wlist, event), w);
        SetAnswersItsWaiters(s, event, w.sock);
      }
      LengthsStay(s.connections, Matching(s.wlist, event));
      forall c | 0 <= c < |t.connections| ensures ConnectionOk(t, c) {
        assert ConnectionOk(s, c);
        SetAnswersItsWaiters(s, event, c);
      }
    }
  }

  lemma LengthsStay(cs: seq<Connection>, ws: seq<Waiter>)
    ensures |Close(Answer(cs, ws), ws)| == |cs|
  {
  }

  // ---- whole runs ----------------------------------------------------------------------------------------

  lemma StepKeepsValid(s: Server, e: Event)
    requires Valid(s)
    ensures Valid(Step(s, e)) && s.events <= Step(s, e).events
  {
    hide Valid;
    match e
    case Block(event, received, alive) => BlockKeepsValid(s, event, received, alive);
    case Set(event, received) => SetKeepsValid(s, event, received);
  }

  /** In every reachable state no waiter is registered for an event that is set, and every connection has one
    * of the four fates; the set of events only grows. */
  lemma {:induction false} ServerKeepsValid(s: Server, run: seq<Event>)
    requires Valid(s)
    ensures Valid(After(s, run)) && s.events <= After(s, run).events
    decreases |run|
  {
    hide Valid, Step;
    if run != [] {
      StepKeepsValid(s, run[0]);
      ServerKeepsValid(Step(s, run[0]), run[1..]);
    }
  }

  lemma NobodyWaitsForASetEvent(run: seq<Event>)
    ensures var s := After(START, run);
            && (forall w :: w in s.wlist ==> w.event !in s.events)
            && (forall c :: 0 <= c < |s.connections| ==> ConnectionOk(s, c))
  {
    ServerKeepsValid(START, run);
    var s := After(START, run);
    forall w | w in s.wlist ensures w.event !in s.events {
      SockOf(s.wlist, w);
      assert ConnectionOk(s, w.sock);
    }
  }

  /** What becomes of a connection as it is accepted: one whose message cannot be read is closed, one whose event
    * has been set is answered and closed at once, and any other waits, neither answered nor closed. */
  lemma AcceptedConnection(s: Server, event: string, received: bool, alive: nat -> bool)
    requires Valid(s)
    ensures var t := OnBlock(s, event, received, alive); var c := |s.connections|;
            && |t.connections| == c + 1 && t.events == s.events
            && FateOf(t, c) == (if !received then Unread else if event in s.events then Answered else Waiting)
            && t.connections[c] == (if !received then Connection(event, false, 0, 1)
                                    else if event in s.events then Connection(event, true, 1, 1)
                                    else Connection(event, true, 0, 0))
            && (FateOf(t, c) == Waiting ==> Waiter(event, c) in t.wlist)
  {
    hide Dead, ConnectionOk, Distinct;
    var c := |s.connections|;
    var dead := Dead(s.wlist, alive);
    assert !HasSock(s.wlist, c) by {
      if HasSock(s.wlist, c) {
        var w := WaiterOf(s.wlist, c);
      }
    }
    if received && HasSock(Without(s.wlist, dead), c) {
      var w := WaiterOf(Without(s.wlist, dead), c);
      WithoutHas(s.wlist, dead, w);
    }
    if received && event !in s.events {
      var t := OnBlock(s, event, received, alive);
      assert t.wlist[0] == Waiter(event, c);
      SockOf(t.wlist, t.wlist[0]);
    }
  }

  /** The events that messages of the run have set. */
  function SetIn(run: seq<Event>): set<string> {
    if run == [] then {}
    else (if run[0].Set? && run[0].received then {run[0].event} else {}) + SetIn(run[1..])
  }

  /** The server knows exactly the events that have been set, for good. */
  lemma {:induction false} EventsAreThoseSet(s: Server, run: seq<Event>)
    ensures After(s, run).events == s.events + SetIn(run)
    decreases |run|
  {
    hide Step;
    if run != [] {
      EventsAfterStep(s, run[0]);
      EventsAreThoseSet(Step(s, run[0]), run[1..]);
    }
  }

  lemma EventsAfterStep(s: Server, e: Event)
    ensures Step(s, e).events == s.events + (if e.Set? && e.received then {e.event} else {})
  {
    hide Dead, Without, Matching;
  }

  /** An accepted connection keeps the fate it has reached; one that waits leaves the list only when its
    * event is set or when a PING to it fails. */
  lemma FatesAreFinal(s: Server, e: Event, c: nat)
    requires Valid(s) && c < |s.connections|
    ensures c < |Step(s, e).connections|
    ensures FateOf(s, c) != Waiting ==> FateOf(Step(s, e), c) == FateOf(s, c)
    ensures FateOf(s, c) == Waiting ==>
              FateOf(Step(s, e), c) ==
                match e
                case Set(event, received) =>
                  if received && event == s.connections[c].event then Answered else Waiting
                case Block(_, received, alive) =>
                  if received && !alive(c) then Dropped else Waiting
  {
    assert ConnectionOk(s, c);
    hide HasSock, ConnectionOk, OnBlock, OnSet;
    match e
    case Set(event, received) =>
      SetFate(s, event, received, c);
    case Block(event, received, alive) =>
      BlockFate(s, event, received, alive, c);
  }

  lemma SetFate(s: Server, event: string, received: bool, c: nat)
    requires Valid(s) && c < |s.connections|
    ensures var t := OnSet(s, event, received);
            && c < |t.connections|
            && FateOf(t, c) == if FateOf(s, c) == Waiting && received && event == s.connections[c].event then Answered
                               else FateOf(s, c)
  {
    assert ConnectionOk(s, c);
    if received {
      hide HasSock, OnSet;
      SetAnswersItsWaiters(s, event, c);
    }
  }

  lemma DeadSock(s: Server, alive: nat -> bool, c: nat)
    requires Valid(s) && c < |s.connections|
    ensures HasSock(Dead(s.wlist, alive), c) <==> HasSock(s.wlist, c) && !alive(c)
    ensures HasSock(Without(s.wlist, Dead(s.wlist, alive)), c) <==> HasSock(s.wlist, c) && alive(c)
  {
    hide Dead, ConnectionOk, HasSock, Without;
    var dead := Dead(s.wlist, alive);
    forall w ensures w in dead ==> w in s.wlist {
      DeadHas(s.wlist, alive, w);
    }
    SocksLeft(s.wlist, dead, c);
    if HasSock(dead, c) {
      var w := WaiterOf(dead, c);
      DeadHas(s.wlist, alive, w);
      SockOf(s.wlist, w);
    }
    if HasSock(s.wlist, c) && !alive(c) {
      var w := WaiterOf(s.wlist, c);
      DeadHas(s.wlist, alive, w);
      SockOf(dead, w);
    }
  }

  lemma BlockFate(s: Server, event: string, received: bool, alive: nat -> bool, c: nat)
    requires Valid(s) && c < |s.connections|
    ensures var t := OnBlock(s, event, received, alive);
            && c < |t.connections|
            && FateOf(t, c) == if FateOf(s, c) == Waiting && received && !alive(c) then Dropped else FateOf(s, c)
  {
    assert ConnectionOk(s, c);
    if received {
      var dead := Dead(s.wlist, alive);
      var wlist := Without(s.wlist, dead);
      DeadSock(s, alive, c);
      var t := OnBlock(s, event, received, alive);
      FirstSock(Waiter(event, |s.connections|), wlist, c);
      hide HasSock, Dead, Without;
    }
  }

  lemma FirstSock(w: Waiter, ws: seq<Waiter>, c: nat)
    requires w.sock != c
    ensures HasSock([w] + ws, c) <==> HasSock(ws, c)
  {
    if HasSock(ws, c) {
      var v := WaiterOf(ws, c);
      assert v in [w] + ws;
      SockOf([w] + ws, v);
    }
  }
}

/** The server's two handlers over its hash table and its list. */
module SyncServer {
  import M = SyncServerModel
  import Theorems = SyncServerTheorems

  function Reversed(ws: seq<M.Waiter>): seq<M.Waiter> {
    if ws == [] then [] else Reversed(ws[1..]) + [ws[0]]
  }

  /** g_slist_remove: the first entry that is `w`. */
  function Remove(ws: seq<M.Waiter>, w: M.Waiter): seq<M.Waiter> {
    if ws == [] then [] else if ws[0] == w then ws[1..] else [ws[0]] + Remove(ws[1..], w)
  }

  // ---- the order in which entries are removed does not matter -------------------------------------------

  lemma {:induction false} ReversedHas(ws: seq<M.Waiter>, w: M.Waiter)
    ensures w in Reversed(ws) <==> w in ws
    decreases |ws|
  {
    if ws != [] {
      ReversedHas(ws[1..], w);
      assert ws == [ws[0]] + ws[1..];
    }
  }

  lemma {:induction false} SameEntries(ws: seq<M.Waiter>, a: seq<M.Waiter>, b: seq<M.Waiter>)
    requires forall w :: w in a <==> w in b
    ensures M.Without(ws, a) == M.Without(ws, b)
    decreases |ws|
  {
    if ws != [] {
      SameEntries(ws[1..], a, b);
    }
  }

  lemma SameSocks(cs: seq<M.Connection>, a: seq<M.Waiter>, b: seq<M.Waiter>)
    requires forall w :: w in a <==> w in b
    ensures M.Close(cs, a) == M.Close(cs, b) && M.Answer(cs, a) == M.Answer(cs, b)
  {
    hide M.HasSock;
    forall c | 0 <= c < |cs| ensures M.HasSock(a, c) <==> M.HasSock(b, c) {
      SameSock(a, b, c);
      SameSock(b, a, c);
    }
  }

  lemma SameSock(a: seq<M.Waiter>, b: seq<M.Waiter>, c: nat)
    requires forall w :: w in a ==> w in b
    ensures M.HasSock(a, c) ==> M.HasSock(b, c)
  {
    if M.HasSock(a, c) {
      var w := Theorems.WaiterOf(a, c);
      Theorems.SockOf(b, w);
    }
  }

  lemma {:induction false} RemoveIsWithout(ws: seq<M.Waiter>, w: M.Waiter)
    requires Theorems.Distinct(ws)
    ensures Remove(ws, w) == M.Without(ws, [w])
    decreases |ws|
  {
    if ws != [] {
      if ws[0] == w {
        NothingWithout(ws[1..], w);
      } else {
        RemoveIsWithout(ws[1..], w);
      }
    }
  }

  lemma {:induction false} NothingWithout(ws: seq<M.Waiter>, w: M.Waiter)
    requires forall i :: 0 <= i < |ws| ==> ws[i].sock != w.sock
    ensures M.Without(ws, [w]) == ws
    decreases |ws|
  {
    if ws != [] {
      NothingWithout(ws[1..], w);
    }
  }

  lemma {:induction false} WithoutMore(ws: seq<M.Waiter>, a: seq<M.Waiter>, w: M.Waiter)
    ensures M.Without(M.Without(ws, a), [w]) == M.Without(ws, a + [w])
    decreases |ws|
  {
    if ws != [] {
      WithoutMore(ws[1..], a, w);
      var rest := M.Without(ws[1..], a);
      if ws[0] !in a {
        assert ([ws[0]] + rest)[1..] == rest;
      } else {
        assert M.Without(ws, a) == rest;
        assert ws[0] in a + [w] && M.Without(ws, a + [w]) == M.Without(ws[1..], a + [w]);
      }
    }
  }

  lemma MoreSocks(a: seq<M.Waiter>, w: M.Waiter, c: nat)
    ensures M.HasSock(a + [w], c) <==> M.HasSock(a, c) || w.sock == c
    ensures M.HasSock([w], c) <==> w.sock == c
  {
    if M.HasSock(a, c) {
      var v := Theorems.WaiterOf(a, c);
      Theorems.SockOf(a + [w], v);
    }
    assert (a + [w])[|a|] == w && [w][0] == w;
  }

  /** Closing, or answering, one more connection that is not among the others. */
  lemma OneMoreSock(cs: seq<M.Connection>, a: seq<M.Waiter>, w: M.Waiter)
    requires !M.HasSock(a, w.sock)
    ensures M.Close(M.Close(cs, a), [w]) == M.Close(cs, a + [w])
    ensures M.Answer(M.Answer(cs, a), [w]) == M.Answer(cs, a + [w])
  {
    hide M.HasSock;
    forall c | 0 <= c < |cs|
      ensures M.HasSock(a + [w], c) <==> M.HasSock(a, c) || M.HasSock([w], c)
      ensures !(M.HasSock(a, c) && M.HasSock([w], c))
    {
      MoreSocks(a, w, c);
    }
  }

  lemma NoSocks(cs: seq<M.Connection>)
    ensures M.Close(cs, []) == cs && M.Answer(cs, []) == cs
  {
    assert forall c :: !M.HasSock([], c);
  }

  lemma {:induction false} WithoutNothing(ws: seq<M.Waiter>)
    ensures M.Without(ws, []) == ws
    decreases |ws|
  {
    if ws != [] {
      WithoutNothing(ws[1..]);
    }
  }

  lemma NotAmongFirst(ws: seq<M.Waiter>, n: nat)
    requires Theorems.Distinct(ws) && n < |ws|
    ensures !M.HasSock(ws[..n], ws[n].sock)
  {
  }

  class SyncData {
    var events: set<string>
    var wlist: seq<M.Waiter>
    var accepted: nat
    ghost var connections: seq<M.Connection>

    ghost function View(): M.Server
      reads this
    {
      M.Server(events, wlist, connections)
    }

    ghost predicate Valid()
      reads this
    {
      Theorems.Valid(View()) && accepted == |connections|
    }

    constructor ()
      ensures View() == M.START && Valid()
    {
      events, wlist, accepted, connections := {}, [], 0, [];
    }

    /** The loops that free what is on `rlist`: off the list with it, and its socket closed. */
    method FreeAll(rlist: seq<M.Waiter>)
      requires Theorems.Distinct(wlist) && Theorems.Distinct(rlist)
      modifies `wlist, `connections
      ensures wlist == M.Without(old(wlist), rlist) && connections == M.Close(old(connections), rlist)
    {
      hide M.Without, M.Close;
      WithoutNothing(wlist);
      NoSocks(connections);
      var n := 0;
      assert rlist[..0] == [];
      while n < |rlist|
        invariant 0 <= n <= |rlist|
        invariant wlist == M.Without(old(wlist), rlist[..n]) && connections == M.Close(old(connections), rlist[..n])
      {
        Theorems.WithoutDistinct(old(wlist), rlist[..n]);
        RemoveIsWithout(wlist, rlist[n]);
        WithoutMore(old(wlist), rlist[..n], rlist[n]);
        NotAmongFirst(rlist, n);
        OneMoreSock(old(connections), rlist[..n], rlist[n]);
        assert rlist[..n] + [rlist[n]] == rlist[..n + 1];
        wlist := Remove(wlist, rlist[n]);
        connections := M.Close(connections, [rlist[n]]);
        n := n + 1;
      }
      assert rlist[..n] == rlist;
    }

    /** The PING loop: the waiters that it fails for, last one first. */
    method PingAll(alive: nat -> bool) returns (rlist: seq<M.Waiter>)
      ensures rlist == Reversed(M.Dead(wlist, alive))
    {
      rlist := [];
      var l := wlist;
      while l != []
        invariant Reversed(M.Dead(l, alive)) + rlist == Reversed(M.Dead(wlist, alive))
        decreases |l|
      {
        if !alive(l[0].sock) {
          assert M.Dead(l, alive) == [l[0]] + M.Dead(l[1..], alive);
          rlist := [l[0]] + rlist;
        } else {
          assert M.Dead(l, alive) == M.Dead(l[1..], alive);
        }
        l := l[1..];
      }
    }

    /** The loop that sends the event to the waiters for it, and puts them on a list, last one first. */
    method SendAll(event: string) returns (rlist: seq<M.Waiter>)
      ensures rlist == Reversed(M.Matching(wlist, event))
    {
      rlist := [];
      var l := wlist;
      while l != []
        invariant Reversed(M.Matching(l, event)) + rlist == Reversed(M.Matching(wlist, event))
        decreases |l|
      {
        if l[0].event == event {
          assert M.Matching(l, event) == [l[0]] + M.Matching(l[1..], event);
          rlist := [l[0]] + rlist;
        } else {
          assert M.Matching(l, event) == M.Matching(l[1..], event);
        }
        l := l[1..];
      }
    }

    /** handle_rconn; the peers of the waiters for which `alive` does not hold are gone. */
    method HandleRconn(event: string, received: bool, alive: nat -> bool)
      requires Valid()
      modifies this
      ensures View() == old(M.OnBlock(View(), event, received, alive)) && Valid()
    {
      Theorems.BlockKeepsValid(View(), event, received, alive);
      hide M.Dead, M.Without, M.Close, Reversed, Theorems.ConnectionOk;
      var sock := accepted;
      accepted := accepted + 1;
      if !received {
        connections := connections + [M.Connection(event, false, 0, 1)];
        return;
      }
      var rlist := PingAll(alive);
      DeadReversed(wlist, connections, alive);
      FreeAll(rlist);
      if event in events {
        connections := connections + [M.Connection(event, true, 1, 1)];
      } else {
        wlist := [M.Waiter(event, sock)] + wlist;
        connections := connections + [M.Connection(event, true, 0, 0)];
      }
    }

    /** handle_lconn */
    method HandleLconn(event: string, received: bool)
      requires Valid()
      modifies this
      ensures View() == old(M.OnSet(View(), event, received)) && Valid()
    {
      Theorems.SetKeepsValid(View(), event, received);
      hide M.Matching, M.Without, M.Close, M.Answer, Reversed, Theorems.ConnectionOk;
      if !received {
        return;
      }
      events := events + {event};
      var rlist := SendAll(event);
      MatchingReversed(wlist, connections, event);
      connections := M.Answer(connections, rlist);
      FreeAll(rlist);
      Lengths(old(connections), rlist);
    }
  }

  lemma Lengths(cs: seq<M.Connection>, ws: seq<M.Waiter>)
    ensures |M.Close(M.Answer(cs, ws), ws)| == |cs|
  {
  }

  lemma {:induction false} ReversedDistinct(ws: seq<M.Waiter>)
    requires Theorems.Distinct(ws)
    ensures Theorems.Distinct(Reversed(ws))
    decreases |ws|
  {
    if ws != [] {
      ReversedDistinct(ws[1..]);
      var rest := Reversed(ws[1..]);
      forall i | 0 <= i < |rest| ensures rest[i].sock != ws[0].sock {
        ReversedHas(ws[1..], rest[i]);
      }
    }
  }

  lemma {:induction false} DeadDistinct(ws: seq<M.Waiter>, alive: nat -> bool)
    requires Theorems.Distinct(ws)
    ensures Theorems.Distinct(M.Dead(ws, alive))
    decreases |ws|
  {
    if ws != [] {
      DeadDistinct(ws[1..], alive);
      var rest := M.Dead(ws[1..], alive);
      forall i | 0 <= i < |rest| ensures rest[i].sock != ws[0].sock {
        Theorems.DeadHas(ws[1..], alive, rest[i]);
      }
    }
  }

  lemma {:induction false} MatchingDistinct(ws: seq<M.Waiter>, event: string)
    requires Theorems.Distinct(ws)
    ensures Theorems.Distinct(M.Matching(ws, event))
    decreases |ws|
  {
    if ws != [] {
      MatchingDistinct(ws[1..], event);
      var rest := M.Matching(ws[1..], event);
      forall i | 0 <= i < |rest| ensures rest[i].sock != ws[0].sock {
        Theorems.MatchingHas(ws[1..], event, rest[i]);
      }
    }
  }

  lemma DeadReversed(ws: seq<M.Waiter>, cs: seq<M.Connection>, alive: nat -> bool)
    requires Theorems.Distinct(ws)
    ensures var dead := M.Dead(ws, alive);
            && Theorems.Distinct(Reversed(dead))
            && M.Without(ws, Reversed(dead)) == M.Without(ws, dead)
            && M.Close(cs, Reversed(dead)) == M.Close(cs, dead)
  {
    hide M.Dead, M.Without, M.Close, Reversed;
    DeadDistinct(ws, alive);
    AnyOrder(ws, cs, M.Dead(ws, alive));
  }

  lemma MatchingReversed(ws: seq<M.Waiter>, cs: seq<M.Connection>, event: string)
    requires Theorems.Distinct(ws)
    ensures var found := M.Matching(ws, event);
            && Theorems.Distinct(Reversed(found))
            && M.Without(ws, Reversed(found)) == M.Without(ws, found)
            && M.Answer(cs, Reversed(found)) == M.Answer(cs, found)
            && M.Close(M.Answer(cs, found), Reversed(found)) == M.Close(M.Answer(cs, found), found)
  {
    hide M.Matching, M.Without, M.Close, M.Answer, Reversed;
    MatchingDistinct(ws, event);
    AnyOrder(ws, cs, M.Matching(ws, event));
    AnyOrder(ws, M.Answer(cs, M.Matching(ws, event)), M.Matching(ws, event));
  }

  lemma AnyOrder(ws: seq<M.Waiter>, cs: seq<M.Connection>, found: seq<M.Waiter>)
    requires Theorems.Distinct(found)
    ensures Theorems.Distinct(Reversed(found)) && M.Without(ws, Reversed(found)) == M.Without(ws, found)
    ensures M.Close(cs, Reversed(found)) == M.Close(cs, found) && M.Answer(cs, Reversed(found)) == M.Answer(cs, found)
  {
    hide M.Without, M.Close, M.Answer, Reversed;
    forall w ensures w in Reversed(found) <==> w in found {
      ReversedHas(found, w);
    }
    ReversedDistinct(found);
    SameEntries(ws, Reversed(found), found);
    SameSocks(cs, Reversed(found), found);
  }
}
