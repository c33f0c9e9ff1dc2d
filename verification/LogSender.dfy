/** The senders of log data: connections_write of src/task.c, which sends every piece of output as it comes,
  * and rstrnt_upload_log of src/logging.c, which sends what a log file has gained since the last time. */
module LogSenderModel {
  import opened LogTransportModel

  /** BKR_MAX_CONTENT_LENGTH */
  const MAX_CONTENT := 10 * 1024 * 1024

  datatype Sent = Sent(path: string, put: Put)

  /** `offsets` is the table of the task, `saved` its copy in the config file. */
  datatype Task = Task(offsets: map<string, nat>, saved: map<string, nat>, sent: seq<Sent>)

  /** `dropped` says that there is no task or that the recipe has been cancelled. */
  datatype Event =
    | Write(path: string, data: Bytes, dropped: bool)
    | Restart

  /** restraint_task_get_offset */
  function OffsetOf(offsets: map<string, nat>, path: string): nat {
    if path in offsets then offsets[path] else 0
  }

  /** connections_write */
  function OnWrite(t: Task, path: string, data: Bytes, dropped: bool): Task {
    if dropped then t
    else
      var offset := OffsetOf(t.offsets, path);
      Task(t.offsets[path := offset + |data|], t.saved[path := offset + |data|],
           t.sent + [Sent(path, PutAt(offset, data))])
  }

  /** A restarted restraintd reads the offsets back: task_config_get_offsets. */
  function OnRestart(t: Task): Task {
    t.(offsets := t.saved)
  }

  function Step(t: Task, e: Event): Task {
    match e
    case Write(path, data, dropped) => OnWrite(t, path, data, dropped)
    case Restart => OnRestart(t)
  }

  function After(run: seq<Event>): Task {
    if run == [] then Task(map[], map[], [])
    else Step(After(run[..|run| - 1]), run[|run| - 1])
  }

  // ---- a log file and its uploads ---------------------------------------------------------------------

  /** rstrnt_chunk_log: what each message carries. */
  function Pieces(data: Bytes, chunk: nat): (pieces: seq<Bytes>)
    requires chunk > 0
    ensures data != [] ==> pieces != []
    decreases |data|
  {
    if data == [] then []
    else if |data| <= chunk then [data]
    else [data[..chunk]] + Pieces(data[chunk..], chunk)
  }

  /** The number of messages that rstrnt_chunk_log allocates. */
  function Slots(length: nat, chunk: nat): nat
    requires chunk > 0
  {
    length / chunk + (if length % chunk > 0 then 1 else 0)
  }

  /** A log file that only grows, the offset of its next upload with its copy in the config file, and the
    * messages queued so far. */
  datatype LogFile = LogFile(content: Bytes, offset: nat, saved: nat, queued: seq<Put>)

  datatype LogEvent =
    | Grow(data: Bytes)
    | Upload(mapped: bool)
    | Resume

  /** rstrnt_upload_log; `mapped` is whether the file could be mapped. */
  function OnUpload(l: LogFile, mapped: bool): LogFile {
    if !mapped || |l.content| <= l.offset then l
    else l.(queued := l.queued + PutsFrom(l.offset, Pieces(l.content[l.offset..], MAX_CONTENT)),
            offset := |l.content|, saved := |l.content|)
  }

  function LogStep(l: LogFile, e: LogEvent): LogFile {
    match e
    case Grow(data) => l.(content := l.content + data)
    case Upload(mapped) => OnUpload(l, mapped)
    case Resume => l.(offset := l.saved)
  }

  function LogAfter(l: LogFile, run: seq<LogEvent>): LogFile {
    if run == [] then l else LogStep(LogAfter(l, run[..|run| - 1]), run[|run| - 1])
  }
}

module LogSenderTheorems {
  import opened Common
  import opened ContentRangeCodec
  import opened LogTransportModel
  import opened LogTransportTheorems
  import opened LogSenderModel

  // ---- contiguous requests ------------------------------------------------------------------------------

  lemma Associates<T>(a: seq<T>, b: seq<T>, c: seq<T>)
    ensures a + b + c == a + (b + c)
  {
  }

  lemma OneMore(offset: nat, parts: seq<Bytes>, data: Bytes)
    ensures Concat(parts + [data]) == Concat(parts) + data
    ensures PutsFrom(offset, parts + [data]) == PutsFrom(offset, parts) + [PutAt(offset + |Concat(parts)|, data)]
  {
    assert (parts + [data])[..|parts|] == parts;
  }

  lemma OnePut(offset: nat, data: Bytes)
    ensures PutsFrom(offset, [data]) == [PutAt(offset, data)] && Concat([data]) == data
  {
    OneMore(offset, [], data);
    assert [] + [data] == [data];
  }

  lemma {:induction false} ConcatJoins(a: seq<Bytes>, b: seq<Bytes>)
    ensures Concat(a + b) == Concat(a) + Concat(b)
    decreases |b|
  {
    hide Concat, PutsFrom;
    if b == [] {
      NothingJoins(0, a);
    } else {
      var rest, last := b[..|b| - 1], b[|b| - 1];
      ConcatJoins(a, rest);
      Associates(a, rest, [last]);
      assert rest + [last] == b;
      OneMore(0, a + rest, last);
      OneMore(0, rest, last);
      Associates(Concat(a), Concat(rest), last);
    }
  }

  lemma NothingJoins(offset: nat, a: seq<Bytes>)
    ensures a + [] == a && Concat([]) == [] && PutsFrom(offset, []) == []
    ensures Concat(a) + [] == Concat(a) && PutsFrom(offset, a) + [] == PutsFrom(offset, a)
  {
    hide Concat, PutsFrom;
    assert Concat([]) == [] && PutsFrom(offset, []) == [] by {
      EmptyParts(offset);
    }
  }

  lemma EmptyParts(offset: nat)
    ensures Concat([]) == [] && PutsFrom(offset, []) == []
  {
  }

  lemma {:induction false} PutsJoin(offset: nat, a: seq<Bytes>, b: seq<Bytes>)
    ensures PutsFrom(offset, a + b) == PutsFrom(offset, a) + PutsFrom(offset + |Concat(a)|, b)
    decreases |b|
  {
    hide Concat, PutsFrom, PutAt;
    if b == [] {
      NothingJoins(offset, a);
      EmptyParts(offset + |Concat(a)|);
    } else {
      var rest, last := b[..|b| - 1], b[|b| - 1];
      PutsJoin(offset, a, rest);
      Associates(a, rest, [last]);
      assert rest + [last] == b;
      ConcatJoins(a, rest);
      OneMore(offset, a + rest, last);
      OneMore(offset + |Concat(a)|, rest, last);
      Associates(PutsFrom(offset, a), PutsFrom(offset + |Concat(a)|, rest),
                 [PutAt(offset + |Concat(a + rest)|, last)]);
    }
  }

  // ---- connections_write --------------------------------------------------------------------------------

  /** The data written to `path`, in order. */
  function DataTo(run: seq<Event>, path: string): seq<Bytes> {
    if run == [] then []
    else
      var e := run[|run| - 1];
      DataTo(run[..|run| - 1], path) + (if e.Write? && e.path == path && !e.dropped then [e.data] else [])
  }

  /** The requests sent for `path`, in order. */
  function PutsTo(sent: seq<Sent>, path: string): seq<Put> {
    if sent == [] then []
    else
      var s := sent[|sent| - 1];
      PutsTo(sent[..|sent| - 1], path) + (if s.path == path then [s.put] else [])
  }

  lemma SentGrows(sent: seq<Sent>, s: Sent, path: string)
    ensures PutsTo(sent + [s], path) == PutsTo(sent, path) + (if s.path == path then [s.put] else [])
  {
    assert (sent + [s])[..|sent|] == sent;
  }

  lemma WriteIsContiguous(t: Task, path: string, data: Bytes, at: string, parts: seq<Bytes>)
    requires PutsTo(t.sent, at) == PutsFrom(0, parts) && OffsetOf(t.offsets, at) == |Concat(parts)|
    ensures var u := OnWrite(t, path, data, false); var p := if path == at then parts + [data] else parts;
            PutsTo(u.sent, at) == PutsFrom(0, p) && OffsetOf(u.offsets, at) == |Concat(p)|
  {
    var offset := OffsetOf(t.offsets, path);
    SentGrows(t.sent, Sent(path, PutAt(offset, data)), at);
    if path == at {
      OneMore(0, parts, data);
    }
  }

  /** The requests for `path` are those that send `parts` one behind the other from offset 0 on. */
  predicate Streams(t: Task, path: string, parts: seq<Bytes>) {
    PutsTo(t.sent, path) == PutsFrom(0, parts) && OffsetOf(t.offsets, path) == |Concat(parts)| && t.saved == t.offsets
  }

  lemma StepStreams(t: Task, e: Event, path: string, parts: seq<Bytes>)
    requires Streams(t, path, parts)
    ensures Streams(Step(t, e), path, parts + (if e.Write? && e.path == path && !e.dropped then [e.data] else []))
  {
    if e.Write? && !e.dropped {
      hide PutsFrom, Concat, PutsTo;
      WriteIsContiguous(t, e.path, e.data, path, parts);
      if e.path != path {
        assert parts + [] == parts;
      }
    } else {
      assert parts + [] == parts;
    }
  }

  /** Whatever is written to other paths, dropped, or interrupted by restarts in between. */
  lemma {:induction false} StreamsAreContiguous(run: seq<Event>, path: string)
    ensures Streams(After(run), path, DataTo(run, path))
    decreases |run|
  {
    hide Streams, Step;
    if run != [] {
      StreamsAreContiguous(run[..|run| - 1], path);
      StepStreams(After(run[..|run| - 1]), run[|run| - 1], path, DataTo(run[..|run| - 1], path));
    } else {
      NothingStreams(path);
    }
  }

  lemma NothingStreams(path: string)
    ensures Streams(Task(map[], map[], []), path, [])
  {
  }

  /** The two ends together: whatever is written, the client's log becomes exactly the data written to its
    * path, for every order of delivery and with any requests delivered more than once. */
  lemma WrittenLogIsRebuilt(run: seq<Event>, path: string, deliveries: seq<nat>)
    requires DataTo(run, path) != [] && |Concat(DataTo(run, path))| < TWO_63
    requires EachDelivered(deliveries, |DataTo(run, path)|)
    ensures |PutsTo(After(run).sent, path)| == |DataTo(run, path)|
    ensures DeliverAll(None, PutsTo(After(run).sent, path), deliveries) == Some(Concat(DataTo(run, path)))
  {
    StreamsAreContiguous(run, path);
    StreamRebuilt(None, DataTo(run, path), deliveries);
  }

  // ---- chunks -------------------------------------------------------------------------------------------

  lemma SlotsOfRest(length: nat, chunk: nat)
    requires 0 < chunk < length
    ensures Slots(length, chunk) == 1 + Slots(length - chunk, chunk)
  {
    var q, r := (length - chunk) / chunk, (length - chunk) % chunk;
    assert length - chunk == q * chunk + r;
    assert length == (q + 1) * chunk + r;
    QuotientIs(length, chunk, q + 1, r);
  }

  lemma ProductGrows(a: nat, b: nat, d: nat)
    requires a < b
    ensures a * d + d <= b * d
  {
    assert b * d == a * d + d + (b - a - 1) * d;
  }

  lemma QuotientIs(n: nat, d: nat, q: nat, r: nat)
    requires 0 < d && n == q * d + r && r < d
    ensures n / d == q && n % d == r
  {
    var p := n / d;
    assert n == p * d + n % d;
    if p < q {
      ProductGrows(p, q, d);
    } else if p > q {
      ProductGrows(q, p, d);
    }
  }

  lemma SlotsOfLast(length: nat, chunk: nat)
    requires 0 < length <= chunk
    ensures Slots(length, chunk) == 1
  {
    if length < chunk {
      QuotientIs(length, chunk, 0, length);
    } else {
      QuotientIs(length, chunk, 1, 0);
    }
  }

  predicate Cut(pieces: seq<Bytes>, chunk: nat) {
    forall i :: 0 <= i < |pieces| ==> 0 < |pieces[i]| <= chunk && (i < |pieces| - 1 ==> |pieces[i]| == chunk)
  }

  lemma {:induction false} PiecesAreCut(data: Bytes, chunk: nat)
    requires chunk > 0
    ensures Cut(Pieces(data, chunk), chunk)
    decreases |data|
  {
    if |data| > chunk {
      PiecesAreCut(data[chunk..], chunk);
    }
  }

  /** The pieces make up the data; there are as many as the messages allocated for them, none is empty and
    * all are full but possibly the last. */
  lemma {:induction false} PiecesCutExactly(data: Bytes, chunk: nat)
    requires chunk > 0
    ensures var p := Pieces(data, chunk);
            Concat(p) == data && |p| == Slots(|data|, chunk) && Cut(p, chunk)
    decreases |data|
  {
    hide Concat, Slots, Cut;
    PiecesAreCut(data, chunk);
    if data == [] {
      NoPieces(chunk);
    } else if |data| <= chunk {
      OnePut(0, data);
      SlotsOfLast(|data|, chunk);
    } else {
      PiecesCutExactly(data[chunk..], chunk);
      OnePut(0, data[..chunk]);
      ConcatJoins([data[..chunk]], Pieces(data[chunk..], chunk));
      SlotsOfRest(|data|, chunk);
      assert data[..chunk] + data[chunk..] == data;
    }
  }

  lemma NoPieces(chunk: nat)
    requires chunk > 0
    ensures Concat([]) == [] && Slots(0, chunk) == 0
  {
    QuotientIs(0, chunk, 0, 0);
  }

  // ---- uploads of a growing file ------------------------------------------------------------------------

  predicate Sized(parts: seq<Bytes>) {
    forall i :: 0 <= i < |parts| ==> 0 < |parts[i]| <= 10485760
  }

  /** The messages queued are contiguous requests for what the file holds between two offsets, none of them
    * empty or too long. */
  predicate Uploaded(l: LogFile, from: nat, parts: seq<Bytes>) {
    && from <= l.offset <= |l.content| && l.saved == l.offset && Sized(parts)
    && l.queued == PutsFrom(from, parts) && Concat(parts) == l.content[from..l.offset]
  }

  lemma SizedPieces(parts: seq<Bytes>, data: Bytes)
    requires Sized(parts)
    ensures Sized(parts + Pieces(data, MAX_CONTENT))
  {
    PiecesCutExactly(data, MAX_CONTENT);
    hide Pieces, Concat, Slots;
  }

  lemma UploadMore(l: LogFile, from: nat, parts: seq<Bytes>)
    requires Uploaded(l, from, parts) && l.offset < |l.content|
    ensures Uploaded(OnUpload(l, true), from, parts + Pieces(l.content[l.offset..], MAX_CONTENT))
  {
    hide PutsFrom, Concat, Pieces, Sized;
    var left := l.content[l.offset..];
    var pieces := Pieces(left, MAX_CONTENT);
    SizedPieces(parts, left);
    PiecesMakeUp(left);
    ConcatJoins(parts, pieces);
    PutsJoin(from, parts, pieces);
    Stretch(l.content, from, l.offset);
  }

  lemma PiecesMakeUp(data: Bytes)
    ensures Concat(Pieces(data, MAX_CONTENT)) == data
  {
    PiecesCutExactly(data, MAX_CONTENT);
  }

  lemma Stretch(s: Bytes, a: nat, b: nat)
    requires a <= b <= |s|
    ensures s[a..|s|] == s[a..b] + s[b..]
  {
  }

  /** Over any interleaving of growth, uploads and restarts, the messages in the order of the queue carry the file from
    * the first offset to the last length uploaded, without a gap and without an overlap. */
  lemma {:induction false} UploadsAreContiguous(l: LogFile, run: seq<LogEvent>) returns (parts: seq<Bytes>)
    requires l.saved == l.offset <= |l.content| && l.queued == []
    ensures Uploaded(LogAfter(l, run), l.offset, parts) && l.content <= LogAfter(l, run).content
    decreases |run|
  {
    parts := [];
    if run != [] {
      var m := LogAfter(l, run[..|run| - 1]);
      parts := UploadsAreContiguous(l, run[..|run| - 1]);
      match run[|run| - 1] {
        case Grow(data) =>
          assert (m.content + data)[l.offset..m.offset] == m.content[l.offset..m.offset];
        case Upload(mapped) =>
          if mapped && m.offset < |m.content| {
            UploadMore(m, l.offset, parts);
            parts := parts + Pieces(m.content[m.offset..], MAX_CONTENT);
          }
        case Resume =>
      }
    }
  }

  /** One upload queues a message for every 10 MiB of what is new, and one for what remains. */
  lemma OneUpload(l: LogFile)
    requires l.offset < |l.content|
    ensures var left := l.content[l.offset..]; var m := OnUpload(l, true);
            && |m.queued| == |l.queued| + Slots(|left|, 10485760) && m.queued[..|l.queued|] == l.queued
            && m.offset == m.saved == |l.content| && m.content == l.content
            && Cut(Pieces(left, 10485760), 10485760) && Concat(Pieces(left, 10485760)) == left
            && m.queued[|l.queued|..] == PutsFrom(l.offset, Pieces(left, 10485760))
  {
    hide Pieces, Concat, Slots, Cut, PutsFrom;
    PiecesCutExactly(l.content[l.offset..], 10485760);
  }

  /** Without anything new, or a file to map, an upload does nothing; a restart takes the offset from the config
    * file. */
  lemma NoUpload(l: LogFile, mapped: bool)
    requires !mapped || |l.content| <= l.offset
    ensures LogStep(l, Upload(mapped)) == l && LogStep(l, Resume).offset == l.saved
  {
  }

  /** An upload that ends the run leaves nothing behind: what the client then has, for every order of
    * delivery, is the file itself. */
  lemma UploadedFileIsRebuilt(content: Bytes, run: seq<LogEvent>, deliveries: seq<nat>)
    requires var l := LogAfter(LogFile(content, 0, 0, []), run);
             && l.offset == |l.content| && 0 < |l.content| < TWO_63
             && EachDelivered(deliveries, |l.queued|)
    ensures var l := LogAfter(LogFile(content, 0, 0, []), run);
            DeliverAll(None, l.queued, deliveries) == Some(l.content)
  {
    var l := LogAfter(LogFile(content, 0, 0, []), run);
    var parts := UploadsAreContiguous(LogFile(content, 0, 0, []), run);
    assert l.content[0..l.offset] == l.content;
    StreamRebuilt(None, parts, deliveries);
  }
}

/** The senders as they update the task's table of offsets and the queue. */
module LogSender {
  import opened Common
  import opened LogTransportModel
  import M = LogSenderModel
  import Theorems = LogSenderTheorems

  /** rstrnt_chunk_log: the vector of messages, or NULL for arguments that it rejects. */
  method ChunkLog(content: Bytes, offset: nat, chunk: nat) returns (msgv: array?<Option<Put>>)
    ensures msgv == null <==> content == [] || |content| <= offset || chunk == 0
    ensures msgv != null ==>
              var puts := PutsFrom(offset, M.Pieces(content[offset..], chunk));
              && fresh(msgv) && msgv.Length == |puts| == M.Slots(|content| - offset, chunk)
              && forall i :: 0 <= i < |puts| ==> msgv[i] == Some(puts[i])
  {
    hide M.Pieces, M.Slots, PutsFrom, Concat;
    if content == [] || |content| <= offset || chunk == 0 {
      return null;
    }
    msgv := FillMessages(content, offset, chunk);
  }

  method FillMessages(content: Bytes, offset: nat, chunk: nat) returns (msgv: array<Option<Put>>)
    requires offset < |content| && chunk > 0
    ensures fresh(msgv) && msgv.Length == M.Slots(|content| - offset, chunk)
    ensures msgv.Length == |M.Pieces(content[offset..], chunk)|
    ensures Filled(msgv[..], offset, M.Pieces(content[offset..], chunk))
  {
    hide M.Pieces, M.Slots, PutsFrom, Concat, PutAt, Filled;
    var length := |content| - offset;
    var count := M.Slots(length, chunk);
    msgv := new Option<Put>[count](_ => None);
    var msg, left := 0, length;
    ghost var done: seq<Bytes> := [];
    NothingFilled(msgv[..], offset, content, chunk);
    while left > 0
      invariant 0 <= left <= length && Filled(msgv[..], offset, done) && msg == |done| && |Concat(done)| == length - left
      invariant done + M.Pieces(content[offset + length - left..], chunk) == M.Pieces(content[offset..], chunk)
      invariant msg + M.Slots(left, chunk) == count
    {
      SlotsLeft(left, chunk);
      AddPiece(offset, done, content, offset + length - left, chunk);
      var n := AddMessage(msgv, offset, done, msg, content, offset + length - left, chunk);
      done := done + [content[offset + length - left..offset + length - left + n]];
      left := left - n;
      msg := msg + 1;
    }
    AllFilled(msgv[..], offset, done, content, chunk);
  }

  /** One round of rstrnt_chunk_log: the message for what begins at `start`, and its length. */
  method AddMessage(msgv: array<Option<Put>>, offset: nat, ghost done: seq<Bytes>, msg: nat, content: Bytes,
                    start: nat, chunk: nat) returns (n: nat)
    requires Filled(msgv[..], offset, done) && msg == |done| < msgv.Length && chunk > 0
    requires start < |content| && start == offset + |Concat(done)|
    modifies msgv
    ensures n == Min(chunk, |content| - start) && Filled(msgv[..], offset, done + [content[start..start + n]])
  {
    hide PutsFrom, Concat, PutAt, Filled;
    n := if |content| - start > chunk then chunk else |content| - start;
    ghost var before := msgv[..];
    SlotFilled(before, offset, done, content[start..start + n]);
    msgv[msg] := Some(PutAt(start, content[start..start + n]));
    assert msgv[..] == before[msg := Some(PutAt(start, content[start..start + n]))];
  }

  /** The first slots hold the messages for the pieces done so far. */
  predicate Filled(msgv: seq<Option<Put>>, offset: nat, done: seq<Bytes>) {
    && |done| <= |msgv|
    && forall i :: 0 <= i < |done| ==> msgv[i] == Some(PutsFrom(offset, done)[i])
  }

  lemma NothingFilled(msgv: seq<Option<Put>>, offset: nat, content: Bytes, chunk: nat)
    requires offset < |content| && chunk > 0
    ensures Filled(msgv, offset, []) && Concat([]) == []
    ensures [] + M.Pieces(content[offset..], chunk) == M.Pieces(content[offset..], chunk)
  {
  }

  lemma SlotsLeft(left: nat, chunk: nat)
    requires left > 0 && chunk > 0
    ensures M.Slots(left, chunk) == 1 + M.Slots(left - Min(chunk, left), chunk)
  {
    if left > chunk {
      Theorems.SlotsOfRest(left, chunk);
    } else {
      Theorems.SlotsOfLast(left, chunk);
    }
  }

  /** Putting the next message into its slot fills one more. */
  lemma SlotFilled(msgv: seq<Option<Put>>, offset: nat, done: seq<Bytes>, piece: Bytes)
    requires Filled(msgv, offset, done) && |done| < |msgv|
    ensures Filled(msgv[|done| := Some(PutAt(offset + |Concat(done)|, piece))], offset, done + [piece])
  {
    hide PutsFrom, Concat, PutAt;
    Theorems.OneMore(offset, done, piece);
    var puts := PutsFrom(offset, done);
    assert |puts| == |done|;
  }

  lemma AddPiece(offset: nat, done: seq<Bytes>, content: Bytes, start: nat, chunk: nat)
    requires start < |content| && chunk > 0
    ensures var n := Min(chunk, |content| - start); var piece := content[start..start + n];
            && |Concat(done + [piece])| == |Concat(done)| + n
            && (done + [piece]) + M.Pieces(content[start + n..], chunk) == done + M.Pieces(content[start..], chunk)
  {
    hide M.Pieces, PutsFrom, Concat;
    var n := Min(chunk, |content| - start);
    var piece := content[start..start + n];
    PieceOfRest(content[start..], chunk);
    assert content[start..][..n] == piece && content[start..][n..] == content[start + n..];
    Theorems.OneMore(offset, done, piece);
    Theorems.Associates(done, [piece], M.Pieces(content[start + n..], chunk));
  }

  lemma PieceOfRest(data: Bytes, chunk: nat)
    requires data != [] && chunk > 0
    ensures var n := Min(chunk, |data|);
            M.Pieces(data, chunk) == [data[..n]] + M.Pieces(data[n..], chunk)
  {
    if |data| <= chunk {
      assert data[..|data|] == data && data[|data|..] == [];
    }
  }

  lemma AllFilled(msgv: seq<Option<Put>>, offset: nat, done: seq<Bytes>, content: Bytes, chunk: nat)
    requires chunk > 0 && offset <= |content|
    requires done + M.Pieces(content[|content|..], chunk) == M.Pieces(content[offset..], chunk)
    requires Filled(msgv, offset, done)
    ensures done == M.Pieces(content[offset..], chunk) && |done| == M.Slots(|content| - offset, chunk)
    ensures forall i :: 0 <= i < |done| ==> msgv[i] == Some(PutsFrom(offset, done)[i])
  {
    hide PutsFrom, Concat;
    Theorems.PiecesCutExactly(content[offset..], chunk);
    assert content[|content|..] == [];
    assert done + [] == done;
  }

  class Task {
    var offsets: map<string, nat>
    var saved: map<string, nat>
    ghost var sent: seq<M.Sent>

    ghost function View(): M.Task
      reads this
    {
      M.Task(offsets, saved, sent)
    }

    /** restraint_task_get_offset */
    method GetOffset(path: string) returns (offset: nat)
      modifies `offsets
      ensures offset == M.OffsetOf(old(offsets), path) && offsets == old(offsets)[path := offset]
    {
      if path !in offsets {
        offsets := offsets[path := 0];
      }
      offset := offsets[path];
    }

    /** connections_write */
    method ConnectionsWrite(path: string, data: Bytes, dropped: bool)
      modifies this
      ensures View() == old(M.OnWrite(View(), path, data, dropped))
    {
      if dropped {
        return;
      }
      var offset := GetOffset(path);
      sent := sent + [M.Sent(path, PutAt(offset, data))];
      offsets := offsets[path := offset + |data|];
      saved := saved[path := offset + |data|];
    }
  }

  class LogFile {
    var content: Bytes
    var offset: nat
    var saved: nat
    var queued: seq<Put>

    ghost function View(): M.LogFile
      reads this
    {
      M.LogFile(content, offset, saved, queued)
    }

    /** rstrnt_upload_log */
    method UploadLog(mapped: bool)
      modifies `queued, `offset, `saved
      ensures View() == old(M.OnUpload(View(), mapped))
    {
      hide PutsFrom, Concat, M.Pieces, M.Slots;
      if !mapped || |content| < offset || |content| == offset {
        return;
      }
      var msgv := ChunkLog(content, offset, M.MAX_CONTENT);
      QueueMessages(msgv, PutsFrom(offset, M.Pieces(content[offset..], M.MAX_CONTENT)));
      offset := |content|;
      saved := offset;
    }

    /** Queues the messages of a vector in their order. */
    method QueueMessages(msgv: array<Option<Put>>, ghost puts: seq<Put>)
      requires msgv.Length == |puts| && forall i :: 0 <= i < |puts| ==> msgv[i] == Some(puts[i])
      modifies `queued
      ensures queued == old(queued) + puts
    {
      var i := 0;
      while i < msgv.Length
        invariant 0 <= i <= msgv.Length && queued == old(queued) + puts[..i]
      {
        queued := queued + [msgv[i].value];
        i := i + 1;
      }
      assert puts[..i] == puts;
    }
  }
}
