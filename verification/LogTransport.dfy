/** Log data on its way from a task to the client's files: PUT requests with a Content-Range, written by the
  * client at the offset they name (src/task.c, src/logging.c, src/upload.c and src/client.c). */
module LogTransportModel {
  import opened Common
  import opened ContentRangeCodec

  /** A byte is a C char. */
  type Bytes = string

  /** A request for one log: its Content-Range header, if it has one, and its body. */
  datatype Put = Put(range: Option<string>, body: Bytes)

  function Zeros(n: nat): Bytes {
    seq(n, i => '\0')
  }

  /** truncate(2) */
  function Truncate(f: Bytes, n: nat): Bytes {
    if n <= |f| then f[..n] else f + Zeros(n - |f|)
  }

  /** lseek and write: a gap is filled with zeros, and writing nothing does not make a file longer. */
  function WriteAt(f: Bytes, data: Bytes, at: nat): Bytes {
    if data == [] then f
    else Truncate(f, at) + data + (if at + |data| <= |f| then f[at + |data|..] else [])
  }

  function Contents(file: Option<Bytes>): Bytes {
    match file
    case Some(f) => f
    case None => []
  }

  /** update_chunk: the file is made where there is none, and stays as it is where lseek fails. */
  function UpdateChunk(file: Option<Bytes>, data: Bytes, offset: int): Option<Bytes> {
    Some(if offset < 0 then Contents(file) else WriteAt(Contents(file), data, offset))
  }

  function TruncateIfThere(file: Option<Bytes>, n: nat): Option<Bytes> {
    match file
    case Some(f) => Some(Truncate(f, n))
    case None => None
  }

  /** A gsize and a goffset that C compares as unsigned 64-bit numbers. */
  predicate SameLength(size: nat, length: int) {
    (size - length) % TWO_64 == 0
  }

  /** The range of a request; a header that cannot be read counts as none. */
  function RangeOf(p: Put): Option<Range> {
    match p.range
    case Some(header) => Parse(header)
    case None => None
  }

  /** What tasks_logs_cb does with the file of the log. */
  function Receive(file: Option<Bytes>, p: Put): Option<Bytes> {
    match RangeOf(p)
    case Some(r) => ReceiveRange(file, r, p.body)
    case None => UpdateChunk(TruncateIfThere(file, |p.body|), p.body, 0)
  }

  function ReceiveRange(file: Option<Bytes>, r: Range, body: Bytes): Option<Bytes> {
    if !SameLength(|body|, r.end - r.start + 1) then file
    else if r.total > 0 && r.total < r.end then file
    else UpdateChunk(if r.total > 0 then TruncateIfThere(file, r.total) else file, body, r.start)
  }

  /** A request for the bytes of `data` at `offset` in a log whose length is not known yet. */
  function PutAt(offset: nat, data: Bytes): Put {
    Put(Some(Print(offset, offset + |data| - 1, None)), data)
  }

  function Concat(parts: seq<Bytes>): Bytes {
    if parts == [] then [] else Concat(parts[..|parts| - 1]) + parts[|parts| - 1]
  }

  /** The requests that send `parts` one behind the other, from `offset` on. */
  function PutsFrom(offset: nat, parts: seq<Bytes>): (puts: seq<Put>)
    ensures |puts| == |parts|
  {
    if parts == [] then []
    else
      var rest := parts[..|parts| - 1];
      PutsFrom(offset, rest) + [PutAt(offset + |Concat(rest)|, parts[|parts| - 1])]
  }

  predicate InRange(deliveries: seq<nat>, n: nat) {
    forall i :: 0 <= i < |deliveries| ==> deliveries[i] < n
  }

  /** The client's file after the first `n` of the requests numbered by `deliveries` have come in. */
  function Deliver(file: Option<Bytes>, puts: seq<Put>, deliveries: seq<nat>, n: nat): Option<Bytes>
    requires InRange(deliveries, |puts|) && n <= |deliveries|
  {
    if n == 0 then file
    else Receive(Deliver(file, puts, deliveries, n - 1), puts[deliveries[n - 1]])
  }

  function DeliverAll(file: Option<Bytes>, puts: seq<Put>, deliveries: seq<nat>): Option<Bytes>
    requires InRange(deliveries, |puts|)
  {
    Deliver(file, puts, deliveries, |deliveries|)
  }
}

module LogTransportTheorems {
  import opened Common
  import opened ContentRangeCodec
  import opened ContentRangeTheorems
  import opened LogTransportModel

  lemma WrittenBytes(f: Bytes, data: Bytes, at: nat)
    ensures var g := WriteAt(f, data, at);
            && |g| == (if data == [] then |f| else Max(|f|, at + |data|))
            && (forall p :: at <= p < at + |data| ==> g[p] == data[p - at])
            && (forall i :: 0 <= i < |f| && !(at <= i < at + |data|) ==> g[i] == f[i])
  {
  }

  lemma ItsOwnLength(n: nat)
    ensures SameLength(n, n)
  {
  }

  lemma RangeOfPutAt(offset: nat, data: Bytes)
    requires offset + |data| <= TWO_63 && offset < TWO_63
    ensures RangeOf(PutAt(offset, data)) == Some(Range(offset, offset + |data| - 1, -1))
  {
    hide Print, Parse;
    PrintUnknownThenParse(offset, offset + |data| - 1);
  }

  /** A request of unknown total length is a plain write at its offset. */
  lemma ReceivePutAt(file: Option<Bytes>, offset: nat, data: Bytes)
    requires offset + |data| <= TWO_63 && offset < TWO_63
    ensures Receive(file, PutAt(offset, data)) == Some(WriteAt(Contents(file), data, offset))
  {
    RangeOfPutAt(offset, data);
    ItsOwnLength(|data|);
    hide RangeOf, WriteAt, SameLength, TruncateIfThere;
  }

  /** Every byte of a concatenation lies in one of its parts. */
  lemma {:induction false} PartAt(parts: seq<Bytes>, p: nat) returns (k: nat)
    requires p < |Concat(parts)|
    ensures k < |parts| && |Concat(parts[..k])| <= p < |Concat(parts[..k])| + |parts[k]|
    decreases |parts|
  {
    var rest := parts[..|parts| - 1];
    if p < |Concat(rest)| {
      k := PartAt(rest, p);
      assert rest[..k] == parts[..k];
    } else {
      k := |rest|;
      assert parts[..k] == rest;
    }
  }

  /** The file has the bytes of the whole from `a` to `b`, where the whole begins at `start`. */
  predicate HasSegment(f: Bytes, start: nat, whole: Bytes, a: nat, b: nat) {
    && a <= b <= |whole|
    && (a < b ==> start + b <= |f|)
    && (forall p :: start + a <= p < start + b ==> f[p] == whole[p - start])
  }

  /** `f` is what the file was before, possibly longer, except where the whole goes. */
  predicate Around(f: Bytes, before: Bytes, start: nat, whole: Bytes) {
    && |before| <= |f| <= Max(|before|, start + |whole|)
    && (forall i :: 0 <= i < |before| && !(start <= i < start + |whole|) ==> f[i] == before[i])
  }

  /** `data` is the stretch of the whole that begins at `c`. */
  predicate IsSegment(data: Bytes, whole: Bytes, c: nat) {
    c + |data| <= |whole| && forall i :: c <= i < c + |data| ==> data[i - c] == whole[i]
  }

  /** Writing one segment of the whole keeps the others. */
  lemma SegmentsDoNotClash(f: Bytes, start: nat, whole: Bytes, a: nat, b: nat, data: Bytes, c: nat)
    requires HasSegment(f, start, whole, a, b) && IsSegment(data, whole, c)
    ensures HasSegment(WriteAt(f, data, start + c), start, whole, a, b)
  {
    WrittenBytes(f, data, start + c);
    hide WriteAt;
  }

  lemma SegmentIsWritten(f: Bytes, start: nat, whole: Bytes, data: Bytes, c: nat)
    requires IsSegment(data, whole, c)
    ensures HasSegment(WriteAt(f, data, start + c), start, whole, c, c + |data|)
  {
    WrittenBytes(f, data, start + c);
    hide WriteAt;
  }

  lemma WriteStaysAround(f: Bytes, before: Bytes, start: nat, whole: Bytes, data: Bytes, c: nat)
    requires IsSegment(data, whole, c) && Around(f, before, start, whole)
    ensures Around(WriteAt(f, data, start + c), before, start, whole)
  {
    WrittenBytes(f, data, start + c);
    hide WriteAt;
  }

  /** Where part `k` lies in the whole. */
  function Begins(parts: seq<Bytes>, k: nat): nat
    requires k < |parts|
  {
    |Concat(parts[..k])|
  }

  lemma {:induction false} PartLies(parts: seq<Bytes>, k: nat)
    requires k < |parts|
    ensures IsSegment(parts[k], Concat(parts), Begins(parts, k))
    decreases |parts|
  {
    var rest := parts[..|parts| - 1];
    if k < |rest| {
      PartLies(rest, k);
      assert rest[..k] == parts[..k];
    } else {
      assert parts[..k] == rest;
    }
  }

  lemma {:induction false} PutOfPart(start: nat, parts: seq<Bytes>, k: nat)
    requires k < |parts|
    ensures PutsFrom(start, parts)[k] == PutAt(start + Begins(parts, k), parts[k])
    decreases |parts|
  {
    hide Concat, PutAt;
    var rest := parts[..|parts| - 1];
    if k < |rest| {
      PutOfPart(start, rest, k);
      assert rest[..k] == parts[..k];
    } else {
      assert parts[..k] == rest;
    }
  }

  predicate HasPart(f: Bytes, start: nat, parts: seq<Bytes>, k: nat)
    requires k < |parts|
  {
    HasSegment(f, start, Concat(parts), Begins(parts, k), Begins(parts, k) + |parts[k]|)
  }

  /** The first `n` deliveries have been painted into the file. */
  predicate Painted(f: Bytes, before: Bytes, start: nat, parts: seq<Bytes>, deliveries: seq<nat>, n: nat)
    requires InRange(deliveries, |parts|) && n <= |deliveries|
  {
    && Around(f, before, start, Concat(parts))
    && forall i :: 0 <= i < n ==> HasPart(f, start, parts, deliveries[i])
  }

  lemma PaintMore(f: Bytes, before: Bytes, start: nat, parts: seq<Bytes>, deliveries: seq<nat>, n: nat)
    requires InRange(deliveries, |parts|) && n < |deliveries|
    requires Painted(f, before, start, parts, deliveries, n)
    ensures var e := deliveries[n];
            Painted(WriteAt(f, parts[e], start + Begins(parts, e)), before, start, parts, deliveries, n + 1)
  {
    var e := deliveries[n];
    hide WriteAt, Concat, HasPart, Around, Begins;
    var g := WriteAt(f, parts[e], start + Begins(parts, e));
    WritingStaysAround(f, before, start, parts, e);
    forall i | 0 <= i < n + 1 ensures HasPart(g, start, parts, deliveries[i]) {
      WritingKeepsParts(f, start, parts, deliveries[i], e);
    }
  }

  lemma WritingStaysAround(f: Bytes, before: Bytes, start: nat, parts: seq<Bytes>, e: nat)
    requires e < |parts| && Around(f, before, start, Concat(parts))
    ensures Around(WriteAt(f, parts[e], start + Begins(parts, e)), before, start, Concat(parts))
  {
    PartLies(parts, e);
    hide WriteAt, Concat, Around, Begins, IsSegment;
    WriteStaysAround(f, before, start, Concat(parts), parts[e], Begins(parts, e));
  }

  lemma WritingKeepsParts(f: Bytes, start: nat, parts: seq<Bytes>, k: nat, e: nat)
    requires k < |parts| && e < |parts| && (k == e || HasPart(f, start, parts, k))
    ensures HasPart(WriteAt(f, parts[e], start + Begins(parts, e)), start, parts, k)
  {
    PartLies(parts, k);
    PartLies(parts, e);
    hide WriteAt, Concat, HasSegment, Begins, IsSegment;
    if k == e {
      SegmentIsWritten(f, start, Concat(parts), parts[k], Begins(parts, k));
    } else {
      SegmentsDoNotClash(f, start, Concat(parts), Begins(parts, k), Begins(parts, k) + |parts[k]|,
                         parts[e], Begins(parts, e));
    }
  }

  lemma {:induction false} Painting(file: Option<Bytes>, start: nat, parts: seq<Bytes>, deliveries: seq<nat>, n: nat)
    requires InRange(deliveries, |parts|) && n <= |deliveries| && start + |Concat(parts)| < TWO_63
    ensures var f := Deliver(file, PutsFrom(start, parts), deliveries, n);
            Painted(Contents(f), Contents(file), start, parts, deliveries, n) && (n > 0 ==> f.Some?)
    decreases n
  {
    hide Receive, Concat, Contents, PutsFrom;
    if n > 0 {
      Painting(file, start, parts, deliveries, n - 1);
      OneDelivery(Deliver(file, PutsFrom(start, parts), deliveries, n - 1), Contents(file), start, parts,
                  deliveries, n - 1);
    } else {
      assert Around(Contents(file), Contents(file), start, Concat(parts));
    }
  }

  lemma OneDelivery(file: Option<Bytes>, before: Bytes, start: nat, parts: seq<Bytes>, deliveries: seq<nat>, n: nat)
    requires InRange(deliveries, |parts|) && n < |deliveries| && start + |Concat(parts)| < TWO_63
    requires Painted(Contents(file), before, start, parts, deliveries, n)
    ensures var f := Receive(file, PutsFrom(start, parts)[deliveries[n]]);
            f.Some? && Painted(Contents(f), before, start, parts, deliveries, n + 1)
  {
    hide Painted, Receive, WriteAt, PutAt, PutsFrom, Concat, Begins;
    var e := deliveries[n];
    PartLies(parts, e);
    PutOfPart(start, parts, e);
    ReceivePutAt(file, start + Begins(parts, e), parts[e]);
    PaintMore(Contents(file), before, start, parts, deliveries, n);
  }

  predicate EachDelivered(deliveries: seq<nat>, n: nat) {
    InRange(deliveries, n) && forall k :: 0 <= k < n ==> k in deliveries
  }

  lemma ByteArrives(f: Bytes, before: Bytes, start: nat, parts: seq<Bytes>, deliveries: seq<nat>, p: nat)
    requires EachDelivered(deliveries, |parts|) && Painted(f, before, start, parts, deliveries, |deliveries|)
    requires start <= p < start + |Concat(parts)|
    ensures p < |f| && f[p] == Concat(parts)[p - start]
  {
    hide Around, Concat;
    var k := PartAt(parts, p - start);
    assert k in deliveries;
    var i :| 0 <= i < |deliveries| && deliveries[i] == k;
    assert HasPart(f, start, parts, deliveries[i]);
  }

  lemma AllPartsMakeTheWhole(f: Bytes, before: Bytes, start: nat, parts: seq<Bytes>, deliveries: seq<nat>)
    requires EachDelivered(deliveries, |parts|) && Painted(f, before, start, parts, deliveries, |deliveries|)
    ensures HasSegment(f, start, Concat(parts), 0, |Concat(parts)|)
  {
    hide Painted, Concat, EachDelivered;
    var whole := Concat(parts);
    forall p | start <= p < start + |whole| ensures p < |f| && f[p] == whole[p - start] {
      ByteArrives(f, before, start, parts, deliveries, p);
    }
    if whole != [] {
      ByteArrives(f, before, start, parts, deliveries, start + |whole| - 1);
    }
  }

  /** The whole in its place, and around it what the file was before. */
  function Inserted(before: Bytes, start: nat, whole: Bytes): Bytes
    requires start <= |before|
  {
    before[..start] + whole + (if start + |whole| <= |before| then before[start + |whole|..] else [])
  }

  lemma WholeAround(f: Bytes, before: Bytes, start: nat, whole: Bytes)
    requires Around(f, before, start, whole) && HasSegment(f, start, whole, 0, |whole|) && start <= |before|
    ensures f == Inserted(before, start, whole)
  {
    var g := Inserted(before, start, whole);
    assert |f| == |g|;
    forall p | 0 <= p < |f| ensures f[p] == g[p] {
    }
  }

  /** Whatever the order in which the requests arrive and however often each one does, once every one of
    * them has, the log holds their data one behind the other from the starting offset on, and around it
    * what it held before. */
  lemma Reassembled(file: Option<Bytes>, start: nat, parts: seq<Bytes>, deliveries: seq<nat>)
    requires EachDelivered(deliveries, |parts|) && parts != []
    requires start + |Concat(parts)| < TWO_63 && start <= |Contents(file)|
    ensures DeliverAll(file, PutsFrom(start, parts), deliveries) == Some(Inserted(Contents(file), start, Concat(parts)))
  {
    var f := DeliverAll(file, PutsFrom(start, parts), deliveries);
    Painting(file, start, parts, deliveries, |deliveries|);
    assert 0 in deliveries;
    AllPartsMakeTheWhole(Contents(f), Contents(file), start, parts, deliveries);
    hide Deliver, Concat, HasPart;
    WholeAround(Contents(f), Contents(file), start, Concat(parts));
  }

  lemma InsertedAtStart(before: Bytes, whole: Bytes)
    ensures Inserted(before, 0, whole) == whole <==> |before| <= |whole|
  {
    if |before| <= |whole| {
      assert Inserted(before, 0, whole) == whole;
    } else {
      assert |Inserted(before, 0, whole)| == |before|;
    }
  }

  /** A log that starts at offset 0 ends up as exactly what was written, whatever the order of delivery, if
    * and only if the client did not already hold a longer file. */
  lemma StreamRebuilt(file: Option<Bytes>, parts: seq<Bytes>, deliveries: seq<nat>)
    requires EachDelivered(deliveries, |parts|) && parts != [] && |Concat(parts)| < TWO_63
    ensures DeliverAll(file, PutsFrom(0, parts), deliveries) == Some(Concat(parts))
       <==> |Contents(file)| <= |Concat(parts)|
  {
    Reassembled(file, 0, parts, deliveries);
    hide Deliver, Concat;
    InsertedAtStart(Contents(file), Concat(parts));
  }

  // ---- requests of any kind -----------------------------------------------------------------------------

  /** A request without a range, or with one that cannot be read, replaces the log by its body. */
  lemma NoRangeReplaces(file: Option<Bytes>, p: Put)
    requires RangeOf(p).None?
    ensures Receive(file, p) == Some(p.body)
  {
    hide RangeOf;
    var f := Contents(TruncateIfThere(file, |p.body|));
    assert |f| == 0 || |f| == |p.body|;
    if p.body != [] {
      assert Truncate(f, 0) == [];
      assert WriteAt(f, p.body, 0) == p.body;
    }
  }

  /** What a readable range makes of a request: a body that is not as long as the range says, and a known total
    * below the end, change nothing; otherwise the log is cut or filled up to a known total, where there is one
    * already, and the body is written at the start. */
  lemma EveryRange(file: Option<Bytes>, start: int, end: int, total: int, body: Bytes)
    requires 0 <= start <= end + 1 && end < TWO_63 && |body| < TWO_63
    ensures var r := Range(start, end, total);
            ReceiveRange(file, r, body)
              == if |body| != end - start + 1 || (0 < total && total < end) then file
                 else if 0 < total && file.Some? then Some(WriteAt(Truncate(file.value, total), body, start))
                 else Some(WriteAt(Contents(file), body, start))
  {
    hide WriteAt, Truncate;
    LengthsBelow63(|body|, end - start + 1);
  }

  lemma LengthsBelow63(size: nat, length: nat)
    requires size < TWO_63 && length <= TWO_63
    ensures SameLength(size, length) <==> size == length
  {
    var d := size - length;
    assert -TWO_64 < d < TWO_64;
    if d % TWO_64 == 0 {
      assert d == d / TWO_64 * TWO_64;
    }
  }

  /** A known total equal to the end is let through although the end is inclusive: the log is then one byte longer
    * than its total. */
  lemma TotalMayFallShort(file: Option<Bytes>, body: Bytes)
    requires 1 < |body| < TWO_63
    ensures ReceiveRange(file, Range(0, |body| - 1, |body| - 1), body) == Some(body)
  {
    hide WriteAt;
    EveryRange(file, 0, |body| - 1, |body| - 1, body);
    if file.Some? {
      WholeBody(Truncate(file.value, |body| - 1), body);
    } else {
      WholeBody([], body);
    }
  }

  lemma WholeBody(f: Bytes, body: Bytes)
    requires |f| < |body|
    ensures WriteAt(f, body, 0) == body
  {
    assert Truncate(f, 0) == [];
  }
}
