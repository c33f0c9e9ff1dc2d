/** upload_file of src/upload.c, which sends a whole file in chunks of known total length. */
module UploadModel {
  import opened Common
  import opened ContentRangeCodec
  import opened LogTransportModel

  const READ_BUFFER_SIZE := 131072

  /** What the system answers after so many bytes have been uploaded: how much a read returns, and whether
    * the read or the request that follows fails. */
  datatype Env = Env(read: nat -> nat, readFails: nat -> bool, sendFails: nat -> bool)

  /** A read of an ordinary file returns at least one byte and no more than was asked for. */
  function ReadSize(env: Env, uploaded: nat, filesize: nat): (n: nat)
    requires uploaded < filesize
    ensures 0 < n <= filesize - uploaded && n <= READ_BUFFER_SIZE
  {
    var asked := Min(filesize - uploaded, READ_BUFFER_SIZE);
    Max(1, Min(env.read(uploaded), asked))
  }

  /** upload_chunk's request for the `n` bytes behind the ones uploaded. */
  function ChunkPut(content: Bytes, uploaded: nat, n: nat, offset: nat): Put
    requires uploaded + n <= |content|
  {
    Put(Some(Print(offset, offset + n - 1, Some(|content|))), content[uploaded..uploaded + n])
  }

  /** The requests that upload_file sends, whether it succeeds, and the static offset it leaves. */
  datatype Outcome = Outcome(puts: seq<Put>, ok: bool, offset: nat)

  function Upload(content: Bytes, env: Env, uploaded: nat, offset: nat): Outcome
    requires uploaded <= |content|
    decreases |content| - uploaded
  {
    if uploaded == |content| then Outcome([], true, offset)
    else if env.readFails(uploaded) then Outcome([], false, offset)
    else
      var n := ReadSize(env, uploaded, |content|);
      var put := ChunkPut(content, uploaded, n, offset);
      if env.sendFails(uploaded) then Outcome([put], false, offset + n)
      else
        var r := Upload(content, env, uploaded + n, offset + n);
        r.(puts := [put] + r.puts)
  }

  /** The client's file after requests that arrive in the order in which they were sent. */
  function ReceiveAll(file: Option<Bytes>, puts: seq<Put>): Option<Bytes>
    decreases |puts|
  {
    if puts == [] then file else ReceiveAll(Receive(file, puts[0]), puts[1..])
  }
}

module UploadTheorems {
  import opened Common
  import opened ContentRangeCodec
  import opened ContentRangeTheorems
  import opened LogTransportModel
  import opened LogTransportTheorems
  import opened UploadModel

  /** The first `n` bytes of the content have arrived, and nothing behind its end is left. */
  predicate Holds(file: Option<Bytes>, content: Bytes, n: nat)
    requires n <= |content|
  {
    n > 0 ==> file.Some? && n <= |file.value| <= |content| && forall p :: 0 <= p < n ==> file.value[p] == content[p]
  }

  lemma TruncatedBytes(f: Bytes, n: nat)
    ensures var g := Truncate(f, n);
            |g| == n && forall p :: 0 <= p < n && p < |f| ==> g[p] == f[p]
  {
  }

  /** Bytes of the content at their place keep what has arrived and add to it. */
  lemma WritingHolds(f: Bytes, content: Bytes, data: Bytes, at: nat)
    requires at + |data| <= |content| && data != [] && |f| <= |content| && IsSegment(data, content, at)
    requires Holds(Some(f), content, at)
    ensures Holds(Some(WriteAt(f, data, at)), content, at + |data|)
  {
    hide WriteAt;
    WrittenBytes(f, data, at);
  }

  lemma RangeOfChunk(content: Bytes, uploaded: nat, n: nat, offset: nat)
    requires uploaded + n <= |content| < TWO_63 && offset + n <= TWO_63 && n > 0
    ensures RangeOf(ChunkPut(content, uploaded, n, offset)) == Some(Range(offset, offset + n - 1, |content|))
  {
    hide Print, Parse;
    PrintThenParse(offset, offset + n - 1, Some(|content|));
  }

  lemma ReceiveChunk(file: Option<Bytes>, content: Bytes, uploaded: nat, n: nat)
    requires uploaded + n <= |content| < TWO_63 && n > 0
    ensures Receive(file, ChunkPut(content, uploaded, n, uploaded))
         == Some(WriteAt(Contents(TruncateIfThere(file, |content|)), content[uploaded..uploaded + n], uploaded))
  {
    hide RangeOf, WriteAt, SameLength, TruncateIfThere, Print;
    RangeOfChunk(content, uploaded, n, uploaded);
    ItsOwnLength(n);
  }

  lemma ChunkHolds(file: Option<Bytes>, content: Bytes, uploaded: nat, n: nat)
    requires uploaded + n <= |content| < TWO_63 && n > 0 && Holds(file, content, uploaded)
    ensures Holds(Receive(file, ChunkPut(content, uploaded, n, uploaded)), content, uploaded + n)
  {
    hide WriteAt, Truncate, Receive, ChunkPut;
    ReceiveChunk(file, content, uploaded, n);
    var data := content[uploaded..uploaded + n];
    var f := Contents(TruncateIfThere(file, |content|));
    if file.Some? {
      TruncatedBytes(file.value, |content|);
    }
    WritingHolds(f, content, data, uploaded);
  }

  lemma {:induction false} UploadHolds(file: Option<Bytes>, content: Bytes, env: Env, uploaded: nat)
    requires uploaded <= |content| < TWO_63 && Holds(file, content, uploaded)
    requires Upload(content, env, uploaded, uploaded).ok
    ensures Holds(ReceiveAll(file, Upload(content, env, uploaded, uploaded).puts), content, |content|)
    decreases |content| - uploaded
  {
    hide Holds, Receive, ChunkPut, ReadSize;
    if uploaded < |content| {
      var n := ReadSize(env, uploaded, |content|);
      var rest := Upload(content, env, uploaded + n, uploaded + n);
      ChunkHolds(file, content, uploaded, n);
      UploadHolds(Receive(file, ChunkPut(content, uploaded, n, uploaded)), content, env, uploaded + n);
      FirstReceived(file, ChunkPut(content, uploaded, n, uploaded), rest.puts);
    }
  }

  lemma FirstReceived(file: Option<Bytes>, put: Put, puts: seq<Put>)
    ensures ReceiveAll(file, [put] + puts) == ReceiveAll(Receive(file, put), puts)
  {
    hide Receive;
    assert ([put] + puts)[1..] == puts;
  }

  lemma AllHeld(file: Option<Bytes>, content: Bytes)
    requires content != [] && Holds(file, content, |content|)
    ensures file == Some(content)
  {
    assert file.value == content;
  }

  /** A successful upload that begins at offset 0 replaces whatever the client held by exactly the content,
    * unless that is empty: then it sends nothing and the client keeps what it had. */
  lemma UploadReplacesTheFile(file: Option<Bytes>, content: Bytes, env: Env)
    requires |content| < TWO_63 && Upload(content, env, 0, 0).ok
    ensures ReceiveAll(file, Upload(content, env, 0, 0).puts) == if content == [] then file else Some(content)
  {
    if content != [] {
      hide Receive, Upload;
      UploadHolds(file, content, env, 0);
      AllHeld(ReceiveAll(file, Upload(content, env, 0, 0).puts), content);
    }
  }

  // ---- failures -----------------------------------------------------------------------------------------

  /** The requests from byte `at` on, as the answers allow them: a read that fails ends the upload before its
    * request and a request that fails ends it behind it, both with an error; otherwise all bytes are sent. */
  predicate StopsAtFailure(env: Env, at: nat, total: nat, puts: seq<Put>, ok: bool)
    decreases |puts|
  {
    if puts == [] then
      if ok then at == total else at < total && env.readFails(at)
    else
      && at < total && !env.readFails(at)
      && |puts[0].body| == Max(1, Min(env.read(at), Min(total - at, 131072)))
      && if env.sendFails(at) then |puts| == 1 && !ok
         else StopsAtFailure(env, at + |puts[0].body|, total, puts[1..], ok)
  }

  lemma BytesRead(env: Env, at: nat, total: nat)
    requires at < total
    ensures ReadSize(env, at, total) == Max(1, Min(env.read(at), Min(total - at, 131072)))
  {
  }

  lemma {:induction false} UploadStopsAtFailure(content: Bytes, env: Env, uploaded: nat, offset: nat)
    requires uploaded <= |content|
    ensures var r := Upload(content, env, uploaded, offset);
            StopsAtFailure(env, uploaded, |content|, r.puts, r.ok)
    decreases |content| - uploaded
  {
    hide ReadSize, Print;
    if uploaded < |content| && !env.readFails(uploaded) {
      var n := ReadSize(env, uploaded, |content|);
      BytesRead(env, uploaded, |content|);
      var put := ChunkPut(content, uploaded, n, offset);
      assert |put.body| == n;
      if !env.sendFails(uploaded) {
        var rest := Upload(content, env, uploaded + n, offset + n);
        UploadStopsAtFailure(content, env, uploaded + n, offset + n);
        assert ([put] + rest.puts)[1..] == rest.puts;
      }
    }
  }

  function BytesIn(puts: seq<Put>): nat {
    if puts == [] then 0 else |puts[0].body| + BytesIn(puts[1..])
  }

  lemma {:induction false} AllBytesSent(env: Env, at: nat, total: nat, puts: seq<Put>, ok: bool)
    requires StopsAtFailure(env, at, total, puts, ok)
    ensures ok ==> at + BytesIn(puts) == total
    ensures (forall n :: at <= n < total ==> !env.readFails(n) && !env.sendFails(n)) ==> ok
    decreases |puts|
  {
    if puts != [] && !env.sendFails(at) {
      AllBytesSent(env, at + |puts[0].body|, total, puts[1..], ok);
    }
  }

  /** upload_file succeeds if nothing fails, and when it succeeds it has sent every byte. */
  lemma UploadReportsFailures(content: Bytes, env: Env, offset: nat)
    ensures var r := Upload(content, env, 0, offset);
            && StopsAtFailure(env, 0, |content|, r.puts, r.ok)
            && (r.ok ==> BytesIn(r.puts) == |content|)
            && ((forall n :: 0 <= n < |content| ==> !env.readFails(n) && !env.sendFails(n)) ==> r.ok)
            && (content != [] && (env.readFails(0) || env.sendFails(0)) ==> !r.ok)
  {
    hide Upload;
    UploadStopsAtFailure(content, env, 0, offset);
    var r := Upload(content, env, 0, offset);
    AllBytesSent(env, 0, |content|, r.puts, r.ok);
  }

  // ---- the static offset --------------------------------------------------------------------------------

  ghost predicate NeverFails(env: Env) {
    (forall n :: !env.readFails(n)) && (forall n :: !env.sendFails(n))
  }

  lemma {:induction false} UploadSucceeds(content: Bytes, env: Env, uploaded: nat, offset: nat)
    requires uploaded <= |content| && NeverFails(env)
    ensures var r := Upload(content, env, uploaded, offset); r.ok && r.offset == offset + (|content| - uploaded)
    decreases |content| - uploaded
  {
    if uploaded < |content| {
      hide ReadSize, ChunkPut;
      var n := ReadSize(env, uploaded, |content|);
      UploadSucceeds(content, env, uploaded + n, offset + n);
    }
  }

  /** An upload from this offset makes the client hold the content. */
  predicate Replaces(file: Option<Bytes>, content: Bytes, env: Env, offset: nat) {
    ReceiveAll(file, Upload(content, env, 0, offset).puts) == Some(content)
  }

  lemma OneByteUpload(env: Env, offset: nat)
    requires NeverFails(env)
    ensures Upload("x", env, 0, offset).puts == [ChunkPut("x", 0, 1, offset)]
  {
    hide ChunkPut;
    assert ReadSize(env, 0, 1) == 1;
    assert Upload("x", env, 1, offset + 1).puts == [];
  }

  lemma StaleOffsetBreaks(env: Env, offset: nat)
    requires NeverFails(env) && 0 < offset < TWO_63
    ensures !Replaces(None, "x", env, offset)
  {
    hide Receive, ChunkPut, Upload;
    OneByteUpload(env, offset);
    var put := ChunkPut("x", 0, 1, offset);
    assert [put] + [] == [put];
    FirstReceived(None, put, []);
    StaleByte(offset);
  }

  lemma StaleByte(offset: nat)
    requires 0 < offset < TWO_63
    ensures Receive(None, ChunkPut("x", 0, 1, offset)) != Some("x")
  {
    hide RangeOf, ChunkPut;
    RangeOfChunk("x", 0, 1, offset);
    OneByteBody(offset);
    WrittenBytes([], "x", offset);
  }

  lemma OneByteBody(offset: nat)
    ensures ChunkPut("x", 0, 1, offset).body == "x"
  {
    hide Print;
  }

  /** The offset that upload.c keeps between calls decides: starting from 0 every upload that succeeds
    * replaces the file, starting from anything else not even one byte arrives where it should. */
  lemma UploadsReplaceFromZeroOnly(env: Env, offset: nat)
    requires NeverFails(env) && offset < TWO_63
    ensures offset == 0 <==>
              forall file, content :: 0 < |content| < TWO_63 ==> Replaces(file, content, env, offset)
  {
    hide Upload, ReceiveAll;
    if offset == 0 {
      forall file, content | 0 < |content| < TWO_63 ensures Replaces(file, content, env, offset) {
        UploadSucceeds(content, env, 0, 0);
        UploadReplacesTheFile(file, content, env);
      }
    } else {
      StaleOffsetBreaks(env, offset);
    }
  }

  /** A process that has uploaded a file without an error cannot upload another one to the right place. */
  lemma SecondUploadFails(content: Bytes, env: Env)
    requires NeverFails(env) && 0 < |content| < TWO_63
    ensures !Replaces(None, "x", env, Upload(content, env, 0, 0).offset)
  {
    hide Upload, Replaces;
    UploadSucceeds(content, env, 0, 0);
    StaleOffsetBreaks(env, |content|);
  }
}

/** upload.c with its static offset. */
module Upload {
  import opened Common
  import opened ContentRangeCodec
  import opened LogTransportModel
  import M = UploadModel

  class Uploader {
    var offset: nat
    ghost var sent: seq<Put>

    /** The program starts with the offset at 0. */
    constructor ()
      ensures offset == 0 && sent == []
    {
      offset, sent := 0, [];
    }

    /** upload_chunk: the number of bytes uploaded, or -1. */
    method UploadChunk(content: Bytes, uploaded: nat, env: M.Env) returns (ret: int)
      requires uploaded < |content|
      modifies this
      ensures env.readFails(uploaded) ==> ret == -1 && offset == old(offset) && sent == old(sent)
      ensures !env.readFails(uploaded) ==>
                var n := M.ReadSize(env, uploaded, |content|);
                && ret == (if env.sendFails(uploaded) then -1 else n)
                && offset == old(offset) + n
                && sent == old(sent) + [M.ChunkPut(content, uploaded, n, old(offset))]
    {
      if env.readFails(uploaded) {
        return -1;
      }
      var bytesRead := M.ReadSize(env, uploaded, |content|);
      var range := Print(offset, offset + bytesRead - 1, Some(|content|));
      offset := offset + bytesRead;
      sent := sent + [Put(Some(range), content[uploaded..uploaded + bytesRead])];
      ret := if env.sendFails(uploaded) then -1 else bytesRead;
    }

    /** upload_file */
    method UploadFile(content: Bytes, env: M.Env) returns (ok: bool)
      modifies this
      ensures var r := M.Upload(content, env, 0, old(offset));
              ok == r.ok && offset == r.offset && sent == old(sent) + r.puts
    {
      hide M.ReadSize, M.ChunkPut;
      var uploaded := 0;
      ghost var all := M.Upload(content, env, 0, offset);
      while uploaded < |content|
        invariant uploaded <= |content|
        invariant var r := M.Upload(content, env, uploaded, offset);
                  all.ok == r.ok && all.offset == r.offset && old(sent) + all.puts == sent + r.puts
      {
        ghost var before, at := sent, offset;
        var ret := UploadChunk(content, uploaded, env);
        if ret < 0 {
          return false;
        }
        ghost var rest := M.Upload(content, env, uploaded + ret, offset).puts;
        assert before + ([M.ChunkPut(content, uploaded, ret, at)] + rest) == sent + rest;
        uploaded := uploaded + ret;
      }
      ok := true;
    }
  }
}

/** The client's side: the files it keeps for the logs of a run. */
module LogReceiver {
  import opened Common
  import opened ContentRangeCodec
  import opened ContentRangeReader
  import opened LogTransportModel

  function FileOf(files: map<string, Bytes>, filename: string): Option<Bytes> {
    if filename in files then Some(files[filename]) else None
  }

  function Stored(files: map<string, Bytes>, filename: string, file: Option<Bytes>): map<string, Bytes> {
    match file
    case Some(f) => files[filename := f]
    case None => files - {filename}
  }

  class RunDirectory {
    var files: map<string, Bytes>

    /** truncate, where access finds the file. */
    method TruncateFile(filename: string, length: nat)
      modifies this
      ensures files == Stored(old(files), filename, TruncateIfThere(FileOf(old(files), filename), length))
    {
      if filename in files {
        files := files[filename := Truncate(files[filename], length)];
      } else {
        assert files - {filename} == files;
      }
    }

    /** update_chunk */
    method UpdateChunk(filename: string, data: Bytes, offset: int)
      modifies this
      ensures files == Stored(old(files), filename, LogTransportModel.UpdateChunk(FileOf(old(files), filename), data, offset))
    {
      if filename !in files {
        files := files[filename := []];
      }
      if offset >= 0 {
        files := files[filename := WriteAt(files[filename], data, offset)];
      }
    }

    /** The file handling of tasks_logs_cb. */
    method TasksLogsCb(filename: string, range: Option<string>, body: Bytes)
      modifies this
      ensures files == Stored(old(files), filename, Receive(FileOf(old(files), filename), Put(range, body)))
    {
      hide Parse, WriteAt, Truncate;
      var ok, start, end, total := HeadersGetContentRange(range);
      if ok {
        if !SameLength(|body|, end - start + 1) {
          SameFile(files, filename);
          return;
        }
        if total > 0 && total < end {
          SameFile(files, filename);
          return;
        }
        if total > 0 {
          TruncateFile(filename, total);
        }
        UpdateChunk(filename, body, start);
      } else {
        TruncateFile(filename, |body|);
        UpdateChunk(filename, body, 0);
      }
    }

    lemma SameFile(files: map<string, Bytes>, filename: string)
      ensures Stored(files, filename, FileOf(files, filename)) == files
    {
    }
  }
}
