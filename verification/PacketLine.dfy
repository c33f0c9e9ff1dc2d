/** The pkt-line framing that src/fetch_git.c uses towards the git daemon. */
module PacketLineModel {
  import opened Common

  const HDR_LEN_SIZE := 4
  const LARGE_PACKET_MAX := 65520

  /** g_ascii_xdigit_value */
  function XDigitValue(c: char): (v: int)
    ensures -1 <= v < 16
  {
    if '0' <= c <= '9' then c as int - '0' as int
    else if 'a' <= c <= 'f' then c as int - 'a' as int + 10
    else if 'A' <= c <= 'F' then c as int - 'A' as int + 10
    else -1
  }

  /** The value of hexadecimal digits, -1 if one of them is none. */
  function HexValue(s: string): int {
    if s == [] then 0
    else
      var front, v := HexValue(s[..|s| - 1]), XDigitValue(s[|s| - 1]);
      if front < 0 || v < 0 then -1 else front * 16 + v
  }

  function HexDigit(n: nat): char
    requires n < 16
  {
    if n < 10 then n as char + '0' else (n - 10) as char + 'a'
  }

  /** "%04x" for a number that needs no more than four digits. */
  function Header(n: nat): (s: string)
    requires n < 0x1_0000
    ensures |s| == HDR_LEN_SIZE
  {
    [HexDigit(n / 0x1000), HexDigit(n / 0x100 % 16), HexDigit(n / 16 % 16), HexDigit(n % 16)]
  }

  /** packet_write: the bytes written, None for a line that is impossibly long. */
  function Written(payload: string): Option<string> {
    if |payload| + HDR_LEN_SIZE >= 0x1_0000 then None else Some(Header(|payload| + HDR_LEN_SIZE) + payload)
  }

  /** A packet_read_line that succeeds yields its data, none for a flush packet, and leaves the rest of
    * the stream. */
  datatype Line = Data(data: string, rest: string) | HungUp | ProtocolError

  /** packet_read_line with a buffer of `size` bytes. */
  function ReadLine(stream: string, size: nat): Line {
    if |stream| < HDR_LEN_SIZE then HungUp
    else
      var len := HexValue(stream[..HDR_LEN_SIZE]);
      var rest := stream[HDR_LEN_SIZE..];
      if len < 0 then ProtocolError
      else if len == 0 then Data("", rest)
      else if len < 4 || len - 4 >= size then ProtocolError
      else if |rest| < len - 4 then HungUp
      else Data(rest[..len - 4], rest[len - 4..])
  }

  /** What a reader that goes on until it is given no data gets. */
  function ReadLines(stream: string, size: nat): seq<string>
    decreases |stream|
  {
    match ReadLine(stream, size)
    case Data(data, rest) => if data == "" then [] else [data] + ReadLines(rest, size)
    case _ => []
  }

  /** The packets for all of `payloads`, each of which can be written, and a flush packet. */
  function WrittenLines(payloads: seq<string>): string
    requires forall i :: 0 <= i < |payloads| ==> Written(payloads[i]).Some?
  {
    if payloads == [] then "0000" else Written(payloads[0]).value + WrittenLines(payloads[1..])
  }
}

module PacketLineTheorems {
  import opened Common
  import opened PacketLineModel

  lemma DigitRoundTrip(n: nat)
    requires n < 16
    ensures XDigitValue(HexDigit(n)) == n
  {
  }

  /** The characters that are digits, and what they stand for. */
  lemma DigitsOfEitherCase(v: nat, c: char)
    requires v < 16
    ensures XDigitValue("0123456789abcdef"[v]) == v && XDigitValue("0123456789ABCDEF"[v]) == v
    ensures XDigitValue(c) == v <==> c == "0123456789abcdef"[v] || c == "0123456789ABCDEF"[v]
    ensures XDigitValue(c) == -1 <==> c !in "0123456789abcdefABCDEF"
  {
    assert forall d :: d in "0123456789abcdefABCDEF" <==> '0' <= d <= '9' || 'a' <= d <= 'f' || 'A' <= d <= 'F';
  }

  /** Four digits stand for their base-16 value, upper and lower case alike; any other character is an
    * error. */
  lemma FourDigits(s: string)
    requires |s| == 4
    ensures var a, b, c, d := XDigitValue(s[0]), XDigitValue(s[1]), XDigitValue(s[2]), XDigitValue(s[3]);
            HexValue(s) == if a < 0 || b < 0 || c < 0 || d < 0 then -1 else ((a * 16 + b) * 16 + c) * 16 + d
  {
    hide XDigitValue;
    OneDigit(s);
    OneDigit(s[..3]);
    OneDigit(s[..2]);
    OneDigit(s[..1]);
    assert s[..3][..2] == s[..2] && s[..2][..1] == s[..1] && s[..1][..0] == [];
  }

  lemma OneDigit(s: string)
    requires s != []
    ensures var front, v := HexValue(s[..|s| - 1]), XDigitValue(s[|s| - 1]);
            HexValue(s) == if front < 0 || v < 0 then -1 else front * 16 + v
    ensures HexValue("") == 0
  {
  }

  lemma Base16(n: nat)
    ensures n == ((n / 0x1000 * 16 + n / 0x100 % 16) * 16 + n / 16 % 16) * 16 + n % 16
  {
    assert n / 0x100 == n / 16 / 16 && n / 0x1000 == n / 0x100 / 16;
  }

  /** A printed header is read back as the number it was printed from. */
  lemma HeaderRoundTrip(n: nat)
    requires n < 0x1_0000
    ensures HexValue(Header(n)) == n
  {
    hide HexValue, XDigitValue, HexDigit;
    Base16(n);
    FourDigits(Header(n));
    DigitRoundTrip(n / 0x1000);
    DigitRoundTrip(n / 0x100 % 16);
    DigitRoundTrip(n / 16 % 16);
    DigitRoundTrip(n % 16);
  }

  /** One packet is read back exactly if it leaves room for the terminator in the reader's buffer. */
  lemma PacketRoundTrip(payload: string, rest: string, size: nat)
    requires Written(payload).Some?
    ensures ReadLine(Written(payload).value + rest, size)
         == if |payload| < size then Data(payload, rest) else ProtocolError
  {
    hide HexValue, Header;
    var n := |payload| + HDR_LEN_SIZE;
    HeaderRoundTrip(n);
    Parts(Header(n), payload, rest);
  }

  /** What the reader makes of any stream: four zeros are a flush packet and yield no data; a header with a
    * character that is no digit, one below 4 and one whose payload does not fit the buffer are protocol errors;
    * and a stream that ends within the header or the payload is one that hung up. */
  lemma EveryStream(stream: string, size: nat)
    ensures |stream| < 4 ==> ReadLine(stream, size) == HungUp
    ensures |stream| >= 4 ==>
              var header, rest := stream[..4], stream[4..];
              var digits := forall i :: 0 <= i < 4 ==> header[i] in "0123456789abcdefABCDEF";
              && (!digits ==> ReadLine(stream, size) == ProtocolError)
              && (header == "0000" ==> ReadLine(stream, size) == Data("", rest))
              && (header in ["0001", "0002", "0003"] ==> ReadLine(stream, size) == ProtocolError)
              && (digits && header !in ["0000", "0001", "0002", "0003"] ==>
                    var n := HexValue(header) - 4;
                    && n >= 0
                    && ReadLine(stream, size) == if n >= size then ProtocolError
                                                 else if |rest| < n then HungUp
                                                 else Data(rest[..n], rest[n..]))
  {
    if |stream| >= 4 {
      HeaderValues(stream[..4]);
      hide HexValue;
    }
  }

  lemma HeaderValues(header: string)
    requires |header| == 4
    ensures (forall i :: 0 <= i < 4 ==> header[i] in "0123456789abcdefABCDEF") <==> HexValue(header) >= 0
    ensures HexValue(header) == 0 <==> header == "0000"
    ensures HexValue(header) == 1 <==> header == "0001"
    ensures HexValue(header) == 2 <==> header == "0002"
    ensures HexValue(header) == 3 <==> header == "0003"
  {
    hide HexValue, XDigitValue;
    FourDigits(header);
    SmallDigit(header[0]);
    SmallDigit(header[1]);
    SmallDigit(header[2]);
    SmallDigit(header[3]);
    assert header == [header[0], header[1], header[2], header[3]];
  }

  lemma SmallDigit(c: char)
    ensures XDigitValue(c) >= 0 <==> c in "0123456789abcdefABCDEF"
    ensures -1 <= XDigitValue(c) < 16
    ensures XDigitValue(c) == 0 <==> c == '0'
    ensures XDigitValue(c) == 1 <==> c == '1'
    ensures XDigitValue(c) == 2 <==> c == '2'
    ensures XDigitValue(c) == 3 <==> c == '3'
  {
    DigitsOfEitherCase(0, c);
  }

  lemma Parts(header: string, payload: string, rest: string)
    ensures var s := header + payload + rest;
            && s[..|header|] == header && s[|header|..] == payload + rest
            && (payload + rest)[..|payload|] == payload && (payload + rest)[|payload|..] == rest
  {
  }

  /** A payload that the reader of an archive gets whole: any that is not empty and fits its buffer. */
  predicate Readable(payload: string) {
    1 <= |payload| < LARGE_PACKET_MAX
  }

  predicate AllReadable(payloads: seq<string>) {
    forall i :: 0 <= i < |payloads| ==> Readable(payloads[i])
  }

  predicate AllWritten(payloads: seq<string>) {
    forall i :: 0 <= i < |payloads| ==> Written(payloads[i]).Some?
  }

  lemma FirstLine(payloads: seq<string>)
    requires payloads != [] && AllWritten(payloads)
    ensures var p := payloads[0]; var rest := WrittenLines(payloads[1..]);
            ReadLines(WrittenLines(payloads), LARGE_PACKET_MAX)
              == if Readable(p) then [p] + ReadLines(rest, LARGE_PACKET_MAX) else []
  {
    hide ReadLine, Written;
    PacketRoundTrip(payloads[0], WrittenLines(payloads[1..]), LARGE_PACKET_MAX);
  }

  lemma FlushEnds()
    ensures ReadLines("0000", LARGE_PACKET_MAX) == []
  {
    hide HexValue;
    FourDigits("0000");
  }

  /** A stream of packets that end with a flush is read back as it was written if and only if every payload
    * has 1 to 65519 bytes: the writer also writes an empty one, which the reader takes for a flush, and
    * ones of up to 65531 bytes, which it refuses. */
  lemma {:induction false} StreamRoundTrip(payloads: seq<string>)
    requires AllWritten(payloads)
    ensures ReadLines(WrittenLines(payloads), LARGE_PACKET_MAX) == payloads <==> AllReadable(payloads)
    decreases |payloads|
  {
    hide ReadLines, WrittenLines, Written, Readable;
    if payloads == [] {
      assert WrittenLines(payloads) == "0000" by {
        NoLines();
      }
      FlushEnds();
    } else {
      var rest := payloads[1..];
      FirstLine(payloads);
      StreamRoundTrip(rest);
      SplitReadable(payloads);
      assert payloads == [payloads[0]] + rest;
    }
  }

  lemma NoLines()
    ensures WrittenLines([]) == "0000"
  {
  }

  lemma SplitReadable(payloads: seq<string>)
    requires payloads != []
    ensures AllReadable(payloads) <==> Readable(payloads[0]) && AllReadable(payloads[1..])
  {
    hide Readable;
    forall i | 0 <= i < |payloads| && Readable(payloads[0]) && AllReadable(payloads[1..]) ensures Readable(payloads[i]) {
      assert i > 0 ==> payloads[i] == payloads[1..][i - 1];
    }
  }

  /** The writer takes payloads of up to 65531 bytes, and the reader of an archive refuses the packets of the 12
    * longest lengths, whatever follows them. */
  lemma WriterOutrunsReader(payload: string, rest: string)
    ensures Written(payload).Some? <==> |payload| <= 65531
    ensures Written(payload).Some? ==>
              (ReadLine(Written(payload).value + rest, LARGE_PACKET_MAX) == ProtocolError <==> |payload| >= 65520)
  {
    hide ReadLine, HexValue;
    if Written(payload).Some? {
      PacketRoundTrip(payload, rest, LARGE_PACKET_MAX);
    }
  }
}

/** The reader and the writer over streams of bytes. */
module PacketLine {
  import opened Common
  import M = PacketLineModel

  datatype Status = Success | HangUp | BadLine

  /** packet_length */
  method PacketLength(linelen: string) returns (len: int)
    requires |linelen| == M.HDR_LEN_SIZE
    ensures len == M.HexValue(linelen)
  {
    len := 0;
    var n := 0;
    while n < M.HDR_LEN_SIZE
      invariant 0 <= n <= M.HDR_LEN_SIZE && len == M.HexValue(linelen[..n]) && len >= 0
    {
      var val := M.XDigitValue(linelen[n]);
      assert linelen[..n + 1][..n] == linelen[..n];
      if val < 0 {
        BadPrefix(linelen, n + 1);
        return -1;
      }
      len := len * 16 + val;
      n := n + 1;
    }
    assert linelen[..n] == linelen;
  }

  lemma {:induction false} BadPrefix(s: string, n: nat)
    requires n <= |s| && M.HexValue(s[..n]) < 0
    ensures M.HexValue(s) == -1
    decreases |s| - n
  {
    if n < |s| {
      assert s[..n + 1][..n] == s[..n];
      BadPrefix(s, n + 1);
    } else {
      assert s[..n] == s;
      NeverBelow(s);
    }
  }

  lemma {:induction false} NeverBelow(s: string)
    ensures M.HexValue(s) >= -1
    decreases |s|
  {
    if s != [] {
      NeverBelow(s[..|s| - 1]);
    }
  }

  /** A git daemon's output that has not been read yet. */
  class InputStream {
    var pending: string

    constructor (s: string)
      ensures pending == s
    {
      pending := s;
    }

    /** g_input_stream_read_all: fills the buffer with what there is, at most `count` bytes. */
    method ReadAll(buffer: array<char>, count: nat) returns (bytesRead: nat)
      requires count <= buffer.Length
      modifies this, buffer
      ensures bytesRead == Min(count, |old(pending)|)
      ensures buffer[..bytesRead] == old(pending)[..bytesRead] && pending == old(pending)[bytesRead..]
      ensures buffer[bytesRead..] == old(buffer[bytesRead..])
    {
      bytesRead := 0;
      while bytesRead < count && pending != []
        invariant 0 <= bytesRead <= count && bytesRead <= |old(pending)|
        invariant pending == old(pending)[bytesRead..]
        invariant forall i :: 0 <= i < bytesRead ==> buffer[i] == old(pending)[i]
        invariant forall i :: bytesRead <= i < buffer.Length ==> buffer[i] == old(buffer[i])
      {
        buffer[bytesRead] := pending[0];
        pending := pending[1..];
        bytesRead := bytesRead + 1;
      }
    }
  }

  /** packet_read_line: the data ends up at the front of the buffer, with a terminator behind it, and
    * nothing else in the buffer changes; Dafny checks that no store falls outside it. */
  method PacketReadLine(istream: InputStream, buffer: array<char>) returns (status: Status, sizeOut: nat)
    modifies istream, buffer
    ensures match M.ReadLine(old(istream.pending), buffer.Length)
            case Data(data, rest) =>
              && status == Success && sizeOut == |data| && istream.pending == rest
              && sizeOut < Max(1, buffer.Length)
              && (sizeOut > 0 ==> buffer[..sizeOut + 1] == data + ['\0'] && buffer[sizeOut + 1..] == old(buffer[sizeOut + 1..]))
            case HungUp => status == HangUp
            case ProtocolError => status == BadLine && buffer[..] == old(buffer[..])
  {
    sizeOut := 0;
    var linelen := new char[M.HDR_LEN_SIZE](_ => '\0');
    var bytesRead := istream.ReadAll(linelen, M.HDR_LEN_SIZE);
    if bytesRead < M.HDR_LEN_SIZE {
      return HangUp, 0;
    }
    assert linelen[..] == linelen[..bytesRead];
    var len := PacketLength(linelen[..]);
    if len < 0 {
      return BadLine, 0;
    }
    if len == 0 {
      return Success, 0;
    }
    len := len - 4;
    if len < 0 || len >= buffer.Length {
      return BadLine, 0;
    }
    status, sizeOut := ReadData(istream, buffer, len);
  }

  /** The second half of packet_read_line: `len` bytes of data and the terminator. */
  method ReadData(istream: InputStream, buffer: array<char>, len: nat) returns (status: Status, sizeOut: nat)
    requires len < buffer.Length
    modifies istream, buffer
    ensures if |old(istream.pending)| < len then status == HangUp
            else
              && status == Success && sizeOut == len && istream.pending == old(istream.pending)[len..]
              && buffer[..len + 1] == old(istream.pending)[..len] + ['\0']
              && buffer[len + 1..] == old(buffer[len + 1..])
  {
    var bytesRead := istream.ReadAll(buffer, len);
    if bytesRead < len {
      return HangUp, 0;
    }
    ghost var data, behind := buffer[..len], buffer[len..];
    buffer[len] := '\0';
    assert buffer[..len] == data;
    assert buffer[..len + 1] == buffer[..len] + [buffer[len]];
    assert buffer[len + 1..] == behind[1..];
    return Success, len;
  }

  /** packet_write: what goes to the output stream. */
  method PacketWrite(payload: string) returns (ok: bool, bytes: string)
    ensures ok == M.Written(payload).Some?
    ensures ok ==> Some(bytes) == M.Written(payload)
  {
    var n := |payload| + M.HDR_LEN_SIZE;
    if n >= 0x1_0000 {
      return false, "";
    }
    bytes := M.Header(n);
    bytes := bytes + payload;
    ok := true;
  }
}
