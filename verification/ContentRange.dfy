/** The Content-Range header: as src/upload.c and libsoup print it and as src/client.c reads it. */
module ContentRangeCodec {
  import opened Common

  const TWO_63 := 0x8000_0000_0000_0000
  const TWO_64 := 0x1_0000_0000_0000_0000

  /** The values headers_get_content_range assigns; a total of -1 stands for `*`. */
  datatype Range = Range(start: int, end: int, total: int)

  predicate IsDigit(c: char) {
    '0' <= c <= '9'
  }

  /** g_ascii_isspace */
  predicate IsSpace(c: char) {
    c == ' ' || c == '\t' || c == '\n' || c == '\r' || c as int == 12
  }

  function DigitOf(n: nat): (c: char)
    requires n < 10
    ensures IsDigit(c) && c as int - '0' as int == n
  {
    n as char + '0'
  }

  /** A number in decimal. */
  function Digits(n: nat): (s: string)
    ensures s != []
  {
    if n < 10 then [DigitOf(n)] else Digits(n / 10) + [DigitOf(n % 10)]
  }

  function Signed(n: int): string {
    if n < 0 then "-" + Digits(-n) else Digits(n)
  }

  /** The total length of the resource, `*` where it is not known. */
  function Total(total: Option<nat>): string {
    match total
    case Some(n) => Digits(n)
    case None => "*"
  }

  /** What g_strdup_printf makes of the three numbers in upload.c, and soup_message_headers_set_content_range. */
  function Print(start: int, end: int, total: Option<nat>): string {
    "bytes " + Signed(start) + "-" + Signed(end) + "/" + Total(total)
  }

  predicate StartsWith(s: string, c: char) {
    s != [] && s[0] == c
  }

  // ---- reading ------------------------------------------------------------------------------------------

  function SkipSpaces(s: string): (r: string)
    ensures |r| <= |s|
  {
    if s != [] && IsSpace(s[0]) then SkipSpaces(s[1..]) else s
  }

  /** The number of digits that `s` starts with. */
  function DigitCount(s: string): (n: nat)
    ensures n <= |s|
  {
    if s != [] && IsDigit(s[0]) then 1 + DigitCount(s[1..]) else 0
  }

  function DigitValue(c: char): (n: nat)
    requires IsDigit(c)
    ensures n < 10 && DigitOf(n) == c
  {
    c as int - '0' as int
  }

  predicate AllDigits(s: string) {
    forall i :: 0 <= i < |s| ==> IsDigit(s[i])
  }

  /** The number that a string of digits stands for. */
  function Value(s: string): nat
    requires AllDigits(s)
  {
    if s == [] then 0 else Value(s[..|s| - 1]) * 10 + DigitValue(s[|s| - 1])
  }

  lemma {:induction false} DigitsCounted(s: string)
    ensures AllDigits(s[..DigitCount(s)])
    ensures DigitCount(s) < |s| ==> !IsDigit(s[DigitCount(s)])
    decreases |s|
  {
    if s != [] && IsDigit(s[0]) {
      DigitsCounted(s[1..]);
      assert s[..DigitCount(s)] == [s[0]] + s[1..][..DigitCount(s) - 1];
    }
  }

  function Leading(s: string): (v: nat) {
    DigitsCounted(s);
    Value(s[..DigitCount(s)])
  }

  /** g_ascii_strtoull in base 10: blanks and one sign are skipped, a number that does not fit is the
    * largest one, a minus sign negates modulo 2^64, and without a digit nothing is consumed. */
  function Strtoull(s: string): (r: (nat, string))
    ensures r.0 < TWO_64 && |r.1| <= |s|
  {
    var t := SkipSpaces(s);
    var u := if StartsWith(t, '-') || StartsWith(t, '+') then t[1..] else t;
    if DigitCount(u) == 0 then (0, s)
    else
      var n := Min(Leading(u), TWO_64 - 1);
      (if StartsWith(t, '-') then Negated(n) else n, u[DigitCount(u)..])
  }

  function Negated(n: nat): (r: nat)
    requires n < TWO_64
    ensures r < TWO_64
  {
    if n == 0 then 0 else TWO_64 - n
  }

  /** A guint64 stored in a goffset. */
  function ToOffset(n: nat): int
    requires n < TWO_64
  {
    if n < TWO_63 then n else n - TWO_64
  }

  /** The end of headers_get_content_range: the total, and nothing behind it. */
  function ParseTotal(start: int, end: int, s: string): Option<Range> {
    if StartsWith(s, '*') then
      if s[1..] == [] then Some(Range(start, end, -1)) else None
    else
      var (total, s) := Strtoull(s);
      if s == [] then Some(Range(start, end, ToOffset(total))) else None
  }

  /** headers_get_content_range, None for FALSE. */
  function Parse(header: string): Option<Range> {
    if |header| < 6 || header[..6] != "bytes " then None
    else
      var s := SkipSpaces(header[6..]);
      if s == [] || !IsDigit(s[0]) then None
      else
        var (start, s) := Strtoull(s);
        if !StartsWith(s, '-') then None
        else
          var (end, s) := Strtoull(s[1..]);
          if !StartsWith(s, '/') then None
          else ParseTotal(ToOffset(start), ToOffset(end), s[1..])
  }
}

module ContentRangeTheorems {
  import opened Common
  import opened ContentRangeCodec

  predicate NoDigitFirst(s: string) {
    s == [] || !IsDigit(s[0])
  }

  // ---- numbers ------------------------------------------------------------------------------------------

  lemma {:induction false} DigitsAreDigits(n: nat)
    ensures AllDigits(Digits(n)) && Value(Digits(n)) == n
    decreases n
  {
    if n < 10 {
      assert Digits(n)[..0] == [];
    } else {
      DigitsAreDigits(n / 10);
      assert Digits(n)[..|Digits(n)| - 1] == Digits(n / 10);
    }
  }

  lemma {:induction false} CountOf(s: string, rest: string)
    requires AllDigits(s) && NoDigitFirst(rest)
    ensures DigitCount(s + rest) == |s|
    decreases |s|
  {
    if s == [] {
      assert s + rest == rest;
    } else {
      assert (s + rest)[1..] == s[1..] + rest;
      CountOf(s[1..], rest);
    }
  }

  lemma DigitsTaken(u: string, s: string, rest: string)
    requires u == s + rest && s != [] && AllDigits(s) && NoDigitFirst(rest)
    ensures DigitCount(u) == |s| && Leading(u) == Value(s) && u[DigitCount(u)..] == rest
  {
    CountOf(s, rest);
    assert u[..|s|] == s && u[|s|..] == rest;
  }

  lemma NumberFirst(u: string, s: string, rest: string)
    requires u == s + rest && s != [] && AllDigits(s) && NoDigitFirst(rest)
    ensures Strtoull(u) == (Min(Value(s), TWO_64 - 1), rest)
  {
    DigitsTaken(u, s, rest);
    assert IsDigit(u[0]) by {
      assert u[0] == s[0];
    }
    hide Value, DigitCount, Leading;
  }

  lemma NegativeFirst(u: string, s: string, rest: string)
    requires u == "-" + (s + rest) && s != [] && AllDigits(s) && NoDigitFirst(rest)
    ensures Strtoull(u) == (Negated(Min(Value(s), TWO_64 - 1)), rest)
  {
    DigitsTaken(u[1..], s, rest);
    hide Value, DigitCount, Leading;
    assert StartsWith(u, '-');
  }

  predicate IsOffset(n: int) {
    -TWO_63 <= n < TWO_63
  }

  /** A printed goffset is read back as it was. */
  lemma OffsetFirst(u: string, n: int, rest: string)
    requires u == Signed(n) + rest && IsOffset(n) && NoDigitFirst(rest)
    ensures Strtoull(u).1 == rest && ToOffset(Strtoull(u).0) == n
  {
    if n < 0 {
      DigitsAreDigits(-n);
      assert "-" + Digits(-n) + rest == "-" + (Digits(-n) + rest);
      NegativeFirst(u, Digits(-n), rest);
    } else {
      DigitsAreDigits(n);
      NumberFirst(u, Digits(n), rest);
    }
    hide Value, Strtoull, Digits;
  }

  // ---- headers ------------------------------------------------------------------------------------------

  lemma SplitHeader(start: int, end: int, total: Option<nat>, t: string)
    ensures var h := Print(start, end, total) + t;
            && |h| >= 6 && h[..6] == "bytes "
            && h[6..] == Signed(start) + ("-" + (Signed(end) + ("/" + (Total(total) + t))))
  {
    hide Signed, Total;
    Regroup("bytes ", Signed(start), "-", Signed(end), "/", Total(total), t);
    assert Print(start, end, total) == "bytes " + Signed(start) + "-" + Signed(end) + "/" + Total(total);
  }

  lemma Regroup(a: string, b: string, c: string, d: string, e: string, f: string, g: string)
    ensures a + b + c + d + e + f + g == a + (b + (c + (d + (e + (f + g)))))
  {
  }

  lemma StartDigit(n: nat, rest: string)
    ensures var s := Signed(n) + rest; s != [] && IsDigit(s[0]) && SkipSpaces(s) == s
  {
    DigitsAreDigits(n);
    hide Digits, Value;
    assert (Signed(n) + rest)[0] == Digits(n)[0];
  }

  /** What reading a printed header comes to, whatever follows it. */
  lemma ParseFirst(start: int, end: int, total: Option<nat>, t: string)
    requires 0 <= start < TWO_63 && IsOffset(end)
    ensures Parse(Print(start, end, total) + t) == ParseTotal(start, end, Total(total) + t)
  {
    hide Strtoull, Signed, Digits, Print, Total, ParseTotal, SkipSpaces, ToOffset, IsDigit;
    var h := Print(start, end, total) + t;
    var s := Total(total) + t;
    var afterEnd := "/" + s;
    var afterStart := "-" + (Signed(end) + afterEnd);
    SplitHeader(start, end, total, t);
    StartDigit(start, afterStart);
    NoDigits(afterStart);
    NoDigits(afterEnd);
    OffsetFirst(h[6..], start, afterStart);
    OffsetFirst(afterStart[1..], end, afterEnd);
    assert afterEnd[1..] == s;
  }

  lemma NoDigits(s: string)
    ensures s != [] && (s[0] == '-' || s[0] == '/') ==> NoDigitFirst(s)
  {
  }

  lemma PrintUnknownThenParse(start: int, end: int)
    requires 0 <= start < TWO_63 && IsOffset(end)
    ensures Parse(Print(start, end, None)) == Some(Range(start, end, -1))
  {
    hide Parse, Print, Strtoull;
    ParseFirst(start, end, None, []);
    assert Print(start, end, None) + [] == Print(start, end, None);
    assert Total(None) + [] == "*";
  }

  /** Printing and reading undo each other for every start and end a file offset can have, the end of an
    * empty write at offset 0 included, and for every total below 2^63.  A larger total, which upload.c
    * can print, is not read back. */
  lemma PrintThenParse(start: int, end: int, total: Option<nat>)
    requires 0 <= start < TWO_63 && IsOffset(end)
    ensures Parse(Print(start, end, None)) == Some(Range(start, end, -1))
    ensures total.Some? ==>
              (Parse(Print(start, end, total)) == Some(Range(start, end, total.value)) <==> total.value < TWO_63)
  {
    PrintUnknownThenParse(start, end);
    if total.Some? {
      ParseFirst(start, end, total, []);
      assert Print(start, end, total) + [] == Print(start, end, total);
      DigitsAreDigits(total.value);
      NumberFirst(Digits(total.value) + [], Digits(total.value), []);
    }
  }

  lemma NextDigit(n: nat, d: nat)
    requires n > 0 && d < 10
    ensures Digits(n * 10 + d) == Digits(n) + [DigitOf(d)]
  {
  }

  lemma OneDigit(n: nat)
    requires n < 10
    ensures Digits(n) == ["0123456789"[n]]
  {
  }

  lemma SomeDigits()
    ensures Digits(0) == "0" && Digits(1023) == "1023" && Digits(4096) == "4096"
  {
    hide Digits, DigitOf;
    OneDigit(0);
    OneDigit(1);
    NextDigit(1, 0);
    NextDigit(10, 2);
    NextDigit(102, 3);
    OneDigit(4);
    NextDigit(4, 0);
    NextDigit(40, 9);
    NextDigit(409, 6);
    assert DigitOf(0) == '0' && DigitOf(2) == '2' && DigitOf(3) == '3' && DigitOf(9) == '9' && DigitOf(6) == '6' by {
      DigitsAre();
    }
  }

  lemma DigitsAre()
    ensures DigitOf(0) == '0' && DigitOf(2) == '2' && DigitOf(3) == '3' && DigitOf(9) == '9' && DigitOf(6) == '6'
  {
  }

  /** A header as it goes over the wire. */
  lemma PrintedHeader()
    ensures Print(0, 1023, Some(4096)) == "bytes 0-1023/4096" && Print(0, 1023, None) == "bytes 0-1023/*"
    ensures Parse("bytes 0-1023/4096") == Some(Range(0, 1023, 4096)) && Parse("bytes 0-1023/*") == Some(Range(0, 1023, -1))
  {
    hide Parse, Digits;
    SomeDigits();
    PrintThenParse(0, 1023, Some(4096));
  }

  /** Blanks in front of the start are skipped: tabs, newlines, form feeds, carriage returns and spaces, and no other
    * character. */
  lemma LeadingBlanks(c: char, rest: string)
    ensures c as int in {9, 10, 12, 13, 32} ==> Parse("bytes " + [c] + rest) == Parse("bytes " + rest)
    ensures c as int !in {9, 10, 12, 13, 32} && !('0' <= c <= '9') ==> Parse("bytes " + [c] + rest) == None
  {
    var h := "bytes " + [c] + rest;
    assert h[..6] == "bytes " && h[6..] == [c] + rest && (h[6..])[1..] == rest;
    assert ("bytes " + rest)[..6] == "bytes " && ("bytes " + rest)[6..] == rest;
    assert '\t' as int == 9 && '\n' as int == 10 && '\r' as int == 13 && ' ' as int == 32;
    hide Strtoull, ParseTotal, ToOffset;
  }

  /** A header whose start has been read, up to the minus sign. */
  lemma StartRead(start: nat, s: string)
    requires start < TWO_63
    ensures var (end, rest) := Strtoull(s);
            Parse("bytes " + Digits(start) + ("-" + s))
              == if StartsWith(rest, '/') then ParseTotal(start, ToOffset(end), rest[1..]) else None
  {
    hide Strtoull, Signed, Digits, ParseTotal, SkipSpaces, ToOffset, IsDigit;
    var h := "bytes " + Digits(start) + ("-" + s);
    assert h[..6] == "bytes " && h[6..] == Digits(start) + ("-" + s);
    StartIsNumber(start, "-" + s);
    assert ("-" + s)[1..] == s;
  }

  lemma StartIsNumber(start: nat, rest: string)
    requires start < TWO_63 && rest != [] && rest[0] == '-'
    ensures var s := Digits(start) + rest;
            && s != [] && IsDigit(s[0]) && SkipSpaces(s) == s
            && Strtoull(s).1 == rest && ToOffset(Strtoull(s).0) == start
  {
    hide Strtoull, Digits, SkipSpaces, ToOffset, IsDigit;
    NoDigits(rest);
    StartDigit(start, rest);
    OffsetFirst(Digits(start) + rest, start, rest);
  }

  lemma NoNumber(c: char, rest: string)
    requires c in "/+- \t\n\r" && (c != '/' ==> rest != [] && rest[0] == '/')
    ensures Strtoull([c] + rest) == (0, [c] + rest)
  {
    var s := [c] + rest;
    assert s[1..] == rest;
    if rest != [] && rest[0] == '/' {
      assert SkipSpaces(rest) == rest && DigitCount(rest) == 0;
    }
  }

  /** A missing end is read as 0 and a missing total as 0, but a blank or a sign without a number is refused. */
  lemma MissingNumbers(start: nat, end: nat, t: string, c: char)
    requires start < TWO_63 && end < TWO_63
    ensures Parse("bytes " + Digits(start) + ("-" + ("/" + t))) == ParseTotal(start, 0, t)
    ensures Parse("bytes " + Digits(start) + ("-" + (Digits(end) + "/"))) == Some(Range(start, end, 0))
    ensures c in "+- \t\n\r" ==> Parse("bytes " + Digits(start) + ("-" + ([c] + ("/" + t)))) == None
  {
    hide Strtoull, Digits, Parse, IsDigit, SkipSpaces, ToOffset, ParseTotal;
    StartRead(start, "/" + t);
    NoNumber('/', t);
    assert ("/" + t)[1..] == t && ToOffset(0) == 0 by {
      ZeroOffset();
    }
    StartRead(start, Digits(end) + "/");
    EndIsNumber(end);
    assert "/"[1..] == "";
    NoTotal(start, end);
    if c in "+- \t\n\r" {
      BareBlank(start, c, t);
    }
  }

  lemma BareBlank(start: nat, c: char, t: string)
    requires start < TWO_63 && c in "+- \t\n\r"
    ensures Parse("bytes " + Digits(start) + ("-" + ([c] + ("/" + t)))) == None
  {
    hide Strtoull, Digits, Parse, IsDigit, SkipSpaces, ToOffset, ParseTotal;
    var s := [c] + ("/" + t);
    StartRead(start, s);
    NoNumber(c, "/" + t);
    assert Strtoull(s).1 == s && s[0] == c && c != '/';
    assert !StartsWith(Strtoull(s).1, '/');
  }

  lemma ZeroOffset()
    ensures ToOffset(0) == 0
  {
  }

  lemma EndIsNumber(end: nat)
    requires end < TWO_63
    ensures Strtoull(Digits(end) + "/").1 == "/" && ToOffset(Strtoull(Digits(end) + "/").0) == end
  {
    hide Strtoull, Digits, ToOffset;
    NoDigits("/");
    OffsetFirst(Digits(end) + "/", end, "/");
  }

  lemma NoTotal(start: int, end: int)
    ensures ParseTotal(start, end, []) == Some(Range(start, end, 0))
  {
  }

  /** A negated zero is zero. */
  lemma NegativeZero()
    ensures Strtoull("-0").0 == 0 && Strtoull("-1").0 == 0xFFFF_FFFF_FFFF_FFFF
  {
    NegativeFirst("-0", "0", []);
    NegativeFirst("-1", "1", []);
    assert "-" + ("0" + []) == "-0" && "-" + ("1" + []) == "-1";
    assert Value("0") == 0 && Value("1") == 1;
  }

  lemma DigitsGrow(s: string, t: string)
    requires s != [] && AllDigits(s) && AllDigits(t)
    ensures Strtoull(s + t).1 == []
  {
    assert AllDigits(s + t);
    NumberFirst(s + t, s + t, []);
  }

  lemma {:induction false} DigitsStop(s: string, t: string) returns (n: nat)
    requires AllDigits(s) && !AllDigits(t)
    ensures n < |t| && !IsDigit(t[n]) && AllDigits(s + t[..n]) && s + t == (s + t[..n]) + t[n..]
    decreases |t|
  {
    if !IsDigit(t[0]) {
      n := 0;
    } else {
      assert t == [t[0]] + t[1..];
      var m := DigitsStop(s + [t[0]], t[1..]);
      n := m + 1;
      assert t[..n] == [t[0]] + t[1..][..m];
      assert s + t[..n] == s + [t[0]] + t[1..][..m];
    }
  }

  /** Trailing characters are rejected, unless they are further digits of the total. */
  lemma TrailingCharacters(start: int, end: int, total: Option<nat>, t: string)
    requires 0 <= start < TWO_63 && IsOffset(end) && t != []
    ensures Parse(Print(start, end, total) + t).Some? <==> total.Some? && AllDigits(t)
  {
    ParseFirst(start, end, total, t);
    match total {
      case None =>
        assert (Total(total) + t)[1..] == t;
      case Some(n) =>
        DigitsAreDigits(n);
        assert Total(total) == Digits(n) && (Digits(n) + t)[0] == Digits(n)[0];
        if AllDigits(t) {
          DigitsGrow(Digits(n), t);
        } else {
          var k := DigitsStop(Digits(n), t);
          NumberFirst(Digits(n) + t, Digits(n) + t[..k], t[k..]);
        }
    }
  }
}

/** headers_get_content_range with its pointer into the header. */
module ContentRangeReader {
  import opened Common
  import opened ContentRangeCodec

  /** g_ascii_strtoull: the value of the number at `p` and the position behind it. */
  method AsciiStrtoull(s: string, p: nat) returns (value: nat, q: nat)
    requires p <= |s|
    ensures p <= q <= |s| && (value, s[q..]) == Strtoull(s[p..])
  {
    hide SkipSpaces, DigitCount, Leading;
    var i := SkipBlanks(s, p);
    var negative := false;
    if i < |s| && (s[i] == '-' || s[i] == '+') {
      negative := s[i] == '-';
      i := i + 1;
    }
    var first := i;
    value, i := ReadDigits(s, i);
    if i == first {
      return 0, p;
    }
    value := Min(value, TWO_64 - 1);
    if negative {
      value := Negated(value);
    }
    q := i;
  }

  method SkipBlanks(s: string, p: nat) returns (q: nat)
    requires p <= |s|
    ensures p <= q <= |s| && s[q..] == SkipSpaces(s[p..])
  {
    q := p;
    while q < |s| && IsSpace(s[q])
      invariant p <= q <= |s| && SkipSpaces(s[q..]) == SkipSpaces(s[p..])
    {
      q := q + 1;
    }
  }

  lemma DigitsFound(s: string, p: nat, q: nat)
    requires p <= q <= |s| && AllDigits(s[p..q])
    requires q == |s| || !IsDigit(s[q])
    ensures DigitCount(s[p..]) == q - p
    decreases q - p
  {
    if p < q {
      assert s[p] == s[p..q][0] && s[p + 1..q] == s[p..q][1..];
      DigitsFound(s, p + 1, q);
      assert s[p..][1..] == s[p + 1..];
    }
  }

  /** The digits at `p`, without the overflow that the caller deals with. */
  method ReadDigits(s: string, p: nat) returns (value: nat, q: nat)
    requires p <= |s|
    ensures p <= q <= |s| && q - p == DigitCount(s[p..]) && value == Leading(s[p..])
  {
    value, q := 0, p;
    while q < |s| && IsDigit(s[q])
      invariant p <= q <= |s| && AllDigits(s[p..q]) && value == Value(s[p..q])
    {
      assert s[p..q + 1][..q - p] == s[p..q];
      value := value * 10 + DigitValue(s[q]);
      q := q + 1;
    }
    DigitsFound(s, p, q);
    assert s[p..][..q - p] == s[p..q];
  }

  /** headers_get_content_range; the header is None where the request has none. */
  method HeadersGetContentRange(header: Option<string>) returns (ok: bool, start: int, end: int, total: int)
    ensures header.None? ==> !ok
    ensures header.Some? ==> ok == Parse(header.value).Some?
    ensures ok ==> Parse(header.value) == Some(Range(start, end, total))
  {
    hide Strtoull, SkipSpaces, ToOffset, ParseTotal;
    ok, start, end, total := false, 0, 0, 0;
    if header.None? || |header.value| < 6 || header.value[..6] != "bytes " {
      return;
    }
    var s := header.value;
    var p := SkipBlanks(s, 6);
    if p == |s| || !IsDigit(s[p]) {
      return;
    }
    var value;
    value, p := AsciiStrtoull(s, p);
    start := ToOffset(value);
    if p == |s| || s[p] != '-' {
      return;
    }
    assert s[p..][1..] == s[p + 1..];
    value, p := AsciiStrtoull(s, p + 1);
    end := ToOffset(value);
    if p == |s| || s[p] != '/' {
      return;
    }
    assert s[p..][1..] == s[p + 1..];
    ok, total := ReadTotal(start, end, s, p + 1);
  }

  method ReadTotal(ghost start: int, ghost end: int, s: string, p: nat) returns (ok: bool, total: int)
    requires p <= |s|
    ensures ok == ParseTotal(start, end, s[p..]).Some?
    ensures ok ==> ParseTotal(start, end, s[p..]) == Some(Range(start, end, total))
  {
    var q := p;
    if q < |s| && s[q] == '*' {
      total := -1;
      q := q + 1;
    } else {
      var value;
      value, q := AsciiStrtoull(s, q);
      total := ToOffset(value);
    }
    ok := q == |s|;
  }
}
