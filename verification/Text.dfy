/** Strings as the operator builds and reads them: decimal names, comma lists, line splitting, substring counting. */
module Text {

  /* ---------- Decimal rendering: %d and strconv.Itoa ---------- */

  function Digit(d: nat): char
    requires d < 10
  {
    '0' + d as char
  }

  predicate IsDigit(c: char) {
    '0' <= c <= '9'
  }

  /** Base-ten text of a non-negative number, without leading zeros. */
  function Dec(n: nat): string {
    if n < 10 then [Digit(n)] else Dec(n / 10) + [Digit(n % 10)]
  }

  /** The number a run of digits denotes. */
  function Undec(s: string): nat {
    if s == "" then 0
    else Undec(s[..|s| - 1]) * 10 + if IsDigit(s[|s| - 1]) then (s[|s| - 1] - '0') as nat else 0
  }

  lemma {:induction false} UndecDec(n: nat)
    ensures Undec(Dec(n)) == n
  {
    var s := Dec(n);
    if n < 10 {
      assert s[..|s| - 1] == "";
    } else {
      UndecDec(n / 10);
      assert s[..|s| - 1] == Dec(n / 10);
    }
  }

  lemma {:induction false} DecDigits(n: nat)
    ensures |Dec(n)| >= 1
    ensures forall c :: c in Dec(n) ==> IsDigit(c)
  {
    if n >= 10 {
      DecDigits(n / 10);
    }
  }

  lemma {:induction false} DecPlain(n: nat)
    ensures n > 0 ==> Dec(n)[0] != '0'
    ensures n == 0 ==> Dec(n) == "0"
  {
    if n >= 10 {
      DecPlain(n / 10);
      DecDigits(n / 10);
    }
  }

  /** Numbered names are injective: project 1 and project 10 never share a name. */
  lemma NumberedInjective(base: string, i: nat, j: nat)
    ensures base + Dec(i) == base + Dec(j) <==> i == j
  {
    if base + Dec(i) == base + Dec(j) {
      assert (base + Dec(i))[|base|..] == Dec(i);
      assert (base + Dec(j))[|base|..] == Dec(j);
      UndecDec(i);
      UndecDec(j);
    }
  }

  /** Separating digits from what follows: a non-digit mark ends the number. */
  lemma {:induction false} DigitsThenMark(a: string, b: string, mark: char, x: string, y: string)
    requires forall c :: c in a ==> IsDigit(c)
    requires forall c :: c in b ==> IsDigit(c)
    requires !IsDigit(mark)
    requires a + [mark] + x == b + [mark] + y
    ensures a == b && x == y
  {
    var s, t := a + [mark] + x, b + [mark] + y;
    assert s[|a|] == mark && t[|b|] == mark;
    assert forall i :: 0 <= i < |a| ==> s[i] == a[i] && a[i] in a;
    assert forall i :: 0 <= i < |b| ==> t[i] == b[i] && b[i] in b;
    assert |a| == |b|;
    assert a == s[..|a|] && b == t[..|b|];
    assert x == s[|a| + 1..] && y == t[|b| + 1..];
  }

  /** A name that does not end in a digit is never a numbered name. */
  lemma NotNumbered(name: string, base: string, i: nat)
    requires name != "" && !IsDigit(name[|name| - 1])
    ensures name != base + Dec(i)
  {
    DecDigits(i);
    var s := base + Dec(i);
    assert s[|s| - 1] == Dec(i)[|Dec(i)| - 1];
    assert s[|s| - 1] in Dec(i);
  }

  /* ---------- Separated text ---------- */

  function Split(s: string, sep: char): (parts: seq<string>)
    ensures |parts| >= 1
  {
    if s == "" then [""]
    else
      var rest := Split(s[1..], sep);
      if s[0] == sep then [""] + rest
      else [[s[0]] + rest[0]] + rest[1..]
  }

  function Join(parts: seq<string>, sep: char): string {
    if parts == [] then ""
    else if |parts| == 1 then parts[0]
    else Join(parts[..|parts| - 1], sep) + [sep] + parts[|parts| - 1]
  }

  lemma {:induction false} SplitFree(p: string, sep: char)
    requires sep !in p
    ensures Split(p, sep) == [p]
  {
    if p != "" {
      SplitFree(p[1..], sep);
      assert p == [p[0]] + p[1..];
    }
  }

  /** A separator-free piece in front of the separator is one part of its own. */
  lemma {:induction false} SplitHead(p: string, sep: char, rest: string)
    requires sep !in p
    ensures Split(p + [sep] + rest, sep) == [p] + Split(rest, sep)
  {
    var s := p + [sep] + rest;
    if p == "" {
      assert s[1..] == rest;
    } else {
      SplitHead(p[1..], sep, rest);
      assert s[1..] == p[1..] + [sep] + rest;
      assert p == [p[0]] + p[1..];
    }
  }

  lemma {:induction false} SplitTail(front: string, sep: char, p: string)
    requires sep !in p
    ensures Split(front + [sep] + p, sep) == Split(front, sep) + [p]
  {
    var s := front + [sep] + p;
    if front == "" {
      assert s[1..] == p;
      SplitFree(p, sep);
    } else {
      SplitTail(front[1..], sep, p);
      assert s[1..] == front[1..] + [sep] + p;
    }
  }

  /** Round trip of a separated list whose parts do not contain the separator. */
  lemma {:induction false} SplitJoin(parts: seq<string>, sep: char)
    requires |parts| >= 1
    requires forall p :: p in parts ==> sep !in p
    ensures Split(Join(parts, sep), sep) == parts
  {
    var last := parts[|parts| - 1];
    if |parts| == 1 {
      SplitFree(last, sep);
    } else {
      var front := parts[..|parts| - 1];
      SplitJoin(front, sep);
      SplitTail(Join(front, sep), sep, last);
      assert parts == front + [last];
    }
  }

  /* ---------- url.QueryEscape ---------- */

  predicate Unreserved(c: char) {
    IsDigit(c) || 'a' <= c <= 'z' || 'A' <= c <= 'Z' || c in "-_.~"
  }

  const HEX := "0123456789ABCDEF"

  function Hex(d: nat): char
    requires d < 16
  {
    HEX[d]
  }

  /** The UTF-8 bytes of a character. */
  function Utf8(c: char): (bytes: seq<nat>)
    ensures forall i :: 0 <= i < |bytes| ==> bytes[i] < 256
  {
    var n := c as int;
    if n < 0x80 then [n]
    else if n < 0x800 then [0xC0 + n / 0x40, 0x80 + n % 0x40]
    else if n < 0x1_0000 then [0xE0 + n / 0x1000, 0x80 + n / 0x40 % 0x40, 0x80 + n % 0x40]
    else [0xF0 + n / 0x4_0000, 0x80 + n / 0x1000 % 0x40, 0x80 + n / 0x40 % 0x40, 0x80 + n % 0x40]
  }

  function Bytes(s: string): seq<nat> {
    if s == "" then [] else Utf8(s[0]) + Bytes(s[1..])
  }

  function EscapeByte(b: nat): string
    requires b < 256
  {
    ['%', Hex(b / 16), Hex(b % 16)]
  }

  function EscapeBytes(bytes: seq<nat>): string
    requires forall i :: 0 <= i < |bytes| ==> bytes[i] < 256
  {
    if bytes == [] then "" else EscapeByte(bytes[0]) + EscapeBytes(bytes[1..])
  }

  function EscapeChar(c: char): string {
    if c == ' ' then "+" else if Unreserved(c) then [c] else EscapeBytes(Utf8(c))
  }

  function QueryEscape(s: string): string {
    if s == "" then "" else EscapeChar(s[0]) + QueryEscape(s[1..])
  }

  function Unhex(c: char): nat {
    if IsDigit(c) then (c - '0') as nat else if 'A' <= c <= 'F' then (c - 'A') as nat + 10 else 0
  }

  predicate IsHex(c: char) {
    IsDigit(c) || 'A' <= c <= 'F'
  }

  /** Unreserved characters, plus signs, and percent signs that two hexadecimal digits follow. */
  predicate WellEscaped(t: string) {
    if t == "" then true
    else if t[0] == '%' then |t| >= 3 && IsHex(t[1]) && IsHex(t[2]) && WellEscaped(t[3..])
    else (t[0] == '+' || Unreserved(t[0])) && WellEscaped(t[1..])
  }

  /** Reading an escaped text back, byte by byte. */
  function Unescape(t: string): seq<nat> {
    if t == "" then []
    else if t[0] == '%' && |t| >= 3 then [Unhex(t[1]) * 16 + Unhex(t[2])] + Unescape(t[3..])
    else if t[0] == '+' then [32] + Unescape(t[1..])
    else [t[0] as int] + Unescape(t[1..])
  }

  lemma HexDigit(d: nat)
    requires d < 16
    ensures IsHex(Hex(d)) && Unhex(Hex(d)) == d
  {
    assert HEX[0] == '0' && HEX[9] == '9' && HEX[10] == 'A' && HEX[15] == 'F';
  }

  lemma OneByte(b: nat, t: string)
    requires b < 256
    ensures Unescape(EscapeByte(b) + t) == [b] + Unescape(t)
    ensures WellEscaped(t) ==> WellEscaped(EscapeByte(b) + t)
  {
    HexDigit(b / 16);
    HexDigit(b % 16);
    hide Hex, Unhex, IsHex;
    var u := EscapeByte(b) + t;
    assert u[0] == '%' && u[1] == Hex(b / 16) && u[2] == Hex(b % 16) && u[3..] == t;
  }

  lemma ByteFirst(bytes: seq<nat>, t: string)
    requires bytes != [] && forall i :: 0 <= i < |bytes| ==> bytes[i] < 256
    ensures EscapeBytes(bytes) + t == EscapeByte(bytes[0]) + (EscapeBytes(bytes[1..]) + t)
  {
    hide EscapeByte;
  }

  lemma {:induction false} ManyBytes(bytes: seq<nat>, t: string)
    requires forall i :: 0 <= i < |bytes| ==> bytes[i] < 256
    ensures Unescape(EscapeBytes(bytes) + t) == bytes + Unescape(t)
    ensures WellEscaped(t) ==> WellEscaped(EscapeBytes(bytes) + t)
  {
    hide EscapeByte, Unescape, WellEscaped;
    if bytes == [] {
      assert EscapeBytes(bytes) + t == t;
    } else {
      hide EscapeBytes;
      var tail := EscapeBytes(bytes[1..]) + t;
      ManyBytes(bytes[1..], t);
      OneByte(bytes[0], tail);
      ByteFirst(bytes, t);
      assert bytes + Unescape(t) == [bytes[0]] + (bytes[1..] + Unescape(t));
    }
  }

  lemma OneChar(c: char, t: string)
    ensures Unescape(EscapeChar(c) + t) == Utf8(c) + Unescape(t)
    ensures WellEscaped(t) ==> WellEscaped(EscapeChar(c) + t)
  {
    if c == ' ' || Unreserved(c) {
      var u := EscapeChar(c) + t;
      assert u[1..] == t;
    } else {
      ManyBytes(Utf8(c), t);
    }
  }

  /** Escaping is undone byte for byte, and every percent sign of the escaped text starts a well-formed escape. */
  lemma {:induction false} EscapeRoundTrip(s: string)
    ensures Unescape(QueryEscape(s)) == Bytes(s) && WellEscaped(QueryEscape(s))
  {
    if s != "" {
      EscapeRoundTrip(s[1..]);
      OneChar(s[0], QueryEscape(s[1..]));
    }
  }

  lemma {:induction false} WellEscapedPlain(t: string, c: char)
    requires WellEscaped(t) && c in t
    ensures Unreserved(c) || c == '+' || c == '%'
  {
    if t[0] == '%' {
      assert t == t[..3] + t[3..];
      if c in t[3..] { WellEscapedPlain(t[3..], c); }
    } else {
      assert t == [t[0]] + t[1..];
      if c in t[1..] { WellEscapedPlain(t[1..], c); }
    }
  }

  /** Neither comma nor ampersand survives escaping. */
  lemma EscapedPlain(s: string, c: char)
    requires c == ',' || c == '&'
    ensures c !in QueryEscape(s)
  {
    EscapeRoundTrip(s);
    if c in QueryEscape(s) {
      WellEscapedPlain(QueryEscape(s), c);
    }
  }

  /* ---------- strings.Count ---------- */

  /** Number of non-overlapping occurrences of p in s, scanning from the left; one more than the length when p is
      empty. */
  function Count(s: string, p: string): nat {
    if p == "" then |s| + 1
    else if |s| < |p| then 0
    else if p <= s then 1 + Count(s[|p|..], p)
    else Count(s[1..], p)
  }

  /** p occurs in s at i. */
  ghost predicate OccursAt(s: string, p: string, i: nat) {
    i + |p| <= |s| && s[i..i + |p|] == p
  }

  /** Counting takes the first occurrence and goes on behind it; without one it ends. */
  lemma {:induction false} CountFirst(s: string, p: string, i: nat)
    requires p != "" && OccursAt(s, p, i) && forall j :: 0 <= j < i ==> !OccursAt(s, p, j)
    ensures Count(s, p) == 1 + Count(s[i + |p|..], p)
  {
    if i > 0 {
      assert !OccursAt(s, p, 0);
      assert s[1..][i - 1..i - 1 + |p|] == s[i..i + |p|];
      forall j | 0 <= j < i - 1 ensures !OccursAt(s[1..], p, j) {
        assert !OccursAt(s, p, j + 1);
        if j + 1 + |p| <= |s| { assert s[1..][j..j + |p|] == s[j + 1..j + 1 + |p|]; }
      }
      CountFirst(s[1..], p, i - 1);
      assert s[1..][i - 1 + |p|..] == s[i + |p|..];
    }
  }

  lemma {:induction false} CountNone(s: string, p: string)
    requires p != "" && forall j: nat :: !OccursAt(s, p, j)
    ensures Count(s, p) == 0
  {
    if |s| >= |p| {
      assert !OccursAt(s, p, 0);
      forall j: nat ensures !OccursAt(s[1..], p, j) {
        assert !OccursAt(s, p, j + 1);
        if j + 1 + |p| <= |s| { assert s[1..][j..j + |p|] == s[j + 1..j + 1 + |p|]; }
      }
      CountNone(s[1..], p);
    }
  }

  lemma CountTooShort(s: string, p: string)
    requires p != "" && |s| < |p|
    ensures Count(s, p) == 0 && (s != "" ==> Count(s[1..], p) == 0)
  {
  }

  /** An occurrence of a newline-free text never spans two lines. */
  lemma {:induction false} CountLine(line: string, rest: string, p: string)
    requires p != "" && '\n' !in p
    ensures Count(line + "\n" + rest, p) == Count(line, p) + Count(rest, p)
    decreases |line|
  {
    var s := line + "\n" + rest;
    if p <= s {
      InLine(line, rest, p);
      CountLine(line[|p|..], rest, p);
      assert s[|p|..] == line[|p|..] + "\n" + rest;
    } else if line == "" {
      assert s[1..] == rest;
      if |s| < |p| { CountTooShort(s, p); CountTooShort(rest, p); }
    } else {
      assert line <= s;
      CountLine(line[1..], rest, p);
      assert s[1..] == line[1..] + "\n" + rest;
      if |line| < |p| { CountTooShort(line, p); }
      if |s| < |p| { CountTooShort(s, p); }
    }
  }

  lemma InLine(line: string, rest: string, p: string)
    requires p != "" && '\n' !in p && p <= line + "\n" + rest
    ensures p <= line
  {
    var s := line + "\n" + rest;
    assert forall i :: 0 <= i < |p| ==> p[i] == s[i] && p[i] in p;
    assert s[|line|] == '\n';
    assert |p| <= |line|;
    assert p == s[..|p|] == line[..|p|];
  }

  /* ---------- util.StringInSlice, util.Contains, util.IsIntersectMap ---------- */

  method StringInSlice(str: string, list: seq<string>) returns (found: bool)
    ensures found <==> str in list
  {
    for i := 0 to |list|
      invariant str !in list[..i]
    {
      if list[i] == str {
        return true;
      }
    }
    return false;
  }

  method Contains(list: seq<string>, s: string) returns (found: bool)
    ensures found <==> s in list
  {
    for i := 0 to |list|
      invariant s !in list[..i]
    {
      if list[i] == s {
        return true;
      }
    }
    return false;
  }

  /** Indexing a Go map: a missing key reads as the empty string. */
  function Lookup(m: map<string, string>, k: string): string {
    if k in m then m[k] else ""
  }

  predicate Contained(sub: map<string, string>, whole: map<string, string>) {
    forall k :: k in sub ==> Lookup(whole, k) == sub[k]
  }

  method IsIntersectMap(sub: map<string, string>, whole: map<string, string>) returns (result: bool)
    ensures result <==> Contained(sub, whole)
  {
    result := true;
    var todo := sub.Keys;
    while todo != {}
      invariant result && todo <= sub.Keys
      invariant forall k :: k in sub && k !in todo ==> Lookup(whole, k) == sub[k]
      decreases |todo|
    {
      var k :| k in todo;
      if Lookup(whole, k) != sub[k] {
        result := false;
        break;
      }
      todo := todo - {k};
    }
  }
}
