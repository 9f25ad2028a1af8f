/** The JavaScript string operations the client code relies on: `trim`, `toLowerCase`,
    `includes`, `startsWith`, `replace` with a string pattern, `charCodeAt`,
    `encodeURIComponent` and the decimal rendering of a number in a template literal.
    Characters are Unicode scalar values. */
module Text {

  /** The characters `String.prototype.trim` removes: the white space and line terminators
      of ECMA-262 (sections 12.2 and 12.3), with the Zs category written out. */
  predicate IsSpace(c: char) {
    c == '\t' || c == '\n' || c == '\U{B}' || c == '\U{C}' || c == '\r' || c == ' '
    || c == '\U{A0}' || c == '\U{1680}' || ('\U{2000}' <= c <= '\U{200A}')
    || c == '\U{2028}' || c == '\U{2029}' || c == '\U{202F}' || c == '\U{205F}'
    || c == '\U{3000}' || c == '\U{FEFF}'
  }

  predicate AllSpace(s: string) {
    forall i :: 0 <= i < |s| ==> IsSpace(s[i])
  }

  /** Number of leading characters `trim` strips. */
  function LeadingSpace(s: string): (k: nat)
    ensures k <= |s| && AllSpace(s[..k])
    ensures k < |s| ==> !IsSpace(s[k])
  {
    if s != [] && IsSpace(s[0]) then
      var k' := LeadingSpace(s[1..]);
      assert forall i :: 1 <= i < 1 + k' ==> s[i] == s[1..][..k'][i - 1];
      1 + k'
    else 0
  }

  /** Length of what is left of `s` once `trim` strips its trailing characters. */
  function TrailingStart(s: string): (k: nat)
    ensures k <= |s| && AllSpace(s[k..])
    ensures 0 < k ==> !IsSpace(s[k - 1])
  {
    if s != [] && IsSpace(s[|s| - 1]) then
      var k := TrailingStart(s[..|s| - 1]);
      assert forall i :: k <= i < |s| - 1 ==> s[i] == s[..|s| - 1][k..][i - k];
      k
    else |s|
  }

  /** `String.prototype.trim`: a slice of `s` that neither starts nor ends with a
      space, empty exactly when `s` is all spaces. */
  function Trim(s: string): (r: string)
    ensures |r| <= |s|
    ensures r == [] <==> AllSpace(s)
    ensures r != [] ==> !IsSpace(r[0]) && !IsSpace(r[|r| - 1])
    ensures exists k, j :: 0 <= k <= j <= |s| && r == s[k..j] && AllSpace(s[..k]) && AllSpace(s[j..])
  {
    var k := LeadingSpace(s);
    var t := s[k..];
    var j := TrailingStart(t);
    TrimSplit(s, k, j);
    assert t[..j] == s[k..k + j] && t[j..] == s[k + j..];
    t[..j]
  }

  lemma TrimSplit(s: string, k: nat, j: nat)
    requires k <= |s| && AllSpace(s[..k]) && (k < |s| ==> !IsSpace(s[k]))
    requires j <= |s| - k && AllSpace(s[k..][j..])
    ensures j == 0 <==> AllSpace(s)
  {
    assert j == 0 ==> s[..k] == s;
  }

  /** `String.prototype.toLowerCase` on the ASCII letters; other characters are kept. */
  function LowerChar(c: char): char {
    if 'A' <= c <= 'Z' then (c as int + 32) as char else c
  }

  function ToLower(s: string): string {
    seq(|s|, i requires 0 <= i < |s| => LowerChar(s[i]))
  }

  /** `String.prototype.includes`: `q` occurs somewhere in `s`. */
  predicate Includes(s: string, q: string) {
    q <= s || (s != [] && Includes(s[1..], q))
  }

  /** `String.prototype.startsWith`. */
  predicate StartsWith(s: string, p: string) {
    p <= s
  }

  /** `String.prototype.replace` with a string pattern: only the first occurrence of `pat`
      is replaced. */
  function ReplaceFirst(s: string, pat: string, rep: string): (r: string)
    ensures !Includes(s, pat) ==> r == s
    ensures pat <= s ==> r == rep + s[|pat|..]
  {
    if pat <= s then rep + s[|pat|..]
    else if s == [] then s
    else [s[0]] + ReplaceFirst(s[1..], pat, rep)
  }

  /** `pat` occurs in `s` at index `i`. */
  predicate OccursAt(s: string, pat: string, i: int) {
    0 <= i && i + |pat| <= |s| && s[i..i + |pat|] == pat
  }

  lemma PrefixOccurs(s: string, pat: string)
    ensures pat <= s <==> OccursAt(s, pat, 0)
  {
    if pat <= s {
      assert s[0..|pat|] == pat;
    }
  }

  lemma OccursAtShift(s: string, pat: string, j: nat)
    requires s != []
    ensures OccursAt(s[1..], pat, j) <==> OccursAt(s, pat, j + 1)
  {
    if j + |pat| <= |s| - 1 {
      assert s[1..][j..j + |pat|] == s[j + 1..j + 1 + |pat|];
    }
  }

  lemma ConsSplit(s: string, rep: string, i: nat, n: nat)
    requires 0 < i && i + n <= |s|
    ensures [s[0]] + (s[1..][..i - 1] + rep + s[1..][i - 1 + n..]) == s[..i] + rep + s[i + n..]
  {
    assert [s[0]] + s[1..][..i - 1] == s[..i];
    assert s[1..][i - 1 + n..] == s[i + n..];
  }

  /** `replace` acts at the first occurrence, wherever it is: everything before it is kept,
      the occurrence becomes `rep`, and everything after it is kept. */
  lemma {:induction false} ReplaceFirstAtFirstOccurrence(s: string, pat: string, rep: string, i: nat)
    requires OccursAt(s, pat, i)
    requires forall j :: 0 <= j < i ==> !OccursAt(s, pat, j)
    ensures ReplaceFirst(s, pat, rep) == s[..i] + rep + s[i + |pat|..]
    decreases i
  {
    PrefixOccurs(s, pat);
    if i == 0 {
      assert s[..0] == [] && s[|pat|..] == s[0 + |pat|..];
    } else {
      var t := s[1..];
      OccursAtShift(s, pat, i - 1);
      forall j | 0 <= j < i - 1
        ensures !OccursAt(t, pat, j)
      {
        OccursAtShift(s, pat, j);
      }
      ReplaceFirstAtFirstOccurrence(t, pat, rep, i - 1);
      assert ReplaceFirst(s, pat, rep) == [s[0]] + ReplaceFirst(t, pat, rep);
      ConsSplit(s, rep, i, |pat|);
    }
  }

  /** A prefix holding no character that starts the pattern is passed over by `replace`. */
  lemma {:induction false} ReplaceFirstSkips(p: string, s: string, pat: string, rep: string)
    requires |pat| > 0
    requires forall i :: 0 <= i < |p| ==> p[i] != pat[0]
    ensures ReplaceFirst(p + s, pat, rep) == p + ReplaceFirst(s, pat, rep)
  {
    if p == [] {
      assert p + s == s;
    } else {
      var ps := p + s;
      assert ps[0] == p[0] != pat[0];
      assert !(pat <= ps);
      assert ps[1..] == p[1..] + s;
      ReplaceFirstSkips(p[1..], s, pat, rep);
      var x := ReplaceFirst(s, pat, rep);
      calc {
        ReplaceFirst(ps, pat, rep);
        [ps[0]] + ReplaceFirst(ps[1..], pat, rep);
        [p[0]] + (p[1..] + x);
        ([p[0]] + p[1..]) + x;
        { assert [p[0]] + p[1..] == p; }
        p + x;
      }
    }
  }

  function DigitChar(d: nat): char
    requires d < 10
  {
    "0123456789"[d]
  }

  /** Decimal rendering of a non-negative integer, as a template literal produces it. */
  function NatToString(n: nat): (r: string)
    ensures |r| >= 1
    ensures forall i :: 0 <= i < |r| ==> '0' <= r[i] <= '9'
  {
    if n < 10 then [DigitChar(n)] else NatToString(n / 10) + [DigitChar(n % 10)]
  }

  /** The UTF-16 code units of one character: a surrogate pair outside the Basic
      Multilingual Plane. */
  function UnitsOf(c: char): (u: seq<int>)
    ensures 1 <= |u| <= 2
    ensures forall i :: 0 <= i < |u| ==> 0 <= u[i] < 0x1_0000
  {
    var v := c as int;
    if v < 0x1_0000 then [v]
    else [0xD800 + (v - 0x1_0000) / 0x400, 0xDC00 + (v - 0x1_0000) % 0x400]
  }

  /** The sequence `charCodeAt(0), charCodeAt(1), ...` of a JavaScript string. */
  function CodeUnits(s: string): (u: seq<int>)
    ensures |s| <= |u| <= 2 * |s|
    ensures forall i :: 0 <= i < |u| ==> 0 <= u[i] < 0x1_0000
  {
    if s == [] then [] else UnitsOf(s[0]) + CodeUnits(s[1..])
  }

  /** The characters `encodeURIComponent` leaves as they are (ECMA-262, section 19.2.6.5). */
  predicate UriUnreserved(c: char) {
    ('A' <= c <= 'Z') || ('a' <= c <= 'z') || ('0' <= c <= '9') || c in "-_.!~*'()"
  }

  /** UTF-8 encoding of one Unicode scalar value. */
  function Utf8(c: char): (b: seq<nat>)
    ensures 1 <= |b| <= 4
    ensures forall i :: 0 <= i < |b| ==> b[i] < 0x100
  {
    var v := c as int;
    if v < 0x80 then [v]
    else if v < 0x800 then [0xC0 + v / 0x40, 0x80 + v % 0x40]
    else if v < 0x1_0000 then [0xE0 + v / 0x1000, 0x80 + (v / 0x40) % 0x40, 0x80 + v % 0x40]
    else [0xF0 + v / 0x4_0000, 0x80 + (v / 0x1000) % 0x40, 0x80 + (v / 0x40) % 0x40, 0x80 + v % 0x40]
  }

  function HexDigit(d: nat): char
    requires d < 16
  {
    "0123456789ABCDEF"[d]
  }

  /** `%XY` for every byte, with upper-case hexadecimal digits. */
  function PercentEncode(bytes: seq<nat>): (r: string)
    requires forall i :: 0 <= i < |bytes| ==> bytes[i] < 0x100
    ensures forall i :: 0 <= i < |r| ==> UriUnreserved(r[i]) || r[i] == '%'
  {
    if bytes == [] then []
    else ['%', HexDigit(bytes[0] / 16), HexDigit(bytes[0] % 16)] + PercentEncode(bytes[1..])
  }

  /** `encodeURIComponent`: reserved and non-ASCII characters become UTF-8 percent escapes.
      The result holds only unreserved characters and `%`, so it can never introduce a
      `&`, `=`, `?` or `#` into the query string it is placed in, and a string of unreserved
      characters is passed through unchanged. */
  function EncodeUriComponent(s: string): (r: string)
    ensures forall i :: 0 <= i < |r| ==> UriUnreserved(r[i]) || r[i] == '%'
    ensures (forall i :: 0 <= i < |s| ==> UriUnreserved(s[i])) ==> r == s
  {
    if s == [] then []
    else
      var head := if UriUnreserved(s[0]) then [s[0]] else PercentEncode(Utf8(s[0]));
      head + EncodeUriComponent(s[1..])
  }
}
