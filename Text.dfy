/**
 * The JavaScript string operations the front-end relies on, over `string` (a sequence of
 * UTF-16 code units in JavaScript, of `char` here): `trim`, `\s`, `toLowerCase`,
 * `toUpperCase`, `includes`, and the decimal rendering of a non-negative integer.
 */
module Text {

  /** JavaScript's WhiteSpace and LineTerminator code points: what `trim` removes and `\s` matches. */
  predicate IsSpace(c: char) {
    || c == ' ' || c == '\t' || c == '\n' || c == '\r' || c == '\U{B}' || c == '\U{C}'
    || c == '\U{A0}' || c == '\U{1680}' || ('\U{2000}' <= c <= '\U{200A}') || c == '\U{2028}'
    || c == '\U{2029}' || c == '\U{202F}' || c == '\U{205F}' || c == '\U{3000}' || c == '\U{FEFF}'
  }

  ghost predicate AllSpace(s: string) {
    forall i :: 0 <= i < |s| ==> IsSpace(s[i])
  }

  /** Neither end of `s` is whitespace. */
  predicate NoEdgeSpace(s: string) {
    s == [] || (!IsSpace(s[0]) && !IsSpace(s[|s| - 1]))
  }

  /** `r` is `s` with a whitespace prefix and a whitespace suffix cut off, and has no whitespace at either end. */
  ghost predicate IsTrimOf(r: string, s: string) {
    && NoEdgeSpace(r)
    && exists i | 0 <= i <= |s| - |r| :: r == s[i..i + |r|] && AllSpace(s[..i]) && AllSpace(s[i + |r|..])
  }

  /** `String.prototype.trimStart`: a string no longer than `s` that does not start with whitespace. */
  function TrimStart(s: string): (r: string)
    ensures |r| <= |s|
    ensures r == [] || !IsSpace(r[0])
  {
    if s != [] && IsSpace(s[0]) then TrimStart(s[1..]) else s
  }

  /** `trimStart` keeps a suffix of `s` and cuts off only whitespace. */
  lemma {:induction false} TrimStartCutsSpace(s: string)
    ensures TrimStart(s) == s[|s| - |TrimStart(s)|..]
    ensures AllSpace(s[..|s| - |TrimStart(s)|])
    decreases |s|
  {
    if s != [] && IsSpace(s[0]) {
      TrimStartCutsSpace(s[1..]);
      var k := |s| - |TrimStart(s)|;
      assert s[..k] == [s[0]] + s[1..][..k - 1];
      assert s[k..] == s[1..][k - 1..];
    }
  }

  /** `String.prototype.trimEnd`: a string no longer than `s` that does not end with whitespace. */
  function TrimEnd(s: string): (r: string)
    ensures |r| <= |s|
    ensures r == [] || !IsSpace(r[|r| - 1])
  {
    if s != [] && IsSpace(s[|s| - 1]) then TrimEnd(s[..|s| - 1]) else s
  }

  /** `trimEnd` keeps a prefix of `s` and cuts off only whitespace. */
  lemma {:induction false} TrimEndCutsSpace(s: string)
    ensures TrimEnd(s) == s[..|TrimEnd(s)|]
    ensures AllSpace(s[|TrimEnd(s)|..])
    decreases |s|
  {
    if s != [] && IsSpace(s[|s| - 1]) {
      var p := s[..|s| - 1];
      TrimEndCutsSpace(p);
      var k := |TrimEnd(s)|;
      assert s[k..] == p[k..] + [s[|s| - 1]];
      assert s[..k] == p[..k];
    }
  }

  /** `String.prototype.trim`. */
  function Trim(s: string): (r: string)
    ensures |r| <= |s| && NoEdgeSpace(r)
  {
    var a := TrimStart(s);
    var r := TrimEnd(a);
    assert r != [] ==> !IsSpace(r[0]) by {
      if r != [] {
        TrimEndCutsSpace(a);
        assert r[0] == a[0];
      }
    }
    r
  }

  /** `trim` cuts a whitespace prefix and a whitespace suffix, and nothing else; it gives "" exactly for blank strings. */
  lemma TrimIsTrimOf(s: string)
    ensures IsTrimOf(Trim(s), s)
    ensures Trim(s) == [] <==> AllSpace(s)
  {
    var a := TrimStart(s);
    var r := TrimEnd(a);
    var i := |s| - |a|;
    TrimStartCutsSpace(s);
    TrimEndCutsSpace(a);
    assert r == s[i..i + |r|];
    assert s[i + |r|..] == a[|r|..];
    assert r == [] ==> a == [] && s[..i] == s;
  }

  /** Trimming a string that already has no whitespace at its ends gives it back. */
  lemma TrimNoEdgeSpace(s: string)
    requires NoEdgeSpace(s)
    ensures Trim(s) == s
  {
    assert TrimStart(s) == s;
  }

  /** A run of whitespace after a string that does not end with whitespace is what `trimEnd` removes. */
  lemma {:induction false} TrimEndOfSpaces(a: string, sp: string)
    requires AllSpace(sp) && (a == [] || !IsSpace(a[|a| - 1]))
    ensures TrimEnd(a + sp) == a
    decreases |sp|
  {
    if sp != [] {
      assert (a + sp)[..|a + sp| - 1] == a + sp[..|sp| - 1];
      TrimEndOfSpaces(a, sp[..|sp| - 1]);
    } else {
      assert a + sp == a;
    }
  }

  /** `trim` removes whitespace padding around a string with no whitespace at its ends. */
  lemma TrimOfPadded(lead: string, x: string, trail: string)
    requires AllSpace(lead) && AllSpace(trail) && x != [] && NoEdgeSpace(x)
    ensures Trim(lead + x + trail) == x
  {
    assert lead + x + trail == lead + (x + trail);
    TrimStartOfSpaces(lead, x + trail);
    TrimEndOfSpaces(x, trail);
  }

  /** No character of `w` is whitespace. */
  predicate NoSpace(w: string) {
    forall i :: 0 <= i < |w| ==> !IsSpace(w[i])
  }

  /**
   * `t.split(/\s+/)`: the pieces of `t` between runs of whitespace. There is always at
   * least one piece, no piece holds whitespace, and a string that starts with a
   * non-space character starts its first piece with it.
   */
  function SplitWs(t: string): (ws: seq<string>)
    ensures |ws| >= 1
    ensures forall k :: 0 <= k < |ws| ==> NoSpace(ws[k])
    ensures t != [] && !IsSpace(t[0]) ==> ws[0] != [] && ws[0][0] == t[0]
    decreases |t|
  {
    if t == [] then [""]
    else if IsSpace(t[0]) then [""] + SplitWs(TrimStart(t[1..]))
    else
      var ws := SplitWs(t[1..]);
      [[t[0]] + ws[0]] + ws[1..]
  }

  /** A run of whitespace in front of a string that does not start with whitespace is what `trimStart` removes. */
  lemma {:induction false} TrimStartOfSpaces(sp: string, b: string)
    requires AllSpace(sp) && (b == [] || !IsSpace(b[0]))
    ensures TrimStart(sp + b) == b
    decreases |sp|
  {
    if sp != [] {
      assert (sp + b)[1..] == sp[1..] + b;
      TrimStartOfSpaces(sp[1..], b);
    }
  }

  /** A single word splits into itself. */
  lemma {:induction false} SplitWord(a: string)
    requires a != [] && NoSpace(a)
    ensures SplitWs(a) == [a]
    decreases |a|
  {
    assert [a[0]] + a[1..] == a;
    if |a| > 1 {
      SplitWord(a[1..]);
    }
  }

  /** A word, a run of whitespace, then the rest: the word is the first piece and the rest is split on its own. */
  lemma {:induction false} SplitAtSpace(a: string, sp: string, b: string)
    requires NoSpace(a) && sp != [] && AllSpace(sp) && (b == [] || !IsSpace(b[0]))
    ensures SplitWs(a + sp + b) == [a] + SplitWs(b)
    decreases |a|
  {
    var t := a + sp + b;
    if a == [] {
      assert t == sp + b && t[1..] == sp[1..] + b;
      TrimStartOfSpaces(sp[1..], b);
    } else {
      assert t[1..] == a[1..] + sp + b;
      SplitAtSpace(a[1..], sp, b);
      assert [a[0]] + a[1..] == a;
    }
  }

  /** A string that ends with a non-space character has no empty piece after its first. */
  lemma {:induction false} SplitPiecesNonEmpty(t: string)
    requires t != [] && !IsSpace(t[|t| - 1])
    ensures forall k :: 1 <= k < |SplitWs(t)| ==> SplitWs(t)[k] != []
    decreases |t|
  {
    if IsSpace(t[0]) {
      var u := TrimStart(t[1..]);
      TrimStartCutsSpace(t[1..]);
      assert u != [] && u[|u| - 1] == t[|t| - 1];
      SplitPiecesNonEmpty(u);
    } else if |t| > 1 {
      SplitPiecesNonEmpty(t[1..]);
    }
  }

  function LowerChar(c: char): char {
    if 'A' <= c <= 'Z' then (c as int + 32) as char else c
  }

  function UpperChar(c: char): char {
    if 'a' <= c <= 'z' then (c as int - 32) as char else c
  }

  /** `String.prototype.toLowerCase`, on the ASCII letters. */
  function ToLower(s: string): (r: string)
    ensures |r| == |s|
    ensures forall i :: 0 <= i < |s| ==> r[i] == LowerChar(s[i])
  {
    seq(|s|, i requires 0 <= i < |s| => LowerChar(s[i]))
  }

  /** `s.includes(t)`: `t` occurs in `s` as a contiguous piece. */
  predicate Includes(s: string, t: string) {
    exists i | 0 <= i <= |s| - |t| :: OccursAt(s, t, i)
  }

  predicate OccursAt(s: string, t: string, i: nat)
    requires i + |t| <= |s|
  {
    s[i..i + |t|] == t
  }

  /** Every string includes the empty string. */
  lemma IncludesEmpty(s: string)
    ensures Includes(s, "")
  {
    assert OccursAt(s, "", 0);
  }

  function DigitChar(d: nat): char
    requires d < 10
  {
    ('0' as int + d) as char
  }

  predicate IsDigits(r: string) {
    forall i :: 0 <= i < |r| ==> '0' <= r[i] <= '9'
  }

  /** The number a string of decimal digits denotes. */
  function DecimalValue(r: string): nat
    requires IsDigits(r)
  {
    if r == [] then 0 else DecimalValue(r[..|r| - 1]) * 10 + (r[|r| - 1] as int - '0' as int)
  }

  /** The decimal rendering of `n` (JavaScript's `${n}` for a non-negative integer). */
  function NatToString(n: nat): (r: string)
    ensures |r| >= 1 && IsDigits(r)
    ensures r[0] == '0' ==> n == 0
    ensures DecimalValue(r) == n
  {
    if n < 10 then [DigitChar(n)]
    else
      var p := NatToString(n / 10);
      var r := p + [DigitChar(n % 10)];
      assert r[..|r| - 1] == p;
      r
  }
}
