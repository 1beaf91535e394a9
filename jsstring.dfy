/**
 * The JavaScript string operations the core relies on (trim, indexOf,
 * substring, split, String(n), ...), written as total functions on
 * `seq<char>` with contracts that characterise them.
 */
module JsString {

  /** The characters `String.prototype.trim` removes (the common ones; see README). */
  predicate IsSpace(c: char) {
    c == ' ' || c == '\t' || c == '\n' || c == '\r' || c == '\U{000B}' || c == '\U{000C}'
    || c == '\U{00A0}' || c == '\U{FEFF}' || c == '\U{2028}' || c == '\U{2029}'
  }

  /** `s.trimStart()`: removes the leading white space and nothing else. */
  function TrimStart(s: string): (r: string)
    ensures |r| <= |s| && r == s[|s| - |r|..]
    ensures r == [] || !IsSpace(r[0])
    ensures forall i :: 0 <= i < |s| - |r| ==> IsSpace(s[i])
  {
    if |s| > 0 && IsSpace(s[0]) then TrimStart(s[1..]) else s
  }

  /** `s.trimEnd()`: removes the trailing white space and nothing else. */
  function TrimEnd(s: string): (r: string)
    ensures |r| <= |s| && r == s[..|r|]
    ensures r == [] || !IsSpace(r[|r| - 1])
    ensures forall i :: |r| <= i < |s| ==> IsSpace(s[i])
  {
    if |s| > 0 && IsSpace(s[|s| - 1]) then TrimEnd(s[..|s| - 1]) else s
  }

  /** `s.trim()`. */
  function Trim(s: string): (r: string)
    ensures r == [] || (!IsSpace(r[0]) && !IsSpace(r[|r| - 1]))
  {
    TrimEnd(TrimStart(s))
  }

  predicate StartsWith(s: string, p: string) {
    p <= s
  }

  predicate EndsWith(s: string, p: string) {
    |p| <= |s| && s[|s| - |p|..] == p
  }

  /** `t` occurs in `s` starting at index `i`. */
  predicate OccursAt(s: string, t: string, i: int) {
    0 <= i && i + |t| <= |s| && s[i..i + |t|] == t
  }

  /** The first occurrence of `t` in `s` at an index `>= i`, or -1. */
  function IndexFrom(s: string, t: string, i: nat): (r: int)
    ensures r == -1 || (i <= r && OccursAt(s, t, r))
    ensures forall j :: i <= j && (r == -1 || j < r) ==> !OccursAt(s, t, j)
    decreases |s| - i
  {
    if i + |t| > |s| then -1
    else if s[i..i + |t|] == t then i
    else IndexFrom(s, t, i + 1)
  }

  /** `s.indexOf(t)`. */
  function IndexOf(s: string, t: string): (r: int)
    ensures r == -1 || OccursAt(s, t, r)
    ensures forall j :: 0 <= j && (r == -1 || j < r) ==> !OccursAt(s, t, j)
  {
    IndexFrom(s, t, 0)
  }

  /** `s.includes(t)`. */
  predicate Includes(s: string, t: string) {
    IndexOf(s, t) >= 0
  }

  /** The last occurrence of `t` in `s` at an index `<= i`, or -1. */
  function LastFrom(s: string, t: string, i: int): (r: int)
    ensures r == -1 || (r <= i && OccursAt(s, t, r))
    ensures forall j :: j <= i && r < j ==> !OccursAt(s, t, j)
    decreases i + 1
  {
    if i < 0 then -1
    else if OccursAt(s, t, i) then i
    else LastFrom(s, t, i - 1)
  }

  /** `s.lastIndexOf(t)`. */
  function LastIndexOf(s: string, t: string): (r: int)
    ensures r == -1 || OccursAt(s, t, r)
    ensures forall j :: r < j ==> !OccursAt(s, t, j)
  {
    LastFrom(s, t, |s| - |t|)
  }

  /** `s.replaceAll(a, b)` for single characters `a` and `b`. */
  function ReplaceChar(s: string, a: char, b: char): (r: string)
    ensures |r| == |s|
    ensures forall k :: 0 <= k < |s| ==> r[k] == (if s[k] == a then b else s[k])
  {
    seq(|s|, k requires 0 <= k < |s| => if s[k] == a then b else s[k])
  }

  function Clamp(x: int, n: nat): (r: nat)
    ensures r <= n
  {
    if x < 0 then 0 else if x > n then n else x
  }

  /** `s.substring(a, b)`: both ends clamped to the string, then swapped if reversed. */
  function Substring(s: string, a: int, b: int): (r: string)
    ensures 0 <= a <= b <= |s| ==> r == s[a..b]
  {
    var i := Clamp(a, |s|);
    var j := Clamp(b, |s|);
    if i <= j then s[i..j] else s[j..i]
  }

  /** A piece produced by `Utility.split`: not empty and free of separators. */
  predicate IsToken(t: string, seps: string) {
    t != [] && forall c :: c in t ==> c !in seps
  }

  function SplitAcc(s: string, seps: string, cur: string): (r: seq<string>)
    requires forall c :: c in cur ==> c !in seps
    ensures forall k :: 0 <= k < |r| ==> IsToken(r[k], seps)
    decreases |s|
  {
    if s == [] then (if cur == [] then [] else [cur])
    else if s[0] in seps then (if cur == [] then [] else [cur]) + SplitAcc(s[1..], seps, [])
    else SplitAcc(s[1..], seps, cur + [s[0]])
  }

  /**
   * `Utility.split(s, seps)` of the routing library: cuts `s` at every
   * character that occurs in `seps` and drops the empty pieces.
   */
  function Split(s: string, seps: string): (r: seq<string>)
    ensures forall k :: 0 <= k < |r| ==> IsToken(r[k], seps)
  {
    SplitAcc(s, seps, [])
  }

  /** Cutting at a separator splits the pieces on either side independently. */
  lemma {:induction false} SplitAccCut(a: string, c: char, b: string, seps: string, cur: string)
    requires c in seps && forall x :: x in cur ==> x !in seps
    ensures SplitAcc(a + [c] + b, seps, cur) == SplitAcc(a, seps, cur) + SplitAcc(b, seps, [])
    decreases |a|
  {
    if a == [] {
      assert [c] + b == [c] + b;
      assert ([c] + b)[1..] == b;
    } else {
      assert (a + [c] + b)[0] == a[0];
      assert (a + [c] + b)[1..] == a[1..] + [c] + b;
      if a[0] in seps {
        SplitAccCut(a[1..], c, b, seps, []);
      } else {
        SplitAccCut(a[1..], c, b, seps, cur + [a[0]]);
      }
    }
  }

  /** A text without separators is carried whole into the pending piece. */
  lemma {:induction false} SplitAccToken(t: string, seps: string, cur: string)
    requires forall x :: x in cur ==> x !in seps
    requires forall x :: x in t ==> x !in seps
    ensures SplitAcc(t, seps, cur) == SplitAcc([], seps, cur + t)
    decreases |t|
  {
    if t != [] {
      assert t[0] in t;
      assert cur + t == (cur + [t[0]]) + t[1..];
      SplitAccToken(t[1..], seps, cur + [t[0]]);
    } else {
      assert cur + t == cur;
    }
  }

  /** `xs.join(sep)`. */
  function Join(xs: seq<string>, sep: string): string {
    if |xs| == 0 then ""
    else if |xs| == 1 then xs[0]
    else Join(xs[..|xs| - 1], sep) + sep + xs[|xs| - 1]
  }

  /** `Utility.split` undoes a join by one of its separators, when every piece is a token. */
  lemma {:induction false} SplitJoin(xs: seq<string>, c: char, seps: string)
    requires c in seps
    requires forall k :: 0 <= k < |xs| ==> IsToken(xs[k], seps)
    ensures Split(Join(xs, [c]), seps) == xs
  {
    if |xs| == 1 {
      assert IsToken(xs[0], seps) && [] + xs[0] == xs[0];
      SplitAccToken(xs[0], seps, []);
    } else if |xs| > 1 {
      var init, last := xs[..|xs| - 1], xs[|xs| - 1];
      SplitJoin(init, c, seps);
      SplitAccCut(Join(init, [c]), c, last, seps, []);
      assert IsToken(xs[|xs| - 1], seps) && [] + last == last;
      SplitAccToken(last, seps, []);
      assert Join(xs, [c]) == Join(init, [c]) + [c] + last;
      assert SplitAcc(last, seps, []) == [last];
      assert Split(Join(xs, [c]), seps) == Split(Join(init, [c]), seps) + [last];
      assert xs == init + [last];
    }
  }

  /** A text free of `c` that occurs in a join by `c` occurs within one of the pieces. */
  lemma {:induction false} OccursInPiece(xs: seq<string>, c: char, t: string, p: int)
    requires xs != [] && c !in t && OccursAt(Join(xs, [c]), t, p)
    ensures exists k :: 0 <= k < |xs| && Includes(xs[k], t)
    decreases |xs|
  {
    if |xs| == 1 {
      assert OccursAt(xs[0], t, p);
      assert Includes(xs[0], t);
    } else {
      var init, last := xs[..|xs| - 1], xs[|xs| - 1];
      var a := Join(init, [c]);
      var s := Join(xs, [c]);
      assert s == a + [c] + last;
      if p + |t| <= |a| {
        assert OccursAt(a, t, p) by {
          assert a[p..p + |t|] == s[p..p + |t|];
        }
        OccursInPiece(init, c, t, p);
        var k :| 0 <= k < |init| && Includes(init[k], t);
        assert xs[k] == init[k];
      } else if p > |a| {
        var q := p - |a| - 1;
        assert OccursAt(last, t, q) by {
          assert last[q..q + |t|] == s[p..p + |t|];
        }
        assert Includes(xs[|xs| - 1], t);
      } else {
        CharOfOccurrence(s, t, p, |a|);
        assert false;
      }
    }
  }

  lemma CharOfOccurrence(s: string, t: string, p: int, i: int)
    requires OccursAt(s, t, p) && p <= i < p + |t|
    ensures s[i] in t
  {
    assert s[i] == s[p..p + |t|][i - p];
  }

  /** `s.split(c)` of JavaScript for a one-character separator: keeps empty pieces. */
  function SplitOn(s: string, c: char): (r: seq<string>)
    ensures |r| >= 1
    ensures forall k :: 0 <= k < |r| ==> c !in r[k]
  {
    if s == [] then [[]]
    else
      var r := SplitOn(s[..|s| - 1], c);
      if s[|s| - 1] == c then r + [[]]
      else r[..|r| - 1] + [r[|r| - 1] + [s[|s| - 1]]]
  }

  /** Joining the pieces of `s.split(c)` with `c` gives back `s`. */
  lemma {:induction false} SplitOnJoin(s: string, c: char)
    ensures Join(SplitOn(s, c), [c]) == s
  {
    if s != [] {
      var p := s[..|s| - 1];
      var r := SplitOn(p, c);
      SplitOnJoin(p, c);
      if s[|s| - 1] != c {
        var r' := r[..|r| - 1] + [r[|r| - 1] + [s[|s| - 1]]];
        if |r| == 1 {
          assert Join(r, [c]) == r[0];
        } else {
          assert r'[..|r'| - 1] == r[..|r| - 1];
          assert Join(r, [c]) == Join(r[..|r| - 1], [c]) + [c] + r[|r| - 1];
        }
      } else {
        assert (r + [[]])[..|r|] == r;
      }
      assert s == p + [s[|s| - 1]];
    }
  }

  function DigitChar(d: nat): char
    requires d < 10
  {
    "0123456789"[d]
  }

  /** `String(n)` for a non-negative integer. */
  function NatToString(n: nat): (r: string)
    ensures |r| >= 1
    ensures n >= 10 ==> |r| >= 2
    ensures r[0] != '-'
  {
    if n < 10 then [DigitChar(n)] else NatToString(n / 10) + [DigitChar(n % 10)]
  }

  /** Different numbers print differently, so offsets `String(seq)` never repeat. */
  lemma {:induction false} NatToStringInjective(a: nat, b: nat)
    requires NatToString(a) == NatToString(b)
    ensures a == b
  {
    if a >= 10 && b >= 10 {
      var sa, sb := NatToString(a), NatToString(b);
      assert sa[|sa| - 1] == sb[|sb| - 1];
      assert sa[..|sa| - 1] == NatToString(a / 10);
      assert sb[..|sb| - 1] == NatToString(b / 10);
      NatToStringInjective(a / 10, b / 10);
      assert DigitChar(a % 10) == DigitChar(b % 10);
    } else if a < 10 && b < 10 {
      assert DigitChar(a) == DigitChar(b);
    }
  }

  /** `String(i)` for an integer. */
  function IntToString(i: int): string {
    if i < 0 then "-" + NatToString(-i) else NatToString(i)
  }

  function LowerChar(c: char): char {
    if 'A' <= c <= 'Z' then (c as int + 32) as char else c
  }

  function ToLower(s: string): (r: string)
    ensures |r| == |s|
  {
    seq(|s|, k requires 0 <= k < |s| => LowerChar(s[k]))
  }

  /** `Utility.equalsIgnoreCase(a, b)`. */
  predicate EqualsIgnoreCase(a: string, b: string) {
    ToLower(a) == ToLower(b)
  }
}
