/** String operations of Python's str and JavaScript's String that the core relies on,
    each written out with the exact character sets and index rules of its language. */
module Strings {

  /** Python's `str.isspace()`: the characters `str.strip()` without an argument removes. */
  predicate IsPythonSpace(c: char) {
    var n := c as int;
    (9 <= n <= 13) || (28 <= n <= 32) || n == 0x85 || n == 0xA0 || n == 0x1680
    || (0x2000 <= n <= 0x200A) || n == 0x2028 || n == 0x2029 || n == 0x202F
    || n == 0x205F || n == 0x3000
  }

  /** JavaScript's WhiteSpace and LineTerminator: what `trim()` removes and `\s` matches. */
  predicate IsJsSpace(c: char) {
    var n := c as int;
    (9 <= n <= 13) || n == 32 || n == 0xA0 || n == 0x1680 || (0x2000 <= n <= 0x200A)
    || n == 0x2028 || n == 0x2029 || n == 0x202F || n == 0x205F || n == 0x3000 || n == 0xFEFF
  }

  /** Every character of `s` is in the class `p`. */
  predicate All(s: string, p: char -> bool) {
    forall k :: 0 <= k < |s| ==> p(s[k])
  }

  /** The characters the leading drop of `s.strip(chars)` removes: the longest prefix
      whose characters satisfy `p`, dropped. */
  function DropWhile(s: string, p: char -> bool): (r: string)
    ensures |r| <= |s| && r == s[|s| - |r|..]
    ensures forall i :: 0 <= i < |s| - |r| ==> p(s[i])
    ensures r == [] || !p(r[0])
  {
    if s != [] && p(s[0]) then DropWhile(s[1..], p) else s
  }

  /** The trailing counterpart of DropWhile: the longest suffix satisfying `p`, dropped. */
  function DropWhileEnd(s: string, p: char -> bool): (r: string)
    ensures |r| <= |s| && r == s[..|r|]
    ensures forall i :: |r| <= i < |s| ==> p(s[i])
    ensures r == [] || !p(r[|r| - 1])
  {
    if s != [] && p(s[|s| - 1]) then DropWhileEnd(s[..|s| - 1], p) else s
  }

  /** How many leading characters the strip by `p` removes. */
  function Lead(s: string, p: char -> bool): (n: nat)
    ensures n <= |s| && All(s[..n], p)
    ensures n < |s| ==> !p(s[n])
  {
    |s| - |DropWhile(s, p)|
  }

  /** Python's `s.strip(chars)` and JavaScript's `trim()`, for the character class `p`:
      the result is the contiguous substring of `s` starting after the leading run of
      class characters; it neither begins nor ends with such a character, and everything
      cut off on either side is in the class. */
  function StripBy(s: string, p: char -> bool): (r: string)
    ensures Lead(s, p) + |r| <= |s| && r == s[Lead(s, p)..Lead(s, p) + |r|]
    ensures All(s[Lead(s, p) + |r|..], p)
    ensures r == [] || (!p(r[0]) && !p(r[|r| - 1]))
  {
    var left := DropWhile(s, p);
    var r := DropWhileEnd(left, p);
    StripByShape(s, p, left, r);
    r
  }

  /** The two drops StripBy makes, placed in `s`: `left` is what the leading drop
      leaves, `r` what the trailing drop then leaves. */
  lemma StripByShape(s: string, p: char -> bool, left: string, r: string)
    requires |left| <= |s| && left == s[|s| - |left|..] && (left == [] || !p(left[0]))
    requires |r| <= |left| && r == left[..|r|] && (r == [] || !p(r[|r| - 1]))
    requires forall i :: |r| <= i < |left| ==> p(left[i])
    ensures var n := |s| - |left|;
      n + |r| <= |s| && r == s[n..n + |r|] && All(s[n + |r|..], p)
    ensures r == [] || (!p(r[0]) && !p(r[|r| - 1]))
  {
    var n := |s| - |left|;
    InnerSlice(s, n, left, r);
    TailAll(left, r, p);
    if r != [] {
      assert r[0] == left[0];
    }
  }

  /** A prefix of a suffix of `s`, located in `s`. */
  lemma InnerSlice(s: string, n: nat, left: string, r: string)
    requires n <= |s| && left == s[n..] && |r| <= |left| && r == left[..|r|]
    ensures n + |r| <= |s| && r == s[n..n + |r|] && s[n + |r|..] == left[|r|..]
  {
  }

  /** What DropWhileEnd cut off is all class characters. */
  lemma TailAll(left: string, r: string, p: char -> bool)
    requires |r| <= |left| && forall i :: |r| <= i < |left| ==> p(left[i])
    ensures All(left[|r|..], p)
  {
    forall k | 0 <= k < |left[|r|..]| ensures p(left[|r|..][k]) {
      assert left[|r|..][k] == left[|r| + k];
    }
  }

  /** The strip cuts `s` into three: the leading run, the result, and the trailing run. */
  lemma StripByParts(s: string, p: char -> bool)
    ensures s == s[..Lead(s, p)] + StripBy(s, p) + s[Lead(s, p) + |StripBy(s, p)|..]
  {
    var i, r := Lead(s, p), StripBy(s, p);
    ThreeParts(s, i, i + |r|);
  }

  /** The runs the strip cuts off, by name. */
  lemma StripByCut(s: string, p: char -> bool) returns (a: string, d: string)
    ensures s == a + StripBy(s, p) + d && All(a, p) && All(d, p)
  {
    StripByParts(s, p);
    a, d := s[..Lead(s, p)], s[Lead(s, p) + |StripBy(s, p)|..];
  }

  lemma ThreeParts(s: string, i: nat, j: nat)
    requires i <= j <= |s|
    ensures s == s[..i] + s[i..j] + s[j..]
  {
  }

  /** DropWhile drops exactly a leading run of class characters. */
  lemma {:induction false} DropWhileRun(a: string, m: string, p: char -> bool)
    requires All(a, p) && (m == [] || !p(m[0]))
    ensures DropWhile(a + m, p) == m
  {
    if a == [] {
      assert a + m == m;
    } else {
      assert (a + m)[0] == a[0];
      assert (a + m)[1..] == a[1..] + m;
      DropWhileRun(a[1..], m, p);
    }
  }

  /** DropWhileEnd drops exactly a trailing run of class characters. */
  lemma {:induction false} DropWhileEndRun(m: string, d: string, p: char -> bool)
    requires All(d, p) && (m == [] || !p(m[|m| - 1]))
    ensures DropWhileEnd(m + d, p) == m
  {
    if d == [] {
      assert m + d == m;
    } else {
      assert (m + d)[|m + d| - 1] == d[|d| - 1];
      assert (m + d)[..|m + d| - 1] == m + d[..|d| - 1];
      DropWhileEndRun(m, d[..|d| - 1], p);
    }
  }

  /** Stripping a text between two runs of class characters gives that text back, when it
      neither begins nor ends with one. */
  lemma StripByRuns(a: string, m: string, d: string, p: char -> bool)
    requires All(a, p) && All(d, p) && m != [] && !p(m[0]) && !p(m[|m| - 1])
    ensures StripBy(a + m + d, p) == m
  {
    assert a + m + d == a + (m + d);
    DropWhileRun(a, m + d, p);
    DropWhileEndRun(m, d, p);
  }

  /** `m` sits in `s` between a run of `p` characters followed (inwards) by a run of `q`
      characters on the left, and the mirror image on the right. */
  predicate Framed(s: string, m: string, p: char -> bool, q: char -> bool,
                   a: string, b: string, c: string, d: string) {
    && s == a + (b + m + c) + d
    && All(a, p) && All(b, q) && All(c, q) && All(d, p)
  }

  /** The framing a text and its strips give, once the cut-off runs are named. */
  lemma FrameOf(s: string, t: string, r: string, p: char -> bool, q: char -> bool,
                a: string, b: string, c: string, d: string)
    requires s == a + t + d && t == b + r + c
    requires All(a, p) && All(b, q) && All(c, q) && All(d, p)
    ensures Framed(s, r, p, q, a, b, c, d)
  {
  }

  /** Python's `s.strip()`. */
  function Strip(s: string): string {
    StripBy(s, IsPythonSpace)
  }

  /** JavaScript's `s.trim()`. */
  function Trim(s: string): string {
    StripBy(s, IsJsSpace)
  }

  /** Stripping leaves nothing exactly when every character is in the stripped class. */
  lemma {:induction false} StripByEmpty(s: string, p: char -> bool)
    ensures StripBy(s, p) == [] <==> All(s, p)
  {
    var left := DropWhile(s, p);
    var n := |s| - |left|;
    assert forall i :: 0 <= i < |left| ==> left[i] == s[n + i];
    assert (forall k :: 0 <= k < |s| ==> p(s[k])) ==> left == [];
    assert StripBy(s, p) == DropWhileEnd(left, p);
  }

  /** JavaScript's `s.trim()` is non-empty exactly when `s` has a character that is not
      whitespace. */
  lemma TrimNonBlank(s: string)
    ensures Trim(s) != "" <==> exists i :: 0 <= i < |s| && !IsJsSpace(s[i])
  {
    StripByEmpty(s, IsJsSpace);
    if Trim(s) != "" {
      assert !All(s, IsJsSpace);
      var i :| 0 <= i < |s| && !IsJsSpace(s[i]);
    } else {
      assert All(s, IsJsSpace);
      assert forall i :: 0 <= i < |s| ==> IsJsSpace(s[i]);
    }
  }

  /** A string with no character of the class at either end is its own strip. */
  lemma StripByNoop(s: string, p: char -> bool)
    requires s == [] || (!p(s[0]) && !p(s[|s| - 1]))
    ensures StripBy(s, p) == s
  {
  }

  /** JavaScript's `toLowerCase()` on one character, for the ASCII letters. */
  function LowerChar(c: char): (r: char)
    ensures 'A' <= c <= 'Z' ==> r as int == c as int + 32
    ensures !('A' <= c <= 'Z') ==> r == c
  {
    if 'A' <= c <= 'Z' then (c as int + 32) as char else c
  }

  /** `toLowerCase()` on a string (ASCII letters only). */
  function Lower(s: string): (r: string)
    ensures |r| == |s|
    ensures forall i :: 0 <= i < |s| ==> r[i] == LowerChar(s[i])
  {
    seq(|s|, i requires 0 <= i < |s| => LowerChar(s[i]))
  }

  /** Lowercasing leaves no ASCII capital behind, so lowercasing again changes nothing. */
  lemma LowerIdempotent(s: string)
    ensures forall i :: 0 <= i < |Lower(s)| ==> !('A' <= Lower(s)[i] <= 'Z')
    ensures Lower(Lower(s)) == Lower(s)
  {
  }

  /** Python's `s.find(c)`: the first index of `c`, or -1. */
  function Find(s: string, c: char): (r: int)
    ensures -1 <= r < |s|
    ensures r >= 0 ==> s[r] == c
    ensures forall i :: 0 <= i < |s| && (r < 0 || i < r) ==> s[i] != c
  {
    if s == [] then -1
    else if s[0] == c then 0
    else
      var k := Find(s[1..], c);
      if k < 0 then -1 else k + 1
  }

  /** Python's `s.rfind(c)`: the last index of `c`, or -1. */
  function RFind(s: string, c: char): (r: int)
    ensures -1 <= r < |s|
    ensures r >= 0 ==> s[r] == c
    ensures forall i :: r < i < |s| ==> s[i] != c
  {
    if s == [] then -1
    else if s[|s| - 1] == c then |s| - 1
    else RFind(s[..|s| - 1], c)
  }

  /** Python's index normalisation for one slice bound: a negative bound counts from
      the end, and the result is clamped to 0..len. */
  function SliceBound(i: int, len: nat): (r: nat)
    ensures r <= len
    ensures 0 <= i <= len ==> r == i
    ensures i < 0 && i + len >= 0 ==> r == i + len
    ensures i + len < 0 ==> r == 0
    ensures i > len ==> r == len
  {
    if i < 0 then (if i + len < 0 then 0 else i + len) else if i > len then len else i
  }

  /** Python's `s[i:j]`. */
  function PySlice(s: string, i: int, j: int): (r: string)
    ensures var a, b := SliceBound(i, |s|), SliceBound(j, |s|);
      r == if a < b then s[a..b] else []
  {
    var a, b := SliceBound(i, |s|), SliceBound(j, |s|);
    if a < b then s[a..b] else []
  }

  predicate StartsWith(s: string, prefix: string) {
    |prefix| <= |s| && s[..|prefix|] == prefix
  }

  predicate EndsWith(s: string, suffix: string) {
    |suffix| <= |s| && s[|s| - |suffix|..] == suffix
  }

  /** Python's `sep.join(parts)` and JavaScript's `parts.join(sep)`. */
  function Join(parts: seq<string>, sep: string): (r: string)
    ensures parts == [] ==> r == []
    ensures |parts| == 1 ==> r == parts[0]
  {
    if parts == [] then []
    else if |parts| == 1 then parts[0]
    else parts[0] + sep + Join(parts[1..], sep)
  }

  /** JavaScript's `s.split(sep)` for a one-character separator: the pieces between the
      separators, always at least one; a text without the separator is one piece. */
  function Split(s: string, sep: char): (parts: seq<string>)
    ensures |parts| >= 1
  {
    var k := Find(s, sep);
    if k < 0 then [s] else [s[..k]] + Split(s[k + 1..], sep)
  }

  /** Joining Split's pieces with the separator gives the text back, and no piece
      contains the separator. */
  lemma {:induction false} SplitJoin(s: string, sep: char)
    ensures NoSep(Split(s, sep), sep)
    ensures Join(Split(s, sep), [sep]) == s
    decreases |s|
  {
    var k := Find(s, sep);
    if k >= 0 {
      SplitJoin(s[k + 1..], sep);
      SplitStep(s, sep, k);
      SplitCons(s, sep, k, Split(s[k + 1..], sep));
    }
  }

  /** No piece contains the separator. */
  predicate NoSep(parts: seq<string>, sep: char) {
    forall k, i :: 0 <= k < |parts| && 0 <= i < |parts[k]| ==> parts[k][i] != sep
  }

  /** One step of Split: the piece before the first separator, then the pieces of the rest. */
  lemma SplitCons(s: string, sep: char, k: nat, rest: seq<string>)
    requires k < |s| && s[k] == sep && forall i :: 0 <= i < k ==> s[i] != sep
    requires |rest| >= 1 && NoSep(rest, sep) && Join(rest, [sep]) == s[k + 1..]
    ensures NoSep([s[..k]] + rest, sep)
    ensures Join([s[..k]] + rest, [sep]) == s
  {
    JoinCons(s[..k], rest, [sep]);
    Around(s, k);
    assert forall i :: 0 <= i < |s[..k]| ==> s[..k][i] != sep;
    NoSepCons(s[..k], rest, sep);
  }

  /** A text is what comes before index `k`, the character at `k`, and what follows it. */
  lemma Around(s: string, k: nat)
    requires k < |s|
    ensures s == s[..k] + [s[k]] + s[k + 1..]
  {
    assert s[..k] + [s[k]] == s[..k + 1];
  }

  /** Joining a first piece onto at least one more. */
  lemma JoinCons(p: string, rest: seq<string>, sep: string)
    requires |rest| >= 1
    ensures Join([p] + rest, sep) == p + sep + Join(rest, sep)
  {
    assert ([p] + rest)[0] == p && ([p] + rest)[1..] == rest;
  }

  /** A first piece without the separator keeps a list of such pieces free of it. */
  lemma NoSepCons(p: string, rest: seq<string>, sep: char)
    requires (forall i :: 0 <= i < |p| ==> p[i] != sep) && NoSep(rest, sep)
    ensures NoSep([p] + rest, sep)
  {
    var parts := [p] + rest;
    forall j, i | 0 <= j < |parts| && 0 <= i < |parts[j]| ensures parts[j][i] != sep {
      if j > 0 {
        assert parts[j] == rest[j - 1];
      }
    }
  }

  /** The piece Split puts last is what follows the last separator. */
  lemma {:induction false} SplitLast(s: string, sep: char)
    ensures LastPiece(Split(s, sep)) == s[RFind(s, sep) + 1..]
    decreases |s|
  {
    var k := Find(s, sep);
    if k >= 0 {
      SplitLast(s[k + 1..], sep);
      SplitStepLast(s, sep, k);
      LastOfTail(s, sep, k, LastPiece(Split(s[k + 1..], sep)));
    } else {
      NoSepLast(s, sep);
    }
  }

  /** The last of a non-empty list of pieces. */
  function LastPiece(parts: seq<string>): string
    requires |parts| >= 1
  {
    parts[|parts| - 1]
  }

  /** A text without the separator is its own last piece. */
  lemma NoSepLast(s: string, sep: char)
    requires Find(s, sep) < 0
    ensures LastPiece(Split(s, sep)) == s[RFind(s, sep) + 1..]
  {
    assert Split(s, sep) == [s];
    assert RFind(s, sep) == -1;
    assert s[0..] == s;
  }

  /** Split's recursive step, as an equation. */
  lemma SplitStep(s: string, sep: char, k: int)
    requires k == Find(s, sep) && k >= 0
    ensures Split(s, sep) == [s[..k]] + Split(s[k + 1..], sep)
  {
  }

  /** Split's last piece after its recursive step. */
  lemma SplitStepLast(s: string, sep: char, k: int)
    requires k == Find(s, sep) && k >= 0
    ensures LastPiece(Split(s, sep)) == LastPiece(Split(s[k + 1..], sep))
  {
    SplitStep(s, sep, k);
    var t := Split(s[k + 1..], sep);
    assert ([s[..k]] + t)[|t|] == t[|t| - 1];
  }

  /** What follows the last separator of the text after a separator is what follows
      the last separator of the whole text. */
  lemma LastOfTail(s: string, sep: char, k: nat, last: string)
    requires k < |s| && s[k] == sep
    requires last == s[k + 1..][RFind(s[k + 1..], sep) + 1..]
    ensures last == s[RFind(s, sep) + 1..]
  {
    var r := RFind(s[k + 1..], sep);
    var m := k + 1 + r;
    assert s[m] == sep;
    SliceOfSlice(s, k + 1, r + 1);
    LastAfter(s, sep, m, last);
  }

  /** What follows a separator with none after it is what follows the last separator. */
  lemma LastAfter(s: string, sep: char, m: nat, last: string)
    requires m < |s| && s[m] == sep && (forall i :: m < i < |s| ==> s[i] != sep) && last == s[m + 1..]
    ensures last == s[RFind(s, sep) + 1..]
  {
    RFindIs(s, sep, m);
  }

  lemma SliceOfSlice(s: string, a: nat, b: nat)
    requires a + b <= |s|
    ensures s[a..][b..] == s[a + b..]
  {
  }

  /** RFind returns the index of a separator that has none after it. */
  lemma RFindIs(s: string, c: char, k: nat)
    requires k < |s| && s[k] == c && forall i :: k < i < |s| ==> s[i] != c
    ensures RFind(s, c) == k
  {
  }
}
