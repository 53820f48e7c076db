/**
 * The pieces of Kotlin's String library that the plotter parser and the log
 * filter are written with: trim, split, joinToString, contains(ignoreCase)
 * and the natural String ordering that sorted() uses.
 */
module Text {
  import opened Optional

  /** Char.isWhitespace on the JVM: Character.isWhitespace or Character.isSpaceChar. */
  predicate IsWhitespace(c: char)
  {
    || c == ' '
    || '\t' <= c <= '\r'
    || '\U{1C}' <= c <= '\U{1F}'
    || c == '\U{A0}' || c == '\U{1680}'
    || '\U{2000}' <= c <= '\U{200A}'
    || c == '\U{2028}' || c == '\U{2029}' || c == '\U{202F}' || c == '\U{205F}' || c == '\U{3000}'
  }

  /** `s` without its leading whitespace: a suffix of `s`. */
  function TrimStart(s: string): (r: string)
    ensures |r| <= |s| && r == s[|s| - |r|..]
    ensures r == [] || !IsWhitespace(r[0])
    ensures forall i :: 0 <= i < |s| - |r| ==> IsWhitespace(s[i])
  {
    if s != [] && IsWhitespace(s[0]) then TrimStart(s[1..]) else s
  }

  /** `s` without its trailing whitespace: a prefix of `s`. */
  function TrimEnd(s: string): (r: string)
    ensures |r| <= |s| && r == s[..|r|]
    ensures r == [] || !IsWhitespace(r[|r| - 1])
    ensures forall i :: |r| <= i < |s| ==> IsWhitespace(s[i])
  {
    if s != [] && IsWhitespace(s[|s| - 1]) then TrimEnd(s[..|s| - 1]) else s
  }

  /** Kotlin's String.trim(): empty exactly for blank input, otherwise framed by non-blank characters. */
  function Trim(s: string): (r: string)
    ensures r == [] <==> forall i :: 0 <= i < |s| ==> IsWhitespace(s[i])
    ensures r != [] ==> !IsWhitespace(r[0]) && !IsWhitespace(r[|r| - 1])
  {
    var t := TrimStart(s);
    assert forall i :: |s| - |t| <= i < |s| ==> s[i] == t[i - (|s| - |t|)];
    TrimEnd(t)
  }

  /** `d` occurs in `s` starting at position `j`. */
  predicate OccursAt(s: string, d: string, j: int)
  {
    0 <= j && j + |d| <= |s| && s[j..j + |d|] == d
  }

  /** Dropping the first character moves an occurrence one place left. */
  lemma OccursShift(s: string, d: string, j: int)
    requires s != [] && 1 <= j
    ensures OccursAt(s, d, j) <==> OccursAt(s[1..], d, j - 1)
  {
    if j + |d| <= |s| {
      assert s[1..][j - 1..j - 1 + |d|] == s[j..j + |d|];
    }
  }

  /** Kotlin's indexOf(d): the first position at which `d` occurs in `s`. */
  function IndexOf(s: string, d: string): (r: Option<nat>)
    ensures r.Some? ==> OccursAt(s, d, r.value) && forall j :: 0 <= j < r.value ==> !OccursAt(s, d, j)
    ensures r.None? ==> forall j :: !OccursAt(s, d, j)
    decreases |s|
  {
    if OccursAt(s, d, 0) then Some(0)
    else if s == [] then None
    else
      var r := IndexOf(s[1..], d);
      assert forall j {:trigger OccursAt(s, d, j)} :: 1 <= j ==> (OccursAt(s, d, j) <==> OccursAt(s[1..], d, j - 1)) by {
        forall j | 1 <= j
          ensures OccursAt(s, d, j) <==> OccursAt(s[1..], d, j - 1)
        {
          OccursShift(s, d, j);
        }
      }
      match r
      case None => None
      case Some(i) => Some(i + 1)
  }

  /** The first occurrence is where IndexOf reports it. */
  lemma IndexOfIs(s: string, d: string, k: nat)
    requires OccursAt(s, d, k) && forall j :: 0 <= j < k ==> !OccursAt(s, d, j)
    ensures IndexOf(s, d) == Some(k)
  {
  }

  /** The first occurrence of `d` stays the first one when text is appended. */
  lemma IndexOfExtend(s: string, t: string, d: string, i: nat)
    requires IndexOf(s, d) == Some(i)
    ensures IndexOf(s + t, d) == Some(i)
  {
    var st := s + t;
    assert st[i..i + |d|] == s[i..i + |d|];
    forall j | 0 <= j < i
      ensures !OccursAt(st, d, j)
    {
      assert !OccursAt(s, d, j);
      assert st[j..j + |d|] == s[j..j + |d|];
    }
    IndexOfIs(st, d, i);
  }

  /** Kotlin's CharSequence.contains(d). */
  predicate Contains(s: string, d: string)
  {
    IndexOf(s, d).Some?
  }

  /** An occurrence inside a slice is an occurrence in the whole string. */
  lemma OccursInSlice(s: string, d: string, a: nat, b: nat, j: int)
    requires a <= b <= |s|
    ensures OccursAt(s[a..b], d, j) ==> OccursAt(s, d, a + j) && a + j + |d| <= b
  {
    if OccursAt(s[a..b], d, j) {
      forall k | 0 <= k < |d|
        ensures s[a + j + k] == d[k]
      {
        assert s[a..b][j..j + |d|][k] == d[k];
      }
      assert s[a + j..a + j + |d|] == d;
    }
  }

  /** An occurrence of `d` inside a slice is an occurrence in the whole string. */
  lemma ContainsInSlice(s: string, d: string, a: nat, b: nat)
    requires a <= b <= |s|
    ensures Contains(s[a..b], d) ==> Contains(s, d)
  {
    if Contains(s[a..b], d) {
      OccursInSlice(s, d, a, b, IndexOf(s[a..b], d).value);
    }
  }

  /** Trimming only removes characters, so it cannot create an occurrence of `d`. */
  lemma ContainsInTrim(s: string, d: string)
    ensures Contains(Trim(s), d) ==> Contains(s, d)
  {
    var t := TrimStart(s);
    ContainsInPrefix(t, TrimEnd(t), d);
    ContainsInSuffix(s, t, d);
  }

  /** A prefix of `s` contains `d` only if `s` does. */
  lemma ContainsInPrefix(s: string, p: string, d: string)
    requires |p| <= |s| && p == s[..|p|]
    ensures Contains(p, d) ==> Contains(s, d)
  {
    assert p == s[0..|p|];
    ContainsInSlice(s, d, 0, |p|);
  }

  /** A suffix of `s` contains `d` only if `s` does. */
  lemma ContainsInSuffix(s: string, p: string, d: string)
    requires |p| <= |s| && p == s[|s| - |p|..]
    ensures Contains(p, d) ==> Contains(s, d)
  {
    assert p == s[|s| - |p|..|s|];
    ContainsInSlice(s, d, |s| - |p|, |s|);
  }

  /** A one-character delimiter occurs in `s` exactly when the character does. */
  lemma ContainsChar(s: string, c: char)
    ensures Contains(s, [c]) <==> c in s
  {
    if Contains(s, [c]) {
      var j := IndexOf(s, [c]).value;
      assert s[j..j + 1][0] == s[j];
    }
    if c in s {
      var j :| 0 <= j < |s| && s[j] == c;
      assert OccursAt(s, [c], j);
    }
  }

  /**
   * Kotlin's split(d): the pieces between the non-overlapping occurrences of
   * `d`, found left to right, empty pieces kept, so k occurrences give k+1
   * pieces; an empty delimiter cuts before and after every character.
   */
  function Split(s: string, d: string): (r: seq<string>)
    ensures |r| >= 1
    decreases |s|
  {
    if d == [] then EmptySplit(s)
    else
      match IndexOf(s, d)
      case None => [s]
      case Some(i) => [s[..i]] + Split(s[i + |d|..], d)
  }

  /** Kotlin's split("") : an empty piece, every character on its own, an empty piece. */
  function EmptySplit(s: string): seq<string>
  {
    [""] + seq(|s|, i requires 0 <= i < |s| => [s[i]]) + [""]
  }

  /** The summed lengths of the parts. */
  function TotalLength(parts: seq<string>): nat
  {
    if parts == [] then 0 else |parts[0]| + TotalLength(parts[1..])
  }

  /** Kotlin's joinToString(sep): the parts in order, with one separator between neighbours and none at the ends. */
  function Join(parts: seq<string>, sep: string): (r: string)
    ensures |parts| >= 1 ==> parts[0] <= r && |r| == TotalLength(parts) + (|parts| - 1) * |sep|
  {
    if |parts| == 0 then ""
    else if |parts| == 1 then parts[0]
    else parts[0] + sep + Join(parts[1..], sep)
  }

  /** No piece produced by a split contains the (non-empty) delimiter. */
  lemma {:induction false} SplitPiecesAvoidDelimiter(s: string, d: string)
    requires d != []
    ensures forall p :: p in Split(s, d) ==> !Contains(p, d)
    decreases |s|
  {
    match IndexOf(s, d)
    case None =>
    case Some(i) =>
      var rest := s[i + |d|..];
      SplitPiecesAvoidDelimiter(rest, d);
      FirstPieceAvoidsDelimiter(s, d, i);
      SplitCons(s, d, i);
      InConsPiece(s[..i], Split(rest, d));
  }

  /** The members of a list with one piece in front. */
  lemma InConsPiece(x: string, tail: seq<string>)
    ensures forall p :: p in [x] + tail ==> p == x || p in tail
  {
  }

  /** The text before the first occurrence of a non-empty `d` does not contain `d`. */
  lemma FirstPieceAvoidsDelimiter(s: string, d: string, i: nat)
    requires d != [] && IndexOf(s, d) == Some(i)
    ensures !Contains(s[..i], d)
  {
    forall j
      ensures !OccursAt(s[..i], d, j)
    {
      OccursInSlice(s, d, 0, i, j);
    }
  }

  /** Joining the pieces of a split with the same delimiter gives back the string. */
  lemma {:induction false} JoinSplit(s: string, d: string)
    requires d != []
    ensures Join(Split(s, d), d) == s
    decreases |s|
  {
    match IndexOf(s, d)
    case None =>
    case Some(i) =>
      var rest := s[i + |d|..];
      var tail := Split(rest, d);
      JoinSplit(rest, d);
      SplitCons(s, d, i);
      JoinCons(s[..i], tail, d);
      assert s[i..i + |d|] == d;
      Reassemble(s, i, |d|);
  }

  /** A string is its prefix, a middle slice and the suffix after it. */
  lemma Reassemble(s: string, i: nat, n: nat)
    requires i + n <= |s|
    ensures s[..i] + s[i..i + n] + s[i + n..] == s
  {
  }

  /** One step of a split at the first occurrence, position `i`. */
  lemma SplitCons(s: string, d: string, i: nat)
    requires d != [] && IndexOf(s, d) == Some(i)
    ensures Split(s, d) == [s[..i]] + Split(s[i + |d|..], d)
  {
  }

  /** One step of a join. */
  lemma JoinCons(x: string, tail: seq<string>, d: string)
    requires tail != []
    ensures Join([x] + tail, d) == x + d + Join(tail, d)
  {
    assert ([x] + tail)[1..] == tail;
  }

  /** Appending text after the first occurrence of `d` leaves the first piece alone. */
  lemma SplitAppendStep(s: string, t: string, d: string, i: nat)
    requires d != [] && IndexOf(s, d) == Some(i)
    ensures Split(s + t, d) == [s[..i]] + Split(s[i + |d|..] + t, d)
  {
    var st := s + t;
    IndexOfExtend(s, t, d, i);
    assert st[i + |d|..] == s[i + |d|..] + t;
    assert st[..i] == s[..i];
    SplitConsAs(st, d, i, s[..i], s[i + |d|..] + t);
  }

  /** SplitCons with the two sides of the first occurrence named. */
  lemma SplitConsAs(s: string, d: string, i: nat, before: string, after: string)
    requires d != [] && IndexOf(s, d) == Some(i)
    requires s[..i] == before && s[i + |d|..] == after
    ensures Split(s, d) == [before] + Split(after, d)
  {
    SplitCons(s, d, i);
  }

  /** A trailing delimiter adds one empty last piece. */
  lemma {:induction false} SplitTrailing(s: string, c: char)
    ensures Split(s + [c], [c]) == Split(s, [c]) + [""]
    decreases |s|
  {
    match IndexOf(s, [c])
    case None =>
      SplitTrailingUnsplit(s, c);
    case Some(i) =>
      SplitTrailing(s[i + 1..], c);
      SplitTrailingStep(s, c, i);
  }

  /** The step of SplitTrailing: a trailing delimiter goes to the split of the text after the first one. */
  lemma SplitTrailingStep(s: string, c: char, i: nat)
    requires IndexOf(s, [c]) == Some(i)
    requires Split(s[i + 1..] + [c], [c]) == Split(s[i + 1..], [c]) + [""]
    ensures Split(s + [c], [c]) == Split(s, [c]) + [""]
  {
    var rest := s[i + 1..];
    assert s[i + |[c]|..] == rest;
    SplitAppendStep(s, [c], [c], i);
    SplitCons(s, [c], i);
    assert [s[..i]] + (Split(rest, [c]) + [""]) == ([s[..i]] + Split(rest, [c])) + [""];
  }

  /** A trailing delimiter after a text free of it splits off one empty last piece. */
  lemma SplitTrailingUnsplit(s: string, c: char)
    requires IndexOf(s, [c]).None?
    ensures Split(s + [c], [c]) == [s, ""]
  {
    var s' := s + [c];
    ContainsChar(s, c);
    IndexOfAfterPiece(s, c, "");
    assert s + [c] + "" == s';
    SplitCons(s', [c], |s|);
    assert s'[..|s|] == s;
    assert s'[|s| + 1..] == "";
  }

  /** A one-character delimiter placed after a piece free of it is found right there. */
  lemma IndexOfAfterPiece(x: string, c: char, y: string)
    requires c !in x
    ensures IndexOf(x + [c] + y, [c]) == Some(|x|)
  {
    var s := x + [c] + y;
    assert s[|x|..|x| + 1] == [c];
    forall j | 0 <= j < |x|
      ensures !OccursAt(s, [c], j)
    {
      assert s[j..j + 1] == [x[j]];
    }
    IndexOfIs(s, [c], |x|);
  }

  /** Splitting a join on a one-character delimiter that no part contains gives back the parts. */
  lemma {:induction false} SplitJoin(parts: seq<string>, c: char)
    requires |parts| >= 1
    requires forall p :: p in parts ==> c !in p
    ensures Split(Join(parts, [c]), [c]) == parts
    decreases |parts|
  {
    if |parts| == 1 {
      ContainsChar(parts[0], c);
    } else {
      var x, rest := parts[0], parts[1..];
      var tail := Join(rest, [c]);
      var s := Join(parts, [c]);
      assert s == x + [c] + tail;
      IndexOfAfterPiece(x, c, tail);
      SplitJoin(rest, c);
      assert s[..|x|] == x;
      assert s[|x| + 1..] == tail;
    }
  }

  /** ASCII upper-case mapping (Char.uppercaseChar restricted to ASCII). */
  function UpperAscii(c: char): char
  {
    if 'a' <= c <= 'z' then (c as int - 32) as char else c
  }

  /** ASCII lower-case mapping (Char.lowercaseChar restricted to ASCII). */
  function LowerAscii(c: char): char
  {
    if 'A' <= c <= 'Z' then (c as int + 32) as char else c
  }

  /** Kotlin's Char.equals(other, ignoreCase = true), over the ASCII case mapping. */
  predicate CharEqualsIgnoreCase(a: char, b: char)
  {
    a == b || UpperAscii(a) == UpperAscii(b) || LowerAscii(UpperAscii(a)) == LowerAscii(UpperAscii(b))
  }

  /** `f` matches the start of `s`, character by character ignoring case. */
  predicate StartsWithIgnoreCase(s: string, f: string)
  {
    |f| <= |s| && forall i :: 0 <= i < |f| ==> CharEqualsIgnoreCase(s[i], f[i])
  }

  /** Kotlin's CharSequence.contains(other, ignoreCase = true). */
  predicate ContainsIgnoreCase(s: string, f: string)
    ensures ContainsIgnoreCase(s, f) ==> |f| <= |s|
  {
    exists i :: 0 <= i <= |s| && StartsWithIgnoreCase(s[i..], f)
  }

  /** The empty filter is found everywhere, and an exact occurrence is found ignoring case too. */
  lemma ContainsIgnoreCaseBasics(s: string, f: string)
    ensures f == [] ==> ContainsIgnoreCase(s, f)
    ensures Contains(s, f) ==> ContainsIgnoreCase(s, f)
  {
    if f == [] {
      assert StartsWithIgnoreCase(s[0..], f);
    }
    if Contains(s, f) {
      var i := IndexOf(s, f).value;
      assert StartsWithIgnoreCase(s[i..], f);
    }
  }

  /** Kotlin's String.compareTo: lexicographic on characters, a proper prefix first. */
  predicate LexLess(a: string, b: string)
    ensures |a| < |b| && a == b[..|a|] ==> LexLess(a, b)
    decreases |a|
  {
    if a == [] then b != []
    else if b == [] then false
    else a[0] < b[0] || (a[0] == b[0] && LexLess(a[1..], b[1..]))
  }

  lemma LexLessAsymmetric(a: string, b: string)
    ensures !(LexLess(a, b) && LexLess(b, a))
  {
    if LexLess(a, b) && LexLess(b, a) {
      LexLessTransitive(a, b, a);
      LexLessIrreflexive(a);
    }
  }

  lemma {:induction false} LexLessIrreflexive(a: string)
    ensures !LexLess(a, a)
    decreases |a|
  {
    if a != [] {
      LexLessIrreflexive(a[1..]);
    }
  }

  lemma {:induction false} LexLessTransitive(a: string, b: string, c: string)
    requires LexLess(a, b) && LexLess(b, c)
    ensures LexLess(a, c)
    decreases |a|
  {
    if a != [] && b != [] && c != [] && a[0] == b[0] == c[0] {
      LexLessTransitive(a[1..], b[1..], c[1..]);
    }
  }

  lemma {:induction false} LexLessTotal(a: string, b: string)
    requires a != b
    ensures LexLess(a, b) || LexLess(b, a)
    decreases |a|
  {
    if a != [] && b != [] && a[0] == b[0] {
      assert a == [a[0]] + a[1..] && b == [b[0]] + b[1..];
      LexLessTotal(a[1..], b[1..]);
    }
  }

  /** No element of `s` lies below `m`. */
  predicate IsLeast(s: set<string>, m: string)
  {
    forall x :: x in s ==> !LexLess(x, m)
  }

  /** Every element of `s` other than a minimum `m` lies above it. */
  lemma AboveMinimum(s: set<string>, m: string)
    requires IsLeast(s, m)
    ensures forall x :: x in s && x != m ==> LexLess(m, x)
  {
    forall x | x in s && x != m
      ensures LexLess(m, x)
    {
      LexLessTotal(m, x);
    }
  }

  /** A non-empty finite set of strings has a least element. */
  lemma {:induction false} MinimumExists(s: set<string>)
    requires s != {}
    ensures exists m :: m in s && IsLeast(s, m)
    decreases |s|
  {
    var y :| y in s;
    LexLessIrreflexive(y);
    if s == {y} {
      assert IsLeast(s, y);
    } else {
      var rest := s - {y};
      MinimumExists(rest);
      var m :| m in rest && IsLeast(rest, m);
      if LexLess(y, m) {
        forall x | x in s
          ensures !LexLess(x, y)
        {
          if x != y && LexLess(x, y) {
            LexLessTransitive(x, y, m);
          }
        }
        assert IsLeast(s, y);
      } else {
        assert IsLeast(s, m);
      }
    }
  }

  /** A set has at most one least element. */
  lemma LeastUnique(s: set<string>)
    ensures forall m, m' :: m in s && IsLeast(s, m) && m' in s && IsLeast(s, m') ==> m == m'
  {
    forall m, m' | m in s && IsLeast(s, m) && m' in s && IsLeast(s, m')
      ensures m == m'
    {
      if m != m' {
        LexLessTotal(m, m');
      }
    }
  }

  /** A set of strings in ascending order: what Kotlin's `keys.sorted()` returns. */
  function SortedKeys(s: set<string>): (r: seq<string>)
    ensures |r| == |s|
    ensures forall x :: x in r <==> x in s
    ensures forall i, j :: 0 <= i < j < |r| ==> LexLess(r[i], r[j])
    decreases |s|
  {
    if s == {} then []
    else
      MinimumExists(s);
      LeastUnique(s);
      var m :| m in s && IsLeast(s, m);
      AboveMinimum(s, m);
      var rest := SortedKeys(s - {m});
      LeastThenSorted(s, m, rest);
      [m] + rest
  }

  /** The least key in front of the sorted rest lists the whole set in order. */
  lemma LeastThenSorted(s: set<string>, m: string, rest: seq<string>)
    requires m in s && forall x :: x in s && x != m ==> LexLess(m, x)
    requires |rest| == |s - {m}| && forall x :: x in rest <==> x in s - {m}
    requires forall i, j :: 0 <= i < j < |rest| ==> LexLess(rest[i], rest[j])
    ensures |[m] + rest| == |s|
    ensures forall x :: x in [m] + rest <==> x in s
    ensures forall i, j :: 0 <= i < j < |[m] + rest| ==> LexLess(([m] + rest)[i], ([m] + rest)[j])
  {
    var r := [m] + rest;
    forall i, j | 0 <= i < j < |r|
      ensures LexLess(r[i], r[j])
    {
      if i > 0 {
        assert r[i] == rest[i - 1] && r[j] == rest[j - 1];
      } else {
        assert r[j] == rest[j - 1] && r[j] in s - {m};
      }
    }
  }

  /** The sorted order starts with the least key, whichever way that key is found. */
  lemma SortedKeysHead(s: set<string>, m: string)
    requires m in s && IsLeast(s, m)
    ensures SortedKeys(s) == [m] + SortedKeys(s - {m})
  {
    var r := SortedKeys(s);
    SortedHeadLeast(r);
    assert m in r;
    LexLessAsymmetric(m, r[0]);
    assert r[0] == m;
    LexLessIrreflexive(m);
    assert r == [m] + r[1..];
    SortedUnique(r[1..], SortedKeys(s - {m}));
  }

  /** The head of a strictly ascending sequence lies below every other element. */
  lemma SortedHeadLeast(a: seq<string>)
    requires a != []
    requires forall i, j :: 0 <= i < j < |a| ==> LexLess(a[i], a[j])
    ensures forall x :: x in a ==> x == a[0] || LexLess(a[0], x)
  {
  }

  /** Two strictly ascending sequences of one length with the same elements are equal. */
  lemma {:induction false} SortedUnique(a: seq<string>, b: seq<string>)
    requires |a| == |b|
    requires forall i, j :: 0 <= i < j < |a| ==> LexLess(a[i], a[j])
    requires forall i, j :: 0 <= i < j < |b| ==> LexLess(b[i], b[j])
    requires forall x :: x in a <==> x in b
    ensures a == b
    decreases |a|
  {
    if a != [] {
      assert a[0] in a && b[0] in b;
      SortedHeadLeast(a);
      SortedHeadLeast(b);
      LexLessAsymmetric(a[0], b[0]);
      assert a[0] == b[0];
      forall x
        ensures x in a[1..] <==> x in b[1..]
      {
        LexLessIrreflexive(x);
        if x in a[1..] {
          var k :| 1 <= k < |a| && a[k] == x;
          assert x in b && x != b[0];
          var k' :| 0 <= k' < |b| && b[k'] == x;
          assert b[1..][k' - 1] == x;
        }
        if x in b[1..] {
          var k :| 1 <= k < |b| && b[k] == x;
          assert x in a && x != a[0];
          var k' :| 0 <= k' < |a| && a[k'] == x;
          assert a[1..][k' - 1] == x;
        }
      }
      SortedUnique(a[1..], b[1..]);
    }
  }
}
