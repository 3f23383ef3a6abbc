/**
 * The JavaScript string operations the application relies on: `trim`,
 * `split` on one character, `join`, a global literal `replace`, the
 * `/\s+/g` replacement and decimal rendering of a number.
 */
module Text {

  /** A JavaScript white-space character: what `\s` matches and what `trim` removes. */
  predicate IsSpace(c: char) {
    || c == ' ' || c == '\t' || c == '\n' || c == '\r' || c == '\U{B}' || c == '\U{C}'
    || c == '\U{A0}' || c == '\U{1680}' || ('\U{2000}' <= c <= '\U{200A}')
    || c == '\U{2028}' || c == '\U{2029}' || c == '\U{202F}' || c == '\U{205F}'
    || c == '\U{3000}' || c == '\U{FEFF}'
  }

  predicate AllSpace(s: string) {
    forall i :: 0 <= i < |s| ==> IsSpace(s[i])
  }

  predicate NoSpace(s: string) {
    forall i :: 0 <= i < |s| ==> !IsSpace(s[i])
  }

  /** Neither starts nor ends with white space. */
  predicate Trimmed(s: string) {
    s == [] || (!IsSpace(s[0]) && !IsSpace(s[|s| - 1]))
  }

  /** `p` occurs somewhere in `s`. */
  predicate HasSub(s: string, p: string) {
    exists i :: 0 <= i <= |s| && OccursAt(s, p, i)
  }

  /** `p` occurs in `s` at position `i`. */
  predicate OccursAt(s: string, p: string, i: nat) {
    i + |p| <= |s| && s[i..i + |p|] == p
  }

  function TrimStart(s: string): (r: string)
    ensures |r| <= |s| && r == s[|s| - |r|..]
    ensures AllSpace(s[..|s| - |r|])
    ensures r == [] || !IsSpace(r[0])
  {
    if s != [] && IsSpace(s[0]) then TrimStart(s[1..]) else s
  }

  function TrimEnd(s: string): (r: string)
    ensures |r| <= |s| && r == s[..|r|]
    ensures AllSpace(s[|r|..])
    ensures r == [] || !IsSpace(r[|r| - 1])
  {
    if s != [] && IsSpace(s[|s| - 1]) then TrimEnd(s[..|s| - 1]) else s
  }

  /** Where `Trim(s)` starts inside `s`. */
  function TrimOffset(s: string): nat
    ensures TrimOffset(s) <= |s|
  {
    |s| - |TrimStart(s)|
  }

  /** `String.prototype.trim`. */
  function Trim(s: string): (r: string)
    ensures Trimmed(r)
    ensures TrimOffset(s) + |r| <= |s| && r == s[TrimOffset(s)..TrimOffset(s) + |r|]
  {
    var t := TrimStart(s);
    var r := TrimEnd(t);
    TrimParts(s, TrimOffset(s), t, r);
    r
  }

  /** The end-trim of the start-trim is a slice of `s` with no white space at either end. */
  lemma TrimParts(s: string, off: nat, t: string, r: string)
    requires off + |t| == |s| && t == s[off..] && (t == [] || !IsSpace(t[0]))
    requires |r| <= |t| && r == t[..|r|] && (r == [] || !IsSpace(r[|r| - 1]))
    ensures Trimmed(r)
    ensures off + |r| <= |s| && r == s[off..off + |r|]
  {
    forall i | 0 <= i < |r| ensures r[i] == s[off + i] {
      assert r[i] == t[i] && t[i] == s[off..][i];
    }
    if r != [] {
      assert r[0] == t[0];
    }
  }

  lemma {:induction false} TrimStartSkipsSpace(w: string, x: string)
    requires AllSpace(w)
    ensures TrimStart(w + x) == TrimStart(x)
  {
    if w != [] {
      assert (w + x)[0] == w[0] && IsSpace(w[0]);
      assert (w + x)[1..] == w[1..] + x;
      TrimStartSkipsSpace(w[1..], x);
    } else {
      assert w + x == x;
    }
  }

  lemma {:induction false} TrimEndSkipsSpace(x: string, w: string)
    requires AllSpace(w)
    ensures TrimEnd(x + w) == TrimEnd(x)
  {
    if w != [] {
      assert (x + w)[|x + w| - 1] == w[|w| - 1] && IsSpace(w[|w| - 1]);
      assert (x + w)[..|x + w| - 1] == x + w[..|w| - 1];
      TrimEndSkipsSpace(x, w[..|w| - 1]);
    } else {
      assert x + w == x;
    }
  }

  /**
   * Trim removes exactly the surrounding white space: together with
   * `Trimmed(Trim(s))` this characterises the result.
   */
  lemma {:induction false} TrimSurrounded(w1: string, x: string, w2: string)
    requires AllSpace(w1) && AllSpace(w2) && Trimmed(x)
    ensures Trim(w1 + x + w2) == x
  {
    assert w1 + x + w2 == w1 + (x + w2);
    TrimStartSkipsSpace(w1, x + w2);
    if x == [] {
      assert x + w2 == w2;
      assert TrimStart(w2) == [] by {
        TrimStartSkipsSpace(w2, []);
        assert w2 + [] == w2;
      }
    } else {
      assert TrimStart(x + w2) == x + w2;
    }
    TrimEndSkipsSpace(x, w2);
  }

  lemma TrimOfTrimmed(s: string)
    requires Trimmed(s)
    ensures Trim(s) == s
  {
    TrimSurrounded([], s, []);
    assert [] + s + [] == s;
  }

  /** A slice of a string that avoids `p` avoids `p` too. */
  lemma NoSubInSlice(s: string, p: string, a: nat, b: nat)
    requires a <= b <= |s| && !HasSub(s, p)
    ensures !HasSub(s[a..b], p)
  {
    forall i | 0 <= i <= b - a ensures !OccursAt(s[a..b], p, i) {
      if i + |p| <= b - a {
        var x, y := s[a..b][i..i + |p|], s[a + i..a + i + |p|];
        forall j | 0 <= j < |p| ensures x[j] == y[j] {
          assert x[j] == s[a + i + j];
        }
        assert x == y;
        assert !OccursAt(s, p, a + i);
      }
    }
  }

  /** Trimming cannot create an occurrence. */
  lemma TrimKeepsNoSub(s: string, p: string)
    requires !HasSub(s, p)
    ensures !HasSub(Trim(s), p)
  {
    NoSubInSlice(s, p, TrimOffset(s), TrimOffset(s) + |Trim(s)|);
  }

  /** A string of white space that does not start with white space is empty. */
  lemma SpaceLedIsEmpty(x: string)
    requires AllSpace(x) && (x == [] || !IsSpace(x[0]))
    ensures x == []
  {
  }

  /** `s.trim()` is empty exactly when `s` is nothing but white space. */
  lemma TrimEmptyIffAllSpace(s: string)
    ensures Trim(s) == "" <==> AllSpace(s)
  {
    if AllSpace(s) {
      TrimSurrounded(s, "", "");
      assert s + "" + "" == s;
    }
    var t := TrimStart(s);
    var k := |s| - |t|;
    if TrimEnd(t) == "" {
      assert t[0..] == t;
      SpaceLedIsEmpty(t);
      forall i | 0 <= i < |s| ensures IsSpace(s[i]) {
        assert s[..k][i] == s[i];
      }
    }
  }

  /** Trimming only removes characters. */
  lemma TrimKeepsOut(s: string, c: char)
    requires c !in s
    ensures c !in Trim(s)
  {
    var t := Trim(s);
    forall i | 0 <= i < |t| ensures t[i] != c {
      assert t[i] == s[TrimOffset(s) + i];
    }
  }

  /** Number of occurrences of the character `c` in `s`. */
  function Count(s: string, c: char): nat {
    if s == [] then 0 else (if s[0] == c then 1 else 0) + Count(s[1..], c)
  }

  /** `s.split(sep)` for a one-character separator. */
  function Split(s: string, sep: char): (parts: seq<string>)
    ensures |parts| == Count(s, sep) + 1
    ensures forall k :: 0 <= k < |parts| ==> sep !in parts[k]
  {
    if s == [] then [""]
    else if s[0] == sep then [""] + Split(s[1..], sep)
    else
      var rest := Split(s[1..], sep);
      [[s[0]] + rest[0]] + rest[1..]
  }

  /** `parts.join(sep)`. */
  function Join(parts: seq<string>, sep: string): string {
    if parts == [] then ""
    else if |parts| == 1 then parts[0]
    else parts[0] + sep + Join(parts[1..], sep)
  }

  /** Joining the pieces of a split with the separator gives back the string. */
  lemma {:induction false} JoinSplit(s: string, sep: char)
    ensures Join(Split(s, sep), [sep]) == s
  {
    if s == [] {
    } else if s[0] == sep {
      JoinSplit(s[1..], sep);
      assert s == [sep] + s[1..];
    } else {
      var rest := Split(s[1..], sep);
      JoinSplit(s[1..], sep);
      if |rest| == 1 {
        assert s == [s[0]] + rest[0];
      } else {
        assert Join(rest, [sep]) == rest[0] + [sep] + Join(rest[1..], [sep]);
        assert s == [s[0]] + s[1..];
      }
    }
  }

  /** Splitting a string that starts with a separator-free prefix and a separator. */
  lemma {:induction false} SplitAfterPiece(a: string, sep: char, b: string)
    requires sep !in a
    ensures Split(a + [sep] + b, sep) == [a] + Split(b, sep)
  {
    if a == [] {
      assert a + [sep] + b == [sep] + b;
      assert ([sep] + b)[1..] == b;
    } else {
      SplitAfterPiece(a[1..], sep, b);
      assert (a + [sep] + b)[1..] == a[1..] + [sep] + b;
      assert [a[0]] + a[1..] == a;
    }
  }

  /** A string without the separator splits into itself alone. */
  lemma {:induction false} SplitWhole(a: string, sep: char)
    requires sep !in a
    ensures Split(a, sep) == [a]
  {
    if a != [] {
      SplitWhole(a[1..], sep);
      assert [a[0]] + a[1..] == a;
    }
  }

  /** Splitting a join gives back the pieces, when none holds the separator. */
  lemma {:induction false} SplitJoin(parts: seq<string>, sep: char)
    requires |parts| > 0
    requires forall k :: 0 <= k < |parts| ==> sep !in parts[k]
    ensures Split(Join(parts, [sep]), sep) == parts
  {
    if |parts| == 1 {
      SplitWhole(parts[0], sep);
    } else {
      SplitJoin(parts[1..], sep);
      SplitAfterPiece(parts[0], sep, Join(parts[1..], [sep]));
      assert [parts[0]] + parts[1..] == parts;
    }
  }

  /**
   * `s.replace(/p/g, "")` for a literal pattern: occurrences are removed
   * from left to right, matching resumes after each removed occurrence.
   */
  function RemoveAll(s: string, p: string): (r: string)
    requires |p| > 0
    ensures |r| <= |s|
    decreases |s|
  {
    if |s| < |p| then s
    else if s[..|p|] == p then RemoveAll(s[|p|..], p)
    else [s[0]] + RemoveAll(s[1..], p)
  }

  /** Nothing is removed from a string in which the pattern does not occur. */
  lemma {:induction false} RemoveAllAbsent(s: string, p: string)
    requires |p| > 0 && !HasSub(s, p)
    ensures RemoveAll(s, p) == s
    decreases |s|
  {
    if |s| >= |p| {
      assert !OccursAt(s, p, 0);
      assert s[0..0 + |p|] == s[..|p|];
      NoSubInSlice(s, p, 1, |s|);
      assert s[1..|s|] == s[1..];
      RemoveAllAbsent(s[1..], p);
      assert [s[0]] + s[1..] == s;
    }
  }

  /** Characters that cannot start the pattern pass through unchanged. */
  lemma {:induction false} RemoveAllPrefix(a: string, b: string, p: string)
    requires |p| > 0 && p[0] !in a
    ensures RemoveAll(a + b, p) == a + RemoveAll(b, p)
    decreases |a|
  {
    if a != [] {
      var s := a + b;
      assert s[0] == a[0];
      assert s[1..] == a[1..] + b;
      RemoveAllPrefix(a[1..], b, p);
      if |s| < |p| {
        assert RemoveAll(b, p) == b;
      } else {
        assert s[..|p|][0] != p[0];
      }
      assert [a[0]] + (a[1..] + RemoveAll(b, p)) == a + RemoveAll(b, p);
    } else {
      assert a + b == b;
    }
  }

  /** A string that does not start with `c` keeps that after a removal of a pattern starting with `c`. */
  lemma {:induction false} RemoveAllKeepsHead(s: string, p: string)
    requires |p| > 0 && (s == [] || s[0] != p[0])
    ensures RemoveAll(s, p) == [] || RemoveAll(s, p)[0] == s[0]
  {
  }

  const Fence: string := "```"

  /** Putting a character in front cannot create an occurrence past the front. */
  lemma NoSubAfterHead(c: char, t: string, p: string)
    requires !HasSub(t, p)
    ensures forall i :: 0 < i <= |[c] + t| ==> !OccursAt([c] + t, p, i)
  {
    var r := [c] + t;
    forall i | 0 < i <= |r| ensures !OccursAt(r, p, i) {
      if i + |p| <= |r| {
        assert r[i..i + |p|] == t[i - 1..i - 1 + |p|];
        assert !OccursAt(t, p, i - 1);
      }
    }
  }

  /** A string that does not start with "```" does not start with it after the removal either. */
  lemma FenceNotAtFront(s: string)
    requires |s| >= 3 && s[..3] != Fence
    ensures !OccursAt(RemoveAll(s, Fence), Fence, 0)
  {
    var r := RemoveAll(s, Fence);
    var t := RemoveAll(s[1..], Fence);
    assert r == [s[0]] + t;
    if |r| >= 3 {
      assert r[..3][0] == s[0] && r[..3][1] == t[0] && r[..3][2] == t[1];
      if s[0] == '`' && s[1] == '`' {
        assert s[2] != '`' by {
          assert s[..3] == [s[0], s[1], s[2]];
        }
        RemoveAllKeepsHead(s[2..], Fence);
        if |s[1..]| < 3 {
          assert t == s[1..];
        } else {
          assert s[1..][..3][1] == s[2];
          assert t == [s[1]] + RemoveAll(s[1..][1..], Fence);
          assert s[1..][1..] == s[2..];
        }
        assert t[1] == s[2];
      } else if s[0] == '`' {
        RemoveAllKeepsHead(s[1..], Fence);
      }
    }
  }

  /** After removing every "```", no "```" is left: runs of backticks are cut down below three. */
  lemma {:induction false} RemoveFenceLeavesNone(s: string)
    ensures !HasSub(RemoveAll(s, Fence), Fence)
    decreases |s|
  {
    var r := RemoveAll(s, Fence);
    if |s| < 3 {
      assert |r| < 3;
    } else if s[..3] == Fence {
      RemoveFenceLeavesNone(s[3..]);
    } else {
      RemoveFenceLeavesNone(s[1..]);
      assert r == [s[0]] + RemoveAll(s[1..], Fence);
      NoSubAfterHead(s[0], RemoveAll(s[1..], Fence), Fence);
      FenceNotAtFront(s);
    }
  }

  /**
   * `s.replace(/\s+/g, "_")`: every maximal run of white space becomes
   * one underscore.
   */
  function CollapseSpace(s: string): (r: string)
    ensures NoSpace(r)
    decreases |s|
  {
    if s == [] then []
    else if IsSpace(s[0]) then
      var rest := TrimStart(s);
      assert |rest| < |s| by {
        assert rest == [] || rest[0] != s[0];
      }
      "_" + CollapseSpace(rest)
    else [s[0]] + CollapseSpace(s[1..])
  }

  /** A string without white space is left as it is. */
  lemma {:induction false} CollapseSpaceIdentity(s: string)
    requires NoSpace(s)
    ensures CollapseSpace(s) == s
  {
    if s != [] {
      CollapseSpaceIdentity(s[1..]);
      assert [s[0]] + s[1..] == s;
    }
  }

  /** One run of white space between a word and the rest becomes exactly one underscore. */
  lemma CollapseSpaceRun(a: string, w: string, b: string)
    requires NoSpace(a) && w != [] && AllSpace(w) && (b == [] || !IsSpace(b[0]))
    ensures CollapseSpace(a + w + b) == a + "_" + CollapseSpace(b)
  {
    assert a + w + b == a + (w + b);
    CollapseKeepsWord(a, w + b);
    CollapseLeadingRun(w, b);
    assert a + ("_" + CollapseSpace(b)) == a + "_" + CollapseSpace(b);
  }

  /** A word without white space in front of the rest is copied as it is. */
  lemma {:induction false} CollapseKeepsWord(a: string, s: string)
    requires NoSpace(a)
    ensures CollapseSpace(a + s) == a + CollapseSpace(s)
    decreases |a|
  {
    if a != [] {
      HeadSplit(a, s, CollapseSpace(s));
      NoSpaceTail(a);
      CollapseKeepsWordChar(a[0], a[1..] + s);
      CollapseKeepsWord(a[1..], s);
    } else {
      assert a + s == s && a + CollapseSpace(s) == CollapseSpace(s);
    }
  }

  /** Splitting off the first element of a non-empty prefix. */
  lemma HeadSplit<T>(a: seq<T>, x: seq<T>, y: seq<T>)
    requires a != []
    ensures a + x == [a[0]] + (a[1..] + x)
    ensures [a[0]] + (a[1..] + y) == a + y
  {
    assert a == [a[0]] + a[1..];
  }

  lemma NoSpaceTail(a: string)
    requires a != [] && NoSpace(a)
    ensures NoSpace(a[1..])
  {
    forall i | 0 <= i < |a[1..]| ensures !IsSpace(a[1..][i]) {
      assert a[1..][i] == a[i + 1];
    }
  }

  /** A leading run of white space becomes one underscore. */
  lemma CollapseLeadingRun(w: string, b: string)
    requires w != [] && AllSpace(w) && (b == [] || !IsSpace(b[0]))
    ensures CollapseSpace(w + b) == "_" + CollapseSpace(b)
  {
    var x := w + b;
    assert x[0] == w[0];
    CollapseAtSpace(x);
    TrimStartSkipsSpace(w, b);
    assert TrimStart(b) == b;
  }

  /** At white space, the collapse writes one underscore and goes on past the whole run. */
  lemma CollapseAtSpace(x: string)
    requires x != [] && IsSpace(x[0])
    ensures CollapseSpace(x) == "_" + CollapseSpace(TrimStart(x))
  {
  }

  /** A leading character that is not white space is copied. */
  lemma CollapseKeepsWordChar(c: char, s: string)
    requires !IsSpace(c)
    ensures CollapseSpace([c] + s) == [c] + CollapseSpace(s)
  {
    assert ([c] + s)[1..] == s;
  }

  /** Decimal digits of `n`, as `Number.prototype.toString` writes a non-negative integer. */
  function NatToString(n: nat): (r: string)
    ensures |r| > 0 && forall i :: 0 <= i < |r| ==> '0' <= r[i] <= '9'
  {
    var d := ['0' + (n % 10) as char];
    if n < 10 then d else NatToString(n / 10) + d
  }
}
