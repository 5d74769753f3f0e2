/**
 * The string operations the application performs with JavaScript built-ins:
 * literal search (what `match` with a literal-led regular expression does),
 * `replace(/literal/g, '')`, and `trim()`.
 */
module Text {
  import opened Wrappers

  /** `p` occurs in `s` starting at index `i`. */
  predicate OccursAt(s: string, p: string, i: int) {
    0 <= i && i + |p| <= |s| && s[i..i + |p|] == p
  }

  /** An occurrence inside the slice `s[a..b]` is an occurrence in `s`, shifted by `a`. */
  lemma OccursInSlice(s: string, p: string, a: int, b: int, k: int)
    requires 0 <= a <= b <= |s| && 0 <= k && k + |p| <= b - a
    ensures OccursAt(s[a..b], p, k) <==> OccursAt(s, p, a + k)
  {
    var inner, outer := s[a..b][k..k + |p|], s[a + k..a + k + |p|];
    forall n | 0 <= n < |p| ensures inner[n] == outer[n] {
      assert inner[n] == s[a..b][k + n];
    }
    assert inner == outer;
  }

  /** `p` occurs somewhere in `s`. */
  predicate Contains(s: string, p: string) {
    exists i | 0 <= i <= |s| :: OccursAt(s, p, i)
  }

  predicate StartsWith(s: string, p: string) {
    OccursAt(s, p, 0)
  }

  /** The leftmost occurrence of `p` in `s` that starts at or after `from`. */
  function FindFrom(s: string, p: string, from: nat): (r: Option<nat>)
    ensures r.Some? ==> from <= r.value && OccursAt(s, p, r.value)
    ensures forall i :: from <= i && (r.None? || i < r.value) ==> !OccursAt(s, p, i)
    decreases |s| - from
  {
    if from + |p| > |s| then None
    else if OccursAt(s, p, from) then Some(from)
    else FindFrom(s, p, from + 1)
  }

  /** A text that does not contain `p` has no part that contains `p`. */
  lemma AbsentFromPart(outer: string, inner: string, p: string)
    requires Contains(outer, inner) && !Contains(outer, p)
    ensures !Contains(inner, p)
  {
    var i :| 0 <= i <= |outer| && OccursAt(outer, inner, i);
    assert outer[i..i + |inner|] == inner;
    forall j | 0 <= j <= |inner| ensures !OccursAt(inner, p, j) {
      if j + |p| <= |inner| {
        var found, there := inner[j..j + |p|], outer[i + j..i + j + |p|];
        forall k | 0 <= k < |p| ensures found[k] == there[k] {
          assert inner[j + k] == outer[i + j + k];
        }
        assert !OccursAt(outer, p, i + j);
      }
    }
  }

  /**
   * `s.replace(/p/g, '')` for a literal `p`: the scan goes left to right, an
   * occurrence that starts where the scan stands is dropped and the scan
   * resumes just after it; text that the deletions bring together is not
   * scanned again.
   */
  function RemoveAll(s: string, p: string): (r: string)
    requires |p| > 0
    ensures |r| <= |s|
    decreases |s|
  {
    if |s| < |p| then s
    else if StartsWith(s, p) then RemoveAll(s[|p|..], p)
    else [s[0]] + RemoveAll(s[1..], p)
  }

  /** A text without `p` comes back unchanged. */
  lemma {:induction false} RemoveAllAbsent(s: string, p: string)
    requires |p| > 0 && !Contains(s, p)
    ensures RemoveAll(s, p) == s
    decreases |s|
  {
    if |s| >= |p| {
      assert !OccursAt(s, p, 0);
      forall i ensures !OccursAt(s[1..], p, i) {
        if OccursAt(s[1..], p, i) {
          assert s[i + 1..i + 1 + |p|] == s[1..][i..i + |p|];
          assert OccursAt(s, p, i + 1);
        }
      }
      RemoveAllAbsent(s[1..], p);
    }
  }

  /** Where the scan does not stand on an occurrence, the first character is kept. */
  lemma KeepsHead(t: string, p: string)
    requires |p| > 0 && |t| > 0 && !StartsWith(t, p)
    ensures RemoveAll(t, p) == [t[0]] + RemoveAll(t[1..], p)
  {
    if |t| < |p| {
      assert t == [t[0]] + t[1..];
    }
  }

  /** A text that starts with no character of a pattern's first kind is scanned
      past unchanged. */
  lemma {:induction false} RemoveAllPassesOver(a: string, b: string, p: string)
    requires |p| > 0 && p[0] !in a
    ensures RemoveAll(a + b, p) == a + RemoveAll(b, p)
    decreases |a|
  {
    if a != [] {
      assert !StartsWith(a + b, p) by { assert (a + b)[0] == a[0]; }
      KeepsHead(a + b, p);
      assert (a + b)[1..] == a[1..] + b;
      assert p[0] !in a[1..];
      RemoveAllPassesOver(a[1..], b, p);
      assert RemoveAll(a + b, p) == [a[0]] + (a[1..] + RemoveAll(b, p));
      assert a == [a[0]] + a[1..];
    } else {
      assert a + b == b;
    }
  }

  /** The code-fence marker. */
  const Fence: string := "```"

  /** Deleting every fence leaves no fence behind: a run of backticks loses its
      length rounded down to a multiple of three, so fewer than three remain. */
  lemma {:induction false} RemoveFencesLeavesNone(s: string)
    ensures !Contains(RemoveAll(s, Fence), Fence)
    decreases |s|
  {
    var r := RemoveAll(s, Fence);
    if |s| < 3 {
      forall i ensures !OccursAt(r, Fence, i) { }
    } else if StartsWith(s, Fence) {
      RemoveFencesLeavesNone(s[3..]);
    } else {
      var t := s[1..];
      KeepsHead(s, Fence);
      RemoveFencesLeavesNone(t);
      var rest := RemoveAll(t, Fence);
      assert r == [s[0]] + rest;
      forall i | 1 <= i && i + 3 <= |r| ensures !OccursAt(r, Fence, i) {
        assert r[i..i + 3] == rest[i - 1..i + 2];
        assert !OccursAt(rest, Fence, i - 1);
      }
      if |r| >= 3 {
        assert r[..3] == [r[0], r[1], r[2]];
        if s[0] != '`' {
          assert r[0] != '`';
        } else if s[1] != '`' {
          assert !StartsWith(t, Fence) by { assert t[0] == s[1]; }
          KeepsHead(t, Fence);
          assert r[1] == t[0];
        } else {
          assert s[..3] == [s[0], s[1], s[2]];
          assert s[2] != '`';
          assert !StartsWith(t, Fence) by { assert |t| < 3 || t[..3][1] == s[2]; }
          KeepsHead(t, Fence);
          var u := t[1..];
          assert u[0] == s[2];
          assert !StartsWith(u, Fence) by { assert u[0] == s[2]; }
          KeepsHead(u, Fence);
          assert r[2] == u[0];
        }
        assert !OccursAt(r, Fence, 0);
      }
      forall i ensures !OccursAt(r, Fence, i) {
        if 1 <= i && i + 3 <= |r| {
        }
      }
    }
  }

  /**
   * The characters `String.prototype.trim` removes (ECMAScript WhiteSpace and
   * LineTerminator): tab, vertical tab, form feed, the Unicode space separators,
   * the byte-order mark, line feed, carriage return, and the line and paragraph
   * separators.
   */
  predicate IsSpace(c: char) {
    || c == '\t' || c == '\U{B}' || c == '\U{C}' || c == ' ' || c == '\U{A0}' || c == '\U{FEFF}'
    || c == '\n' || c == '\r' || c == '\U{2028}' || c == '\U{2029}'
    || c == '\U{1680}' || ('\U{2000}' <= c <= '\U{200A}') || c == '\U{202F}' || c == '\U{205F}'
    || c == '\U{3000}'
  }

  /** The index of the first non-space at or after `from`, or `|s|` if there is none. */
  function SkipSpaces(s: string, from: nat): (i: nat)
    requires from <= |s|
    ensures from <= i <= |s|
    ensures forall k :: from <= k < i ==> IsSpace(s[k])
    ensures i < |s| ==> !IsSpace(s[i])
    decreases |s| - from
  {
    if from < |s| && IsSpace(s[from]) then SkipSpaces(s, from + 1) else from
  }

  /** The end of `s[lo..hi]` once its trailing white space is cut. */
  function SkipSpacesBack(s: string, lo: nat, hi: nat): (j: nat)
    requires lo <= hi <= |s|
    ensures lo <= j <= hi
    ensures forall k :: j <= k < hi ==> IsSpace(s[k])
    ensures j > lo ==> !IsSpace(s[j - 1])
    decreases hi
  {
    if hi > lo && IsSpace(s[hi - 1]) then SkipSpacesBack(s, lo, hi - 1) else hi
  }

  /** `r` is `s` with only white space cut before index `a` and after `r`. */
  predicate SpaceCut(s: string, r: string, a: int) {
    && 0 <= a <= |s| - |r| && r == s[a..a + |r|]
    && (forall k :: 0 <= k < a ==> IsSpace(s[k]))
    && (forall k :: a + |r| <= k < |s| ==> IsSpace(s[k]))
  }

  /** A cut of white space that leaves non-space ends is the whole text when
      the text already has non-space ends, and is empty only for a text of
      white space. */
  lemma SpaceCutFacts(s: string, r: string, a: int)
    requires SpaceCut(s, r, a) && (r == [] || (!IsSpace(r[0]) && !IsSpace(r[|r| - 1])))
    ensures Contains(s, r)
    ensures r == [] <==> forall k :: 0 <= k < |s| ==> IsSpace(s[k])
    ensures |s| > 0 && !IsSpace(s[0]) && !IsSpace(s[|s| - 1]) ==> r == s
  {
    assert OccursAt(s, r, a);
    if r != [] {
      assert r[0] == s[a];
    }
    if |s| > 0 && !IsSpace(s[0]) && !IsSpace(s[|s| - 1]) {
      assert a == 0;
      assert a + |r| == |s|;
      assert s[0..|s|] == s;
    }
  }

  /** `s.trim()`: the part of `s` between its leading and trailing white space. */
  function Trim(s: string): (r: string)
    ensures exists a :: SpaceCut(s, r, a)
    ensures Contains(s, r)
    ensures r == [] || (!IsSpace(r[0]) && !IsSpace(r[|r| - 1]))
    ensures r == [] <==> forall k :: 0 <= k < |s| ==> IsSpace(s[k])
    ensures |s| > 0 && !IsSpace(s[0]) && !IsSpace(s[|s| - 1]) ==> r == s
  {
    var a := SkipSpaces(s, 0);
    var b := SkipSpacesBack(s, a, |s|);
    var r := s[a..b];
    assert SpaceCut(s, r, a);
    SpaceCutFacts(s, r, a);
    r
  }

  /** Trimming twice is trimming once. */
  lemma TrimIdempotent(s: string)
    ensures Trim(Trim(s)) == Trim(s)
  {
  }
}
