/** Definitions shared by several screens: an optional value (the source's
    `T | null`), ASCII case mapping (`toLowerCase` / `toUpperCase`), the
    order-preserving `Array.prototype.filter`, and the completed / current /
    pending tag carried by workflow stages. */
module Common {

  /** A value that may be absent: `null` in the source. */
  datatype Option<T> = None | Some(value: T)

  /** `'High' | 'Medium' | 'Low'`, the priority of a file and of an alert. */
  datatype Priority = High | Medium | Low

  // ---------------------------------------------------------------------------
  // ASCII case mapping
  // ---------------------------------------------------------------------------

  function LowerChar(c: char): char
  {
    if 'A' <= c <= 'Z' then (c as int + 32) as char else c
  }

  function UpperChar(c: char): char
  {
    if 'a' <= c <= 'z' then (c as int - 32) as char else c
  }

  /** `s.toLowerCase()` restricted to ASCII letters. */
  function Lower(s: string): (r: string)
    ensures |r| == |s|
    ensures forall i :: 0 <= i < |s| ==> r[i] == LowerChar(s[i])
  {
    if s == [] then [] else [LowerChar(s[0])] + Lower(s[1..])
  }

  /** `s.toUpperCase()` restricted to ASCII letters. */
  function Upper(s: string): (r: string)
    ensures |r| == |s|
    ensures forall i :: 0 <= i < |s| ==> r[i] == UpperChar(s[i])
  {
    if s == [] then [] else [UpperChar(s[0])] + Upper(s[1..])
  }

  /** Two strings that differ at most in the case of ASCII letters. */
  predicate SameIgnoringCase(s: string, t: string)
  {
    |s| == |t| && forall i :: 0 <= i < |s| ==> UpperChar(s[i]) == UpperChar(t[i])
  }

  lemma UpperCharIdempotent(c: char)
    ensures UpperChar(UpperChar(c)) == UpperChar(c)
  {
  }

  /** Upper-casing twice is upper-casing once. */
  lemma {:induction false} UpperIdempotent(s: string)
    ensures Upper(Upper(s)) == Upper(s)
  {
    if s != [] {
      UpperIdempotent(s[1..]);
      UpperCharIdempotent(s[0]);
      assert Upper(s) == [UpperChar(s[0])] + Upper(s[1..]);
      assert Upper(s)[1..] == Upper(s[1..]);
    }
  }

  /** Lower-casing is determined character by character. */
  lemma LowerByChars(s: string, t: string)
    requires |s| == |t|
    requires forall i :: 0 <= i < |s| ==> LowerChar(s[i]) == t[i]
    ensures Lower(s) == t
  {
  }

  /** A string that upper-casing leaves alone character by character is its
      own upper-case form. */
  lemma UpperFixed(s: string)
    requires forall i :: 0 <= i < |s| ==> UpperChar(s[i]) == s[i]
    ensures Upper(s) == s
  {
  }

  /** Strings equal up to ASCII letter case have the same upper-case form, and
      conversely. */
  lemma UpperSameIgnoringCase(s: string, t: string)
    ensures SameIgnoringCase(s, t) <==> Upper(s) == Upper(t)
  {
    if Upper(s) == Upper(t) {
      assert forall i :: 0 <= i < |s| ==> Upper(s)[i] == Upper(t)[i];
    }
  }

  // ---------------------------------------------------------------------------
  // Order-preserving filter
  // ---------------------------------------------------------------------------

  /** `s.filter(p)`: the elements of `s` that satisfy `p`, in their order. */
  function Filter<T>(s: seq<T>, p: T -> bool): (r: seq<T>)
    ensures |r| <= |s|
    ensures forall x :: x in r ==> x in s && p(x)
    decreases |s|
  {
    if s == [] then [] else (if p(s[0]) then [s[0]] else []) + Filter(s[1..], p)
  }

  /** One value per element, in order. */
  function Map<A, B>(s: seq<A>, f: A -> B): (r: seq<B>)
    ensures |r| == |s|
    ensures forall i :: 0 <= i < |s| ==> r[i] == f(s[i])
    decreases |s|
  {
    if s == [] then [] else [f(s[0])] + Map(s[1..], f)
  }

  /** `a` is obtained from `b` by deleting elements, keeping the order. */
  predicate IsSubsequence<T(==)>(a: seq<T>, b: seq<T>)
    decreases |b|
  {
    if a == [] then true
    else if b == [] then false
    else if a[0] == b[0] then IsSubsequence(a[1..], b[1..])
    else IsSubsequence(a, b[1..])
  }

  lemma {:induction false} EmptyIsSubsequence<T>(b: seq<T>)
    ensures IsSubsequence([], b)
  {
  }

  /** The filter keeps the order of the elements it keeps. */
  lemma {:induction false} FilterIsSubsequence<T>(s: seq<T>, p: T -> bool)
    ensures IsSubsequence(Filter(s, p), s)
    decreases |s|
  {
    if s != [] {
      FilterIsSubsequence(s[1..], p);
      if p(s[0]) {
        assert Filter(s, p) == [s[0]] + Filter(s[1..], p);
        assert Filter(s, p)[1..] == Filter(s[1..], p);
      } else {
        assert Filter(s, p) == Filter(s[1..], p);
      }
    }
  }

  /** The filter drops nothing that satisfies the predicate. */
  lemma {:induction false} FilterComplete<T>(s: seq<T>, p: T -> bool, x: T)
    requires x in s && p(x)
    ensures x in Filter(s, p)
    decreases |s|
  {
    if s[0] != x {
      assert x in s[1..];
      FilterComplete(s[1..], p, x);
    }
  }

  /** A predicate that holds of every element keeps the whole sequence. */
  lemma {:induction false} FilterAll<T>(s: seq<T>, p: T -> bool)
    requires forall i :: 0 <= i < |s| ==> p(s[i])
    ensures Filter(s, p) == s
    decreases |s|
  {
    if s != [] {
      FilterAll(s[1..], p);
    }
  }

  /** A predicate that holds of no element keeps nothing. */
  lemma {:induction false} FilterNone<T>(s: seq<T>, p: T -> bool)
    requires forall i :: 0 <= i < |s| ==> !p(s[i])
    ensures Filter(s, p) == []
    decreases |s|
  {
    if s != [] {
      FilterNone(s[1..], p);
    }
  }

  // ---------------------------------------------------------------------------
  // Stage status
  // ---------------------------------------------------------------------------

  /** `'completed' | 'current' | 'pending'`. */
  datatype StageStatus = Completed | Current | Pending

  function StageRank(s: StageStatus): nat
  {
    match s
    case Completed => 0
    case Current => 1
    case Pending => 2
  }

  /** Completed stages first, then at most one current stage, then pending
      stages. */
  predicate PhaseOrdered(tags: seq<StageStatus>)
  {
    && (forall i, j :: 0 <= i < j < |tags| ==> StageRank(tags[i]) <= StageRank(tags[j]))
    && (forall i, j :: 0 <= i < j < |tags| && tags[i] == Current ==> tags[j] != Current)
  }

  function CurrentCount(tags: seq<StageStatus>): (n: nat)
    ensures n <= |tags|
  {
    |Filter(tags, (t: StageStatus) => t == Current)|
  }

  /** A phase-ordered sequence has at most one current stage. */
  lemma {:induction false} PhaseOrderedCurrentCount(tags: seq<StageStatus>)
    requires PhaseOrdered(tags)
    ensures CurrentCount(tags) <= 1
    decreases |tags|
  {
    if tags != [] {
      PhaseOrderedCurrentCount(tags[1..]);
      if tags[0] == Current {
        var p := (t: StageStatus) => t == Current;
        forall i | 0 <= i < |tags[1..]| ensures !p(tags[1..][i]) {
          assert tags[1..][i] == tags[i + 1];
        }
        FilterNone(tags[1..], p);
      }
    }
  }

  /** A phase-ordered sequence that has a current stage has exactly one. */
  lemma ExactlyOneCurrent(tags: seq<StageStatus>)
    requires PhaseOrdered(tags) && Current in tags
    ensures CurrentCount(tags) == 1
  {
    PhaseOrderedCurrentCount(tags);
    FilterComplete(tags, (t: StageStatus) => t == Current, Current);
  }
}
