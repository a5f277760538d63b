/** Searching, counting and replacing in sequences, as Python's `find`, `count` and
    `replace` do: leftmost first and without overlap. */
module Search {

  ghost predicate OccursAt<T>(s: seq<T>, p: seq<T>, i: int) {
    0 <= i && i + |p| <= |s| && s[i..i + |p|] == p
  }

  /** The first position at or after `from`, or -1. */
  function FindFrom<T(==)>(s: seq<T>, p: seq<T>, from: nat): (at: int)
    requires from <= |s|
    ensures at == -1 || from <= at
    ensures at != -1 ==> OccursAt(s, p, at) && forall i :: from <= i < at ==> !OccursAt(s, p, i)
    ensures at == -1 ==> forall i :: from <= i ==> !OccursAt(s, p, i)
    decreases |s| - from
  {
    if from + |p| > |s| then -1
    else if s[from..from + |p|] == p then from
    else FindFrom(s, p, from + 1)
  }

  function Find<T(==)>(s: seq<T>, p: seq<T>): (at: int)
    ensures at == -1 || OccursAt(s, p, at)
    ensures at != -1 ==> forall i :: 0 <= i < at ==> !OccursAt(s, p, i)
    ensures at == -1 ==> forall i :: !OccursAt(s, p, i)
  {
    FindFrom(s, p, 0)
  }

  /** `s.count(p)` for a non-empty `p`. */
  function Count<T(==)>(s: seq<T>, p: seq<T>): nat
    requires p != []
    decreases |s|
  {
    var at := Find(s, p);
    if at == -1 then 0 else 1 + Count(s[at + |p|..], p)
  }

  /** `s.replace(p, r)` for a non-empty `p`. */
  function Replace<T(==)>(s: seq<T>, p: seq<T>, r: seq<T>): seq<T>
    requires p != []
    decreases |s|
  {
    var at := Find(s, p);
    if at == -1 then s else s[..at] + r + Replace(s[at + |p|..], p, r)
  }

  lemma OccurrenceIn<T>(s: seq<T>, p: seq<T>, i: int, k: int)
    requires OccursAt(s, p, i) && 0 <= k < |p|
    ensures s[i + k] == p[k]
  {
  }

  lemma OccursByIndex<T>(s: seq<T>, p: seq<T>, i: int)
    requires 0 <= i && i + |p| <= |s|
    requires forall k :: 0 <= k < |p| ==> s[i + k] == p[k]
    ensures OccursAt(s, p, i)
  {
  }

  /** Where a pattern occurs in a suffix. */
  lemma OccursInSuffix<T>(s: seq<T>, p: seq<T>, cut: nat, i: int)
    requires cut <= |s| && i >= 0
    ensures OccursAt(s[cut..], p, i) <==> OccursAt(s, p, cut + i)
  {
  }

  /** Appending cannot change what occurs inside. */
  lemma OccursInPrefix<T>(s: seq<T>, t: seq<T>, p: seq<T>, i: int)
    requires i + |p| <= |s|
    ensures OccursAt(s + t, p, i) <==> OccursAt(s, p, i)
  {
  }

  /** The leftmost occurrence is unique. */
  lemma FindIs<T>(s: seq<T>, p: seq<T>, i: nat)
    requires OccursAt(s, p, i) && forall j :: 0 <= j < i ==> !OccursAt(s, p, j)
    ensures Find(s, p) == i
  {
  }
}
