/** Order-keeping selection from a sequence, and concatenation of the parts
    computed from each element. */
module Sequences {

  /** The elements that `keep` accepts, in their order. */
  function Filter<T>(s: seq<T>, keep: T -> bool): (r: seq<T>)
    ensures |r| <= |s|
  {
    if s == [] then []
    else Filter(s[..|s| - 1], keep) + (if keep(s[|s| - 1]) then [s[|s| - 1]] else [])
  }

  /** Filtering distributes over concatenation. */
  lemma {:induction false} FilterAppend<T>(a: seq<T>, b: seq<T>, keep: T -> bool)
    ensures Filter(a + b, keep) == Filter(a, keep) + Filter(b, keep)
    decreases |b|
  {
    if b == [] {
      assert a + b == a;
    } else {
      var n := |b| - 1;
      assert (a + b)[..|a + b| - 1] == a + b[..n];
      assert (a + b)[|a + b| - 1] == b[n];
      FilterAppend(a, b[..n], keep);
    }
  }

  /** One more element is kept exactly when `keep` accepts it. */
  lemma FilterStep<T>(s: seq<T>, i: nat, keep: T -> bool)
    requires i < |s|
    ensures Filter(s[..i + 1], keep) == Filter(s[..i], keep) + (if keep(s[i]) then [s[i]] else [])
  {
    assert s[..i + 1][..i] == s[..i];
  }

  /** What is kept is accepted and was there; what is accepted and there is
      kept. */
  lemma {:induction false} FilterMembers<T>(s: seq<T>, keep: T -> bool, x: T)
    ensures x in Filter(s, keep) <==> x in s && keep(x)
  {
    if s != [] {
      var n := |s| - 1;
      FilterMembers(s[..n], keep, x);
      assert s == s[..n] + [s[n]];
    }
  }

  /** Every element kept is accepted. */
  lemma FilterAccepted<T>(s: seq<T>, keep: T -> bool, k: nat)
    requires k < |Filter(s, keep)|
    ensures keep(Filter(s, keep)[k]) && Filter(s, keep)[k] in s
  {
    FilterMembers(s, keep, Filter(s, keep)[k]);
  }

  /** Filtering twice keeps what filtering once keeps. */
  lemma {:induction false} FilterIdempotent<T>(s: seq<T>, keep: T -> bool)
    ensures Filter(Filter(s, keep), keep) == Filter(s, keep)
  {
    if s != [] {
      var n := |s| - 1;
      var x := s[n];
      FilterIdempotent(s[..n], keep);
      var tail := if keep(x) then [x] else [];
      FilterAppend(Filter(s[..n], keep), tail, keep);
      if keep(x) {
        assert [x][..0] == [];
        assert Filter(tail, keep) == [x];
      } else {
        assert Filter(s[..n], keep) + tail == Filter(s[..n], keep);
      }
    }
  }

  /** `f(s[i], i)` for each position `i`, in order. */
  function MapIndexed<A, B>(s: seq<A>, f: (A, nat) -> B): (r: seq<B>)
    ensures |r| == |s|
  {
    if s == [] then [] else MapIndexed(s[..|s| - 1], f) + [f(s[|s| - 1], |s| - 1)]
  }

  /** The `k`-th value is `f` of the `k`-th element and its position. */
  lemma {:induction false} MapIndexedAt<A, B>(s: seq<A>, f: (A, nat) -> B, k: nat)
    requires k < |s|
    ensures MapIndexed(s, f)[k] == f(s[k], k)
  {
    var n := |s| - 1;
    if k < n {
      MapIndexedAt(s[..n], f, k);
    }
  }

  lemma MapIndexedStep<A, B>(s: seq<A>, x: A, f: (A, nat) -> B)
    ensures MapIndexed(s + [x], f) == MapIndexed(s, f) + [f(x, |s|)]
  {
    assert (s + [x])[..|s|] == s;
  }

  /** The parts `part(i, s[i])` one after the other. */
  function ConcatMap<A, B>(s: seq<A>, part: (nat, A) -> seq<B>): seq<B> {
    if s == [] then []
    else ConcatMap(s[..|s| - 1], part) + part(|s| - 1, s[|s| - 1])
  }

  lemma ConcatMapStep<A, B>(s: seq<A>, i: nat, part: (nat, A) -> seq<B>)
    requires i < |s|
    ensures ConcatMap(s[..i + 1], part) == ConcatMap(s[..i], part) + part(i, s[i])
  {
    assert s[..i + 1][..i] == s[..i];
  }

  /** Every element of every part is in the concatenation. */
  lemma {:induction false} ConcatMapIncludes<A, B>(s: seq<A>, part: (nat, A) -> seq<B>, i: nat, x: B)
    requires i < |s| && x in part(i, s[i])
    ensures x in ConcatMap(s, part)
  {
    var n := |s| - 1;
    if i < n {
      assert s[..n][i] == s[i];
      ConcatMapIncludes(s[..n], part, i, x);
    }
  }

  /** Every element of the concatenation comes from some part. */
  lemma {:induction false} ConcatMapFrom<A, B>(s: seq<A>, part: (nat, A) -> seq<B>, x: B)
    requires x in ConcatMap(s, part)
    ensures exists i :: 0 <= i < |s| && x in part(i, s[i])
  {
    var n := |s| - 1;
    if x !in part(n, s[n]) {
      ConcatMapFrom(s[..n], part, x);
      var i :| 0 <= i < n && x in part(i, s[..n][i]);
      assert s[..n][i] == s[i];
    }
  }
}
