/** Sequence operations that the components use as JavaScript array methods:
    `Array.prototype.filter`, `filter(...).length`, `[...xs].reverse()`, and
    the shape of an awaited `for` loop that stops at the first rejected call. */
module Seqs {

  /** `s.filter(p)`: the elements satisfying `p`, in their original order. */
  function Filter<T>(s: seq<T>, p: T -> bool): (r: seq<T>)
    ensures |r| <= |s|
    ensures forall k :: 0 <= k < |r| ==> r[k] in s && p(r[k])
    ensures forall k :: 0 <= k < |s| && p(s[k]) ==> s[k] in r
    decreases |s|
  {
    if |s| == 0 then [] else (if p(s[0]) then [s[0]] else []) + Filter(s[1..], p)
  }

  /** Filtering distributes over concatenation; together with the behaviour on
      one element this pins down the order of the kept elements. */
  lemma {:induction false} FilterAppend<T>(a: seq<T>, b: seq<T>, p: T -> bool)
    ensures Filter(a + b, p) == Filter(a, p) + Filter(b, p)
    decreases |a|
  {
    if |a| == 0 {
      assert a + b == b;
    } else {
      assert (a + b)[0] == a[0];
      assert (a + b)[1..] == a[1..] + b;
      FilterAppend(a[1..], b, p);
    }
  }

  /** Filtering by a stronger predicate after a weaker one is filtering by the
      stronger one alone. */
  lemma {:induction false} FilterNarrows<T>(s: seq<T>, p: T -> bool, q: T -> bool)
    requires forall x :: p(x) ==> q(x)
    ensures Filter(Filter(s, q), p) == Filter(s, p)
    decreases |s|
  {
    if |s| > 0 {
      FilterNarrows(s[1..], p, q);
      var head := if q(s[0]) then [s[0]] else [];
      assert Filter(s, q) == head + Filter(s[1..], q);
      FilterAppend(head, Filter(s[1..], q), p);
      if q(s[0]) {
        assert Filter(head, p) == (if p(s[0]) then [s[0]] else []) + Filter(head[1..], p);
        assert head[1..] == [];
      }
    }
  }

  /** A filter every element passes keeps the list as it is. */
  lemma {:induction false} FilterKeepsAll<T>(s: seq<T>, p: T -> bool)
    requires forall k :: 0 <= k < |s| ==> p(s[k])
    ensures Filter(s, p) == s
    decreases |s|
  {
    if |s| > 0 {
      assert forall k :: 0 <= k < |s| - 1 ==> s[1..][k] == s[k + 1];
      FilterKeepsAll(s[1..], p);
      assert [s[0]] + s[1..] == s;
    }
  }

  /** Two predicates that never hold together count at most the whole list. */
  lemma {:induction false} FilterDisjointCounts<T>(s: seq<T>, p: T -> bool, q: T -> bool)
    requires forall x :: !(p(x) && q(x))
    ensures |Filter(s, p)| + |Filter(s, q)| <= |s|
    decreases |s|
  {
    if |s| > 0 {
      FilterDisjointCounts(s[1..], p, q);
    }
  }

  /** `[...s].reverse()`. */
  function Reverse<T>(s: seq<T>): (r: seq<T>)
    ensures |r| == |s|
    decreases |s|
  {
    if |s| == 0 then [] else Reverse(s[1..]) + [s[0]]
  }

  lemma {:induction false} ReverseAt<T>(s: seq<T>, k: nat)
    requires k < |s|
    ensures Reverse(s)[k] == s[|s| - 1 - k]
    decreases |s|
  {
    if k < |s| - 1 {
      ReverseAt(s[1..], k);
    }
  }

  /** Reversing twice restores the list and keeps its elements. */
  lemma ReverseReverse<T>(s: seq<T>)
    ensures Reverse(Reverse(s)) == s
    ensures multiset(Reverse(s)) == multiset(s)
  {
    var r := Reverse(s);
    forall k | 0 <= k < |s| ensures Reverse(r)[k] == s[k] {
      ReverseAt(r, k);
      ReverseAt(s, |s| - 1 - k);
    }
    ReverseMultiset(s);
  }

  lemma {:induction false} ReverseMultiset<T>(s: seq<T>)
    ensures multiset(Reverse(s)) == multiset(s)
    decreases |s|
  {
    if |s| > 0 {
      ReverseMultiset(s[1..]);
      assert s == [s[0]] + s[1..];
    }
  }

  ghost predicate AllOk<T>(s: seq<T>, ok: T -> bool) {
    forall k :: 0 <= k < |s| ==> ok(s[k])
  }

  /** The elements an awaited loop reaches when it stops at the first element
      whose call is rejected: every element before that one, and that one. */
  function ThroughFirstFailure<T>(s: seq<T>, ok: T -> bool): (r: seq<T>)
    ensures r <= s
    ensures forall k :: 0 <= k < |r| - 1 ==> ok(r[k])
    ensures |r| < |s| ==> |r| > 0 && !ok(r[|r| - 1])
    ensures AllOk(s, ok) ==> r == s
    ensures !AllOk(s, ok) ==> |r| > 0 && !ok(r[|r| - 1])
    decreases |s|
  {
    if |s| == 0 then []
    else if !ok(s[0]) then [s[0]]
    else [s[0]] + ThroughFirstFailure(s[1..], ok)
  }

  /** The run through the first failure is the prefix of length `n` when the
      first `n - 1` steps succeed and, unless the prefix is the whole plan,
      step `n` fails. */
  lemma {:induction false} ThroughFirstFailurePrefix<T>(s: seq<T>, ok: T -> bool, n: nat)
    requires 0 < n <= |s|
    requires forall k :: 0 <= k < n - 1 ==> ok(s[k])
    requires n < |s| ==> !ok(s[n - 1])
    ensures ThroughFirstFailure(s, ok) == s[..n]
    decreases n
  {
    if n > 1 {
      assert ok(s[0]);
      assert forall k :: 0 <= k < n - 2 ==> s[1..][k] == s[k + 1];
      ThroughFirstFailurePrefix(s[1..], ok, n - 1);
      assert s[..n] == [s[0]] + s[1..][..n - 1];
    } else if n < |s| {
      assert !ok(s[0]);
    }
  }
}
