/**
 * `Array.prototype.filter`: keep, in order, the elements a predicate
 * accepts. Both catalogue filters and the conflict matcher are built on it.
 * `KeptIndices` is the independent description of which positions survive.
 */
module Filtering {

  /** The elements of `xs` that `p` accepts, in their original order. */
  function Keep<T>(xs: seq<T>, p: T -> bool): (r: seq<T>)
    ensures |r| <= |xs|
  {
    if |xs| == 0 then []
    else Keep(xs[..|xs| - 1], p) + (if p(xs[|xs| - 1]) then [xs[|xs| - 1]] else [])
  }

  /** The positions of `xs` that `p` accepts, ascending. */
  ghost function KeptIndices<T>(xs: seq<T>, p: T -> bool): seq<nat>
  {
    if |xs| == 0 then []
    else KeptIndices(xs[..|xs| - 1], p) + (if p(xs[|xs| - 1]) then [|xs| - 1] else [])
  }

  /**
   * `r` consists of the elements of `xs` at the strictly increasing
   * positions `idx`, and those positions are exactly the ones `p` accepts.
   */
  ghost predicate SelectedBy<T>(r: seq<T>, xs: seq<T>, p: T -> bool, idx: seq<nat>) {
    |idx| == |r| &&
    (forall j :: 0 <= j < |idx| ==> idx[j] < |xs| && r[j] == xs[idx[j]]) &&
    (forall j, k :: 0 <= j < k < |idx| ==> idx[j] < idx[k]) &&
    (forall i :: 0 <= i < |xs| ==> (p(xs[i]) <==> i in idx))
  }

  /** Filtering keeps exactly the accepted elements, each once, in order. */
  lemma {:induction false} KeepSelects<T>(xs: seq<T>, p: T -> bool)
    ensures SelectedBy(Keep(xs, p), xs, p, KeptIndices(xs, p))
  {
    if |xs| > 0 {
      var n := |xs| - 1;
      var init := xs[..n];
      KeepSelects(init, p);
      var idx := KeptIndices(xs, p);
      var idx0 := KeptIndices(init, p);
      assert forall j :: 0 <= j < |idx0| ==> idx0[j] < n;
      forall i | 0 <= i < |xs| ensures p(xs[i]) <==> i in idx {
        if i < n {
          assert xs[i] == init[i];
          assert i != n;
        }
      }
    }
  }

  /** Membership in the filtered sequence. */
  lemma KeepMember<T>(xs: seq<T>, p: T -> bool, x: T)
    ensures x in Keep(xs, p) <==> x in xs && p(x)
  {
    KeepSelects(xs, p);
    var r, idx := Keep(xs, p), KeptIndices(xs, p);
    if x in r {
      var j :| 0 <= j < |r| && r[j] == x;
      assert xs[idx[j]] == x;
    }
    if x in xs && p(x) {
      var i :| 0 <= i < |xs| && xs[i] == x;
      assert i in idx;
      var j :| 0 <= j < |idx| && idx[j] == i;
      assert r[j] == x;
    }
  }

  /** When `p` accepts everything, filtering changes nothing. */
  lemma {:induction false} KeepAll<T>(xs: seq<T>, p: T -> bool)
    requires forall i :: 0 <= i < |xs| ==> p(xs[i])
    ensures Keep(xs, p) == xs
  {
    if |xs| > 0 {
      KeepAll(xs[..|xs| - 1], p);
      assert xs[..|xs| - 1] + [xs[|xs| - 1]] == xs;
    }
  }

  /** The result is empty exactly when `p` accepts nothing. */
  lemma KeepEmpty<T>(xs: seq<T>, p: T -> bool)
    ensures Keep(xs, p) == [] <==> forall i :: 0 <= i < |xs| ==> !p(xs[i])
  {
    KeepSelects(xs, p);
    if Keep(xs, p) == [] {
      forall i | 0 <= i < |xs| ensures !p(xs[i]) {
        assert i !in KeptIndices(xs, p);
      }
    } else {
      var idx := KeptIndices(xs, p);
      assert idx[0] < |xs| && p(xs[idx[0]]);
    }
  }

  /** Filtering twice by `p` and then `q` is filtering once by both. */
  lemma {:induction false} KeepKeep<T>(xs: seq<T>, p: T -> bool, q: T -> bool, pq: T -> bool)
    requires forall x :: pq(x) == (p(x) && q(x))
    ensures Keep(Keep(xs, p), q) == Keep(xs, pq)
  {
    if |xs| > 0 {
      var n := |xs| - 1;
      KeepKeep(xs[..n], p, q, pq);
      var k := Keep(xs[..n], p);
      if p(xs[n]) {
        assert Keep(xs, p) == k + [xs[n]];
        assert (k + [xs[n]])[..|k|] == k;
      } else {
        assert Keep(xs, p) == k;
      }
    }
  }

  /** Filtering the result again with the same predicate changes nothing. */
  lemma KeepIdempotent<T>(xs: seq<T>, p: T -> bool)
    ensures Keep(Keep(xs, p), p) == Keep(xs, p)
  {
    var r := Keep(xs, p);
    forall i | 0 <= i < |r| ensures p(r[i]) {
      KeepMember(xs, p, r[i]);
    }
    KeepAll(r, p);
  }

  /** Filtering distributes over concatenation. */
  lemma {:induction false} KeepAppend<T>(a: seq<T>, b: seq<T>, p: T -> bool)
    ensures Keep(a + b, p) == Keep(a, p) + Keep(b, p)
  {
    if |b| == 0 {
      assert a + b == a;
    } else {
      var n := |b| - 1;
      KeepAppend(a, b[..n], p);
      assert (a + b)[..|a + b| - 1] == a + b[..n];
    }
  }
}
