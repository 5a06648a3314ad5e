/**
 The iterator adaptors the order pipeline is built from, over finite sequences:
 `filter`, `map`, and `collect` into a `Result`, together with a reference
 description of filtering by positions.
 */
module Iter {
  import opened Wrappers

  /** True iff the positions in `idx` strictly increase. */
  ghost predicate StrictlyIncreasing(idx: seq<nat>)
  {
    forall k, l :: 0 <= k < l < |idx| ==> idx[k] < idx[l]
  }

  /** The positions of `s` whose element `p` accepts. */
  ghost function AcceptedSet<T>(s: seq<T>, p: T -> bool): set<nat>
  {
    set i: nat | i < |s| && p(s[i])
  }

  /** `Iterator::filter`: the elements of `s` that `p` accepts, in their original order. */
  function Filter<T>(s: seq<T>, p: T -> bool): (r: seq<T>)
    ensures |r| <= |s|
    ensures forall x :: x in r ==> x in s && p(x)
    ensures forall i :: 0 <= i < |s| && p(s[i]) ==> s[i] in r
  {
    if |s| == 0 then []
    else Filter(s[..|s| - 1], p) + (if p(s[|s| - 1]) then [s[|s| - 1]] else [])
  }

  /** `Iterator::map`: `f` applied to every element, one result per element, in order. */
  function Map<A, B>(s: seq<A>, f: A -> B): (r: seq<B>)
    ensures |r| == |s|
    ensures forall i :: 0 <= i < |s| ==> r[i] == f(s[i])
  {
    if |s| == 0 then [] else [f(s[0])] + Map(s[1..], f)
  }

  /**
   `collect::<Result<Vec<T>, E>>()`: all the values when every element is `Ok`,
   otherwise the error of the first `Err`.
   */
  function Collect<T, E>(rs: seq<Result<T, E>>): (r: Result<seq<T>, E>)
    ensures r.Ok? <==> forall i :: 0 <= i < |rs| ==> rs[i].Ok?
    ensures r.Ok? ==> |r.value| == |rs| && forall i :: 0 <= i < |rs| ==> r.value[i] == rs[i].value
    ensures r.Err? ==> exists i :: 0 <= i < |rs| && rs[i] == Err(r.error) && forall j :: 0 <= j < i ==> rs[j].Ok?
  {
    if |rs| == 0 then Ok([])
    else match rs[0]
      case Err(e) => Err(e)
      case Ok(v) =>
        match Collect(rs[1..])
        case Err(e) =>
          ghost var i :| 0 <= i < |rs[1..]| && rs[1..][i] == Err(e) && forall j :: 0 <= j < i ==> rs[1..][j].Ok?;
          assert rs[i + 1] == Err(e);
          Err(e)
        case Ok(vs) => Ok([v] + vs)
  }

  /**
   The positions of `s` whose element `p` accepts, in ascending order: a reference
   description of `Filter` that speaks of positions rather than values.
   */
  function AcceptedPositions<T>(s: seq<T>, p: T -> bool): (idx: seq<nat>)
    ensures StrictlyIncreasing(idx)
    ensures forall k :: 0 <= k < |idx| ==> idx[k] < |s| && p(s[idx[k]])
    ensures forall i :: 0 <= i < |s| && p(s[i]) ==> i in idx
  {
    if |s| == 0 then []
    else AcceptedPositions(s[..|s| - 1], p) + (if p(s[|s| - 1]) then [|s| - 1] else [])
  }

  /** Filtering picks out exactly the elements at the accepted positions, in ascending order. */
  lemma {:induction false} FilterSelectsAcceptedPositions<T>(s: seq<T>, p: T -> bool)
    ensures |Filter(s, p)| == |AcceptedPositions(s, p)|
    ensures forall k :: 0 <= k < |Filter(s, p)| ==> Filter(s, p)[k] == s[AcceptedPositions(s, p)[k]]
  {
    if |s| > 0 {
      var s' := s[..|s| - 1];
      FilterSelectsAcceptedPositions(s', p);
      forall k | 0 <= k < |AcceptedPositions(s', p)|
        ensures s'[AcceptedPositions(s', p)[k]] == s[AcceptedPositions(s', p)[k]]
      {
      }
    }
  }

  /** A strictly increasing sequence lists each of its elements exactly once. */
  lemma {:induction false} IncreasingCardinality(idx: seq<nat>)
    requires StrictlyIncreasing(idx)
    ensures |Elements(idx)| == |idx|
  {
    if |idx| > 0 {
      var n := |idx| - 1;
      var front := idx[..n];
      assert StrictlyIncreasing(front) by {
        forall k, l | 0 <= k < l < |front| ensures front[k] < front[l] {
          assert front[k] == idx[k] && front[l] == idx[l];
        }
      }
      IncreasingCardinality(front);
      assert idx == front + [idx[n]];
      assert Elements(idx) == Elements(front) + {idx[n]};
      assert idx[n] !in Elements(front) by {
        forall k | 0 <= k < |front| ensures front[k] != idx[n] {
          assert front[k] == idx[k];
        }
      }
    }
  }

  /** The set of values a sequence of positions lists. */
  ghost function Elements(idx: seq<nat>): set<nat>
  {
    set k | k in idx
  }

  /** The number of elements `Filter` keeps is the number of positions `p` accepts. */
  lemma FilterLength<T>(s: seq<T>, p: T -> bool)
    ensures |Filter(s, p)| == |AcceptedSet(s, p)|
  {
    var idx := AcceptedPositions(s, p);
    FilterSelectsAcceptedPositions(s, p);
    IncreasingCardinality(idx);
    assert Elements(idx) == AcceptedSet(s, p);
  }

  /** Each element `p` accepts is kept as often as it occurs; an element `p` rejects is never kept. */
  lemma {:induction false} FilterMultiplicity<T>(s: seq<T>, p: T -> bool, x: T)
    ensures multiset(Filter(s, p))[x] == if p(x) then multiset(s)[x] else 0
  {
    if |s| > 0 {
      var s' := s[..|s| - 1];
      FilterMultiplicity(s', p, x);
      assert s == s' + [s[|s| - 1]];
    }
  }

  /** Filtering a concatenation filters each part and keeps them in sequence. */
  lemma {:induction false} FilterConcat<T>(a: seq<T>, b: seq<T>, p: T -> bool)
    ensures Filter(a + b, p) == Filter(a, p) + Filter(b, p)
  {
    if |b| > 0 {
      var b' := b[..|b| - 1];
      FilterConcat(a, b', p);
      assert (a + b)[..|a + b| - 1] == a + b';
    } else {
      assert a + b == a;
    }
  }

  /** Two accepted elements keep their relative order through `Filter`. */
  lemma FilterKeepsRelativeOrder<T>(s: seq<T>, p: T -> bool, i: int, j: int)
    requires 0 <= i < j < |s| && p(s[i]) && p(s[j])
    ensures exists k, l :: 0 <= k < l < |Filter(s, p)| && Filter(s, p)[k] == s[i] && Filter(s, p)[l] == s[j]
  {
    var idx := AcceptedPositions(s, p);
    FilterSelectsAcceptedPositions(s, p);
    var k :| 0 <= k < |idx| && idx[k] == i;
    var l :| 0 <= l < |idx| && idx[l] == j;
    assert k < l;
  }

  /** Mapping a concatenation maps each part and keeps them in sequence. */
  lemma MapConcat<A, B>(a: seq<A>, b: seq<A>, f: A -> B)
    ensures Map(a + b, f) == Map(a, f) + Map(b, f)
  {
  }
}
