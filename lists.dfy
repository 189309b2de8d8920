/** `Array.prototype.filter` and what it promises: an order-preserving selection of exactly the kept elements. */
module Lists {

  /** `s.filter(keep)`. */
  function Filter<T>(s: seq<T>, keep: T -> bool): (r: seq<T>)
    ensures |r| <= |s|
  {
    if s == [] then []
    else (if keep(s[0]) then [s[0]] else []) + Filter(s[1..], keep)
  }

  /** `r` is obtained from `s` by deleting elements, without reordering the rest. */
  ghost predicate IsSubsequence<T>(r: seq<T>, s: seq<T>)
    decreases |s|
  {
    if r == [] then true
    else if s == [] then false
    else (r[0] == s[0] && IsSubsequence(r[1..], s[1..])) || IsSubsequence(r, s[1..])
  }

  /**
   * What `filter` returns: an order-preserving subsequence of `s` whose
   * elements all pass `keep`, holding every passing element of `s` as many
   * times as `s` holds it.
   */
  lemma {:induction false} FilterSpec<T>(s: seq<T>, keep: T -> bool)
    ensures IsSubsequence(Filter(s, keep), s)
    ensures forall i :: 0 <= i < |Filter(s, keep)| ==> keep(Filter(s, keep)[i])
    ensures forall x :: multiset(Filter(s, keep))[x] == if keep(x) then multiset(s)[x] else 0
  {
    if s != [] {
      FilterSpec(s[1..], keep);
      var rest := Filter(s[1..], keep);
      assert s == [s[0]] + s[1..];
      if keep(s[0]) {
        assert Filter(s, keep) == [s[0]] + rest;
        assert ([s[0]] + rest)[1..] == rest;
      } else {
        assert Filter(s, keep) == rest;
        SubsequenceOfTail(rest, s);
      }
    }
  }

  lemma {:induction false} SubsequenceOfTail<T>(r: seq<T>, s: seq<T>)
    requires s != [] && IsSubsequence(r, s[1..])
    ensures IsSubsequence(r, s)
  {
  }

  /** When every element passes, `filter` returns its input unchanged. */
  lemma {:induction false} FilterKeepsAll<T>(s: seq<T>, keep: T -> bool)
    requires forall i :: 0 <= i < |s| ==> keep(s[i])
    ensures Filter(s, keep) == s
  {
    if s != [] {
      FilterKeepsAll(s[1..], keep);
      assert s == [s[0]] + s[1..];
    }
  }

  /** `pos` lists, in increasing order, positions of `s`. */
  predicate IncreasingPositions(pos: seq<nat>, n: nat) {
    (forall j :: 0 <= j < |pos| ==> pos[j] < n) &&
    (forall j, k :: 0 <= j < k < |pos| ==> pos[j] < pos[k])
  }

  /**
   * When `pos` lists, in increasing order, exactly the positions of `s`
   * whose elements pass `keep`, `filter` returns those elements in that
   * order.
   */
  lemma {:induction false} FilterPositions<T>(s: seq<T>, keep: T -> bool, pos: seq<nat>)
    requires IncreasingPositions(pos, |s|)
    requires forall i :: 0 <= i < |s| ==> (keep(s[i]) <==> i in pos)
    ensures |Filter(s, keep)| == |pos|
    ensures forall j :: 0 <= j < |pos| ==> Filter(s, keep)[j] == s[pos[j]]
  {
    if s == [] {
      assert forall j :: 0 <= j < |pos| ==> pos[j] < 0;
    } else if keep(s[0]) {
      var tail := PositionsAfterKept(s, keep, pos);
      FilterPositions(s[1..], keep, tail);
    } else {
      var tail := PositionsAfterSkipped(s, keep, pos);
      FilterPositions(s[1..], keep, tail);
    }
  }

  /** The positions of the tail of `s`, when the head of `s` passes. */
  lemma PositionsAfterKept<T>(s: seq<T>, keep: T -> bool, pos: seq<nat>) returns (tail: seq<nat>)
    requires IncreasingPositions(pos, |s|)
    requires forall i :: 0 <= i < |s| ==> (keep(s[i]) <==> i in pos)
    requires s != [] && keep(s[0])
    ensures |pos| == |tail| + 1 && pos[0] == 0
    ensures forall j :: 0 <= j < |tail| ==> pos[j + 1] == tail[j] + 1
    ensures IncreasingPositions(tail, |s| - 1)
    ensures forall i :: 0 <= i < |s| - 1 ==> (keep(s[1..][i]) <==> i in tail)
  {
    assert 0 in pos;
    var j0 :| 0 <= j0 < |pos| && pos[j0] == 0;
    assert pos[0] <= pos[j0];
    tail := seq(|pos| - 1, j requires 0 <= j < |pos| - 1 => (pos[j + 1] - 1) as nat);
    forall i | 0 <= i < |s| - 1
      ensures keep(s[1..][i]) <==> i in tail
    {
      assert s[1..][i] == s[i + 1];
      if keep(s[i + 1]) {
        var j :| 0 <= j < |pos| && pos[j] == i + 1;
        assert tail[j - 1] == i;
      }
      if i in tail {
        var j :| 0 <= j < |tail| && tail[j] == i;
        assert pos[j + 1] == i + 1;
      }
    }
  }

  /** The positions of the tail of `s`, when the head of `s` does not pass. */
  lemma PositionsAfterSkipped<T>(s: seq<T>, keep: T -> bool, pos: seq<nat>) returns (tail: seq<nat>)
    requires IncreasingPositions(pos, |s|)
    requires forall i :: 0 <= i < |s| ==> (keep(s[i]) <==> i in pos)
    requires s != [] && !keep(s[0])
    ensures |pos| == |tail|
    ensures forall j :: 0 <= j < |tail| ==> pos[j] == tail[j] + 1
    ensures IncreasingPositions(tail, |s| - 1)
    ensures forall i :: 0 <= i < |s| - 1 ==> (keep(s[1..][i]) <==> i in tail)
  {
    assert 0 !in pos;
    tail := seq(|pos|, j requires 0 <= j < |pos| => (pos[j] - 1) as nat);
    forall i | 0 <= i < |s| - 1
      ensures keep(s[1..][i]) <==> i in tail
    {
      assert s[1..][i] == s[i + 1];
      if keep(s[i + 1]) {
        var j :| 0 <= j < |pos| && pos[j] == i + 1;
        assert tail[j] == i;
      }
      if i in tail {
        var j :| 0 <= j < |tail| && tail[j] == i;
        assert pos[j] == i + 1;
      }
    }
  }
}
