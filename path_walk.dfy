/** The directed boundary walk between two vertices of a polygon with n
    vertices, numbered 0..n-1 in drawing order. Clockwise steps +1 mod n,
    counterclockwise steps -1 mod n. */
module PathWalk {

  /** One step of the walk, with the same modular arithmetic as the source loop
      body. Its operands are never negative, so JavaScript's `%` and Dafny's
      agree here. */
  function Next(i: int, n: int, clockwise: bool): (r: int)
    requires 0 <= i < n
    ensures 0 <= r < n
    ensures clockwise ==> r == (if i == n - 1 then 0 else i + 1)
    ensures !clockwise ==> r == (if i == 0 then n - 1 else i - 1)
  {
    ModBelowTwice(i + 1, n);
    ModBelowTwice(i - 1 + n, n);
    if clockwise then (i + 1) % n else (i - 1 + n) % n
  }

  /** The vertex k steps away from `start` in the given direction, with the
      wrap-around written out (no `%`). This is the reference definition the
      loop is proved against. */
  function Offset(start: int, k: int, n: int, clockwise: bool): int
    requires 0 <= start < n && 0 <= k < n
  {
    if clockwise then
      (if start + k < n then start + k else start + k - n)
    else
      (if start - k >= 0 then start - k else start - k + n)
  }

  /** The number of steps from `start` to `end`: the path has one index more. */
  function Steps(start: int, end: int, n: int, clockwise: bool): (r: int)
    requires 0 <= start < n && 0 <= end < n
    ensures 0 <= r < n
    ensures r == 0 <==> start == end
    ensures clockwise ==> r == (if start <= end then end - start else end - start + n)
    ensures !clockwise ==> r == (if end <= start then start - end else start - end + n)
  {
    ModBelowTwice(end - start + n, n);
    ModBelowTwice(start - end + n, n);
    if clockwise then (end - start + n) % n else (start - end + n) % n
  }

  /** `%` on an operand in 0..2n-1 subtracts n at most once. */
  lemma ModBelowTwice(x: int, n: int)
    requires 0 < n && 0 <= x < 2 * n
    ensures x % n == (if x < n then x else x - n)
  {
    if x >= n {
      assert (x - n) % n == x - n;
      assert x == (x - n) + 1 * n;
    }
  }

  /** The path from `start` to `end` inclusive: every vertex met on the way,
      one more than the number of steps. */
  function Walk(start: int, end: int, n: int, clockwise: bool): (r: seq<int>)
    requires 0 <= start < n && 0 <= end < n
    ensures |r| == Steps(start, end, n, clockwise) + 1
    ensures r[0] == start && r[|r| - 1] == end
  {
    seq(Steps(start, end, n, clockwise) + 1,
        k requires 0 <= k <= Steps(start, end, n, clockwise) => Offset(start, k, n, clockwise))
  }

  /** A sequence read back to front. */
  function Reverse(s: seq<int>): (r: seq<int>)
    ensures |r| == |s|
    ensures forall k :: 0 <= k < |s| ==> r[k] == s[|s| - 1 - k]
  {
    seq(|s|, k requires 0 <= k < |s| => s[|s| - 1 - k])
  }

  /** The position after k applications of Next: the values the source's
      loop variable `i` takes, whatever `end` is. */
  function Iterate(i: int, k: nat, n: int, clockwise: bool): (r: int)
    requires 0 <= i < n
    ensures 0 <= r < n
  {
    if k == 0 then i else Next(Iterate(i, k - 1, n, clockwise), n, clockwise)
  }

  /** One step of Next advances the reference offset by one. */
  lemma OffsetStep(start: int, k: int, n: int, clockwise: bool)
    requires 0 <= start < n && 0 <= k && k + 1 < n
    ensures Next(Offset(start, k, n, clockwise), n, clockwise) == Offset(start, k + 1, n, clockwise)
  {
  }

  /** Within the first Steps steps the walk meets `end` exactly at the last one. */
  lemma OffsetMeetsEnd(start: int, end: int, n: int, clockwise: bool, k: int)
    requires 0 <= start < n && 0 <= end < n
    requires 0 <= k <= Steps(start, end, n, clockwise)
    ensures Offset(start, k, n, clockwise) == end <==> k == Steps(start, end, n, clockwise)
  {
  }

  /** Length, bounds and endpoints of the path. */
  lemma WalkShape(start: int, end: int, n: int, clockwise: bool)
    requires 0 <= start < n && 0 <= end < n
    ensures clockwise ==> |Walk(start, end, n, clockwise)| == (end - start + n) % n + 1
    ensures !clockwise ==> |Walk(start, end, n, clockwise)| == (start - end + n) % n + 1
    ensures Walk(start, end, n, clockwise)[0] == start
    ensures Walk(start, end, n, clockwise)[|Walk(start, end, n, clockwise)| - 1] == end
    ensures start != end ==> 2 <= |Walk(start, end, n, clockwise)| <= n
  {
    OffsetMeetsEnd(start, end, n, clockwise, Steps(start, end, n, clockwise));
  }

  /** Every index on the path is a vertex of the polygon. */
  lemma WalkInRange(start: int, end: int, n: int, clockwise: bool)
    requires 0 <= start < n && 0 <= end < n
    ensures forall k :: 0 <= k < |Walk(start, end, n, clockwise)| ==> 0 <= Walk(start, end, n, clockwise)[k] < n
  {
  }

  /** Consecutive indices on the path are one Next step apart. */
  lemma WalkFollowsNext(start: int, end: int, n: int, clockwise: bool)
    requires 0 <= start < n && 0 <= end < n
    ensures forall k :: 0 <= k < |Walk(start, end, n, clockwise)| - 1 ==>
      Walk(start, end, n, clockwise)[k + 1] == Next(Walk(start, end, n, clockwise)[k], n, clockwise)
  {
    var w := Walk(start, end, n, clockwise);
    forall k | 0 <= k < |w| - 1
      ensures w[k + 1] == Next(w[k], n, clockwise)
    {
      OffsetStep(start, k, n, clockwise);
    }
  }

  /** No vertex is visited twice. */
  lemma WalkDistinct(start: int, end: int, n: int, clockwise: bool)
    requires 0 <= start < n && 0 <= end < n
    ensures forall a, b :: 0 <= a < b < |Walk(start, end, n, clockwise)| ==>
      Walk(start, end, n, clockwise)[a] != Walk(start, end, n, clockwise)[b]
  {
  }

  /** Between two different vertices the clockwise and the counterclockwise
      paths have only their endpoints in common. */
  lemma WalksShareOnlyEndpoints(start: int, end: int, n: int, v: int)
    requires 0 <= start < n && 0 <= end < n && start != end
    requires v in Walk(start, end, n, true) && v in Walk(start, end, n, false)
    ensures v == start || v == end
  {
    var cw, ccw := Walk(start, end, n, true), Walk(start, end, n, false);
    var a :| 0 <= a < |cw| && cw[a] == v;
    var b :| 0 <= b < |ccw| && ccw[b] == v;
  }

  /** The clockwise path from i to j is the counterclockwise path from j to i
      read backwards. */
  lemma WalkReversal(i: int, j: int, n: int)
    requires 0 <= i < n && 0 <= j < n
    ensures Walk(i, j, n, true) == Reverse(Walk(j, i, n, false))
  {
    var cw, ccw := Walk(i, j, n, true), Walk(j, i, n, false);
    assert |cw| == |ccw|;
    forall k | 0 <= k < |cw|
      ensures cw[k] == Reverse(ccw)[k]
    {
    }
  }

  /** The walk is the only sequence that leaves `start`, moves by Next and
      stops the first time it reaches `end`: it never goes the other way round. */
  lemma {:induction false} WalkUnique(p: seq<int>, start: int, end: int, n: int, clockwise: bool)
    requires 0 <= start < n && 0 <= end < n
    requires |p| > 0 && p[0] == start && p[|p| - 1] == end
    requires forall k :: 0 <= k < |p| - 1 ==> 0 <= p[k] < n && p[k + 1] == Next(p[k], n, clockwise)
    requires forall k :: 0 <= k < |p| - 1 ==> p[k] != end
    ensures p == Walk(start, end, n, clockwise)
  {
    var s := Steps(start, end, n, clockwise);
    var m := if |p| - 1 < s then |p| - 1 else s;
    PrefixIsOffset(p, start, n, clockwise, m);
    OffsetMeetsEnd(start, end, n, clockwise, m);
    assert |p| - 1 == s;
  }

  /** Helper for WalkUnique: a Next-chain from `start` agrees with Offset on its
      first m + 1 entries. */
  lemma {:induction false} PrefixIsOffset(p: seq<int>, start: int, n: int, clockwise: bool, m: int)
    requires 0 <= start < n && 0 <= m < n && m < |p| && p[0] == start
    requires forall k :: 0 <= k < |p| - 1 ==> 0 <= p[k] < n && p[k + 1] == Next(p[k], n, clockwise)
    ensures forall k :: 0 <= k <= m ==> p[k] == Offset(start, k, n, clockwise)
  {
    if m > 0 {
      PrefixIsOffset(p, start, n, clockwise, m - 1);
      OffsetStep(start, m - 1, n, clockwise);
    }
  }

  /** Iterating Next from `start` follows the reference offset. */
  lemma {:induction false} IterateIsOffset(start: int, k: nat, n: int, clockwise: bool)
    requires 0 <= start < n && k < n
    ensures Iterate(start, k, n, clockwise) == Offset(start, k, n, clockwise)
  {
    if k > 0 {
      IterateIsOffset(start, k - 1, n, clockwise);
      OffsetStep(start, k - 1, n, clockwise);
    }
  }

  /** As written, the loop stops only when `i` equals `end`; `i` starts inside
      the polygon and Next keeps it there, so an `end` outside 0..n-1 is never
      met and the loop does not terminate. */
  lemma UnguardedWalkNeverEnds(start: int, end: int, n: int, clockwise: bool, k: nat)
    requires 0 <= start < n
    requires end < 0 || n <= end
    ensures Iterate(start, k, n, clockwise) != end
  {
  }

  /** The square of four vertices: from 0 to 2 clockwise is [0, 1, 2],
      counterclockwise is [0, 3, 2]. */
  lemma SquareWalks()
    ensures Walk(0, 2, 4, true) == [0, 1, 2]
    ensures Walk(0, 2, 4, false) == [0, 3, 2]
  {
    assert Steps(0, 2, 4, true) == 2 && Steps(0, 2, 4, false) == 2;
  }
}
