/**
 Isotonic calibration by pooling adjacent violators (`pav_fit`, `pav_predict`).

 The fitted step function is the least-squares projection of the sorted labels onto the nondecreasing
 sequences.  The loop only maintains that every block holds its own mean and that no prefix of a block
 averages below that mean; `Projection` shows that this is all optimality takes.
 */
module Isotonic {
  import opened RealMath

  // ----- sums and squared distances over index ranges

  ghost function Distance2(p: seq<real>, q: seq<real>, n: nat): real
    requires n <= |p| && n <= |q|
  {
    if n == 0 then 0.0 else Distance2(p, q, n - 1) + Square(p[n - 1] - q[n - 1])
  }

  ghost function Square(a: real): real { a * a }

  ghost function SquaredError(p: seq<real>, q: seq<real>): real
    requires |p| == |q|
  {
    Distance2(p, q, |p|)
  }

  // ----- blocks

  /** Positions lo..hi of the sorted sample, pooled at one level. */
  datatype Block = Block(lo: nat, hi: nat, level: real)

  /** By how much the labels y[a..j] together run above the level v. */
  ghost function Excess(y: seq<real>, a: nat, v: real, j: nat): real
    requires a <= j <= |y|
  {
    if j == a then 0.0 else Excess(y, a, v, j - 1) + (y[j - 1] - v)
  }

  lemma {:induction false} ShiftLevel(y: seq<real>, a: nat, u: real, v: real, j: nat)
    requires a <= j <= |y|
    ensures Excess(y, a, v, j) == Excess(y, a, u, j) + (u - v) * (j - a) as real
    decreases j
  {
    if j > a {
      ShiftLevel(y, a, u, v, j - 1);
      assert (j - a) as real == (j - 1 - a) as real + 1.0;
      assert (u - v) * ((j - 1 - a) as real + 1.0) == (u - v) * (j - 1 - a) as real + (u - v);
    }
  }

  lemma {:induction false} ExcessSplit(y: seq<real>, a: nat, b: nat, v: real, j: nat)
    requires a <= b <= j <= |y|
    ensures Excess(y, a, v, j) == Excess(y, a, v, b) + Excess(y, b, v, j)
    decreases j
  {
    if j > b { ExcessSplit(y, a, b, v, j - 1); }
  }

  /** The level is the mean of the block's labels, and no prefix of them averages below it. */
  ghost predicate Pooled(y: seq<real>, b: Block) {
    && b.lo < b.hi <= |y|
    && Excess(y, b.lo, b.level, b.hi) == 0.0
    && forall j :: b.lo <= j <= b.hi ==> Excess(y, b.lo, b.level, j) >= 0.0
  }

  ghost predicate AllPooled(y: seq<real>, blocks: seq<Block>) {
    forall k :: 0 <= k < |blocks| ==> Pooled(y, blocks[k])
  }

  /** The blocks follow each other without gaps and cover positions 0..n. */
  ghost predicate Cover(blocks: seq<Block>, n: nat) {
    && (forall k :: 0 <= k < |blocks| ==> blocks[k].lo < blocks[k].hi)
    && (forall j, k :: 0 <= j && k == j + 1 < |blocks| ==> blocks[j].hi == blocks[k].lo)
    && (if blocks == [] then n == 0 else blocks[0].lo == 0 && blocks[|blocks| - 1].hi == n)
  }

  /** The pooled level of two adjacent blocks with levels u, v and weights s, t. */
  function Merge(u: real, s: real, v: real, t: real): real
    requires s + t != 0.0
  {
    (u * s + v * t) / (s + t)
  }

  function Size(b: Block): real { (b.hi - b.lo) as real }

  lemma MergePooled(y: seq<real>, p: Block, q: Block)
    requires Pooled(y, p) && Pooled(y, q) && p.hi == q.lo && p.level > q.level
    ensures Size(Block(p.lo, q.hi, p.level)) == Size(p) + Size(q) > 0.0
    ensures Pooled(y, Block(p.lo, q.hi, Merge(p.level, Size(p), q.level, Size(q))))
  {
    var s, t := Size(p), Size(q);
    var m := Merge(p.level, s, q.level, t);
    hide Merge, Excess;
    BetweenLevels(p.level, q.level, m, s, t);
    var head, d := (p.level - m) * s, m - q.level;
    assert head == d * t;
    forall j | p.lo <= j <= q.hi ensures Excess(y, p.lo, m, j) >= 0.0 && (j == q.hi ==> Excess(y, p.lo, m, j) == 0.0) {
      if j <= p.hi {
        HeadExcess(y, p, m, j);
      } else {
        HeadExcess(y, p, m, p.hi);
        TailExcess(y, p, q, m, head, d, t, j);
      }
    }
  }

  lemma HeadExcess(y: seq<real>, p: Block, m: real, j: nat)
    requires Pooled(y, p) && m <= p.level && p.lo <= j <= p.hi
    ensures Excess(y, p.lo, m, j) >= 0.0
    ensures j == p.hi ==> Excess(y, p.lo, m, j) == (p.level - m) * Size(p)
  {
    assert Excess(y, p.lo, p.level, j) >= 0.0;
    ShiftLevel(y, p.lo, p.level, m, j);
    NonnegativeProduct(p.level - m, (j - p.lo) as real);
  }

  lemma TailExcess(y: seq<real>, p: Block, q: Block, m: real, head: real, d: real, t: real, j: nat)
    requires Pooled(y, q) && p.lo <= p.hi == q.lo <= j <= q.hi && d == m - q.level >= 0.0 && t == Size(q)
    requires Excess(y, p.lo, m, p.hi) == head == d * t
    ensures Excess(y, p.lo, m, j) >= 0.0 && (j == q.hi ==> Excess(y, p.lo, m, j) == 0.0)
  {
    var x, r := Excess(y, q.lo, q.level, j), (j - q.lo) as real;
    assert x >= 0.0 && (j == q.hi ==> x == 0.0 && r == t) && 0.0 <= r <= t;
    hide *;
    ExcessSplit(y, p.lo, p.hi, m, j);
    ShiftLevel(y, q.lo, q.level, m, j);
    TailSum(Excess(y, p.lo, m, j), head, d, q.level - m, t, r, x);
  }

  lemma TailSum(total: real, head: real, d: real, d': real, t: real, r: real, x: real)
    requires head == d * t && d' == -d && total == head + (x + d' * r) && x >= 0.0 && 0.0 <= r <= t && d >= 0.0
    ensures total >= 0.0 && (x == 0.0 && r == t ==> total == 0.0)
  {
    NonnegativeProduct(d, t - r);
    assert d * (t - r) == d * t - d * r;
    assert d' * r == -(d * r);
  }

  lemma ScaleStrict(a: real, b: real)
    requires a > 0.0 && b > 0.0
    ensures a * b > 0.0
  {
  }

  lemma CancelScale(a: real, c: real)
    requires a * c >= 0.0 && c > 0.0
    ensures a >= 0.0
  {
    if a < 0.0 { ScaleStrict(-a, c); }
  }

  lemma BetweenLevels(u: real, v: real, m: real, s: real, t: real)
    requires u > v && s > 0.0 && t > 0.0 && m == Merge(u, s, v, t)
    ensures v <= m <= u && (u - m) * s == (m - v) * t
  {
    assert m * (s + t) == u * s + v * t;
    NonnegativeProduct(u - v, t);
    NonnegativeProduct(u - v, s);
    assert (u - m) * (s + t) == (u - v) * t;
    assert (m - v) * (s + t) == (u - v) * s;
    CancelScale(u - m, s + t);
    CancelScale(m - v, s + t);
  }

  // ----- the step function behind the blocks

  /** The fitted value at every sorted position: each level repeated over its block. */
  ghost function Expand(blocks: seq<Block>): (fit: seq<real>)
    requires forall k :: 0 <= k < |blocks| ==> blocks[k].lo <= blocks[k].hi
  {
    if blocks == [] then [] else
    var b := blocks[|blocks| - 1];
    Expand(blocks[..|blocks| - 1]) + seq(b.hi - b.lo, _ => b.level)
  }

  ghost predicate In(b: Block, i: int) { b.lo <= i < b.hi }

  /** `fit` stays at the block's level over the whole block. */
  ghost predicate Flat(fit: seq<real>, b: Block) {
    b.hi <= |fit| && forall i :: b.lo <= i < b.hi ==> fit[i] == b.level
  }

  ghost predicate Carries(fit: seq<real>, blocks: seq<Block>) {
    forall k :: 0 <= k < |blocks| ==> Flat(fit, blocks[k])
  }

  lemma {:induction false} ExpandCarries(blocks: seq<Block>, n: nat)
    requires Cover(blocks, n)
    ensures |Expand(blocks)| == n && Carries(Expand(blocks), blocks)
  {
    if blocks != [] {
      var last := |blocks| - 1;
      var front, b := blocks[..last], blocks[last];
      ExpandCarries(front, b.lo);
      forall k | 0 <= k < |blocks| ensures Flat(Expand(blocks), blocks[k]) {
        if k < last {
          assert Flat(Expand(front), front[k]);
        }
      }
    }
  }

  lemma {:induction false} BlockOf(blocks: seq<Block>, n: nat, i: nat) returns (k: nat)
    requires Cover(blocks, n) && i < n
    ensures k < |blocks| && In(blocks[k], i)
  {
    k := |blocks| - 1;
    if i < blocks[k].lo {
      k := BlockOf(blocks[..k], blocks[k].lo, i);
    }
  }

  // ----- optimality

  /** The cross term left over after a position of a block at level v, z being the competitor there. */
  ghost function Cross(e: real, v: real, z: real): real { 2.0 * (e * (v - z)) }

  /** One term of the Abel summation inside a block. */
  lemma AbelStep(dz: real, df: real, dfz: real, e: real, y: real, v: real, before: real, z: real)
    requires dz >= df + dfz + Cross(e, v, before) && e >= 0.0 && before <= z
    ensures dz + Square(y - z) >= df + Square(y - v) + (dfz + Square(v - z)) + Cross(e + (y - v), v, z)
  {
    NonnegativeProduct(e, z - before);
    var gain := 2.0 * (e * (z - before));
    assert Cross(e, v, before) == Cross(e, v, z) + gain;
    assert Cross(e + (y - v), v, z) == Cross(e, v, z) + Cross(y - v, v, z);
    assert Square(y - z) == Square(y - v) + Square(v - z) + Cross(y - v, v, z);
    Collect(dz, df, dfz, Cross(e, v, before), Cross(e, v, z), gain, Square(y - z), Square(y - v), Square(v - z),
            Cross(y - v, v, z), Cross(e + (y - v), v, z));
  }

  lemma Collect(dz: real, df: real, dfz: real, old': real, kept: real, gain: real, s: real, sf: real, sfz: real,
                extra: real, next: real)
    requires dz >= df + dfz + old' && old' == kept + gain && gain >= 0.0
    requires s == sf + sfz + extra && next == kept + extra
    ensures dz + s >= df + sf + (dfz + sfz) + next
  {
  }

  /** Inside a block the cross term never helps a nondecreasing competitor. */
  lemma {:induction false} BlockStep(y: seq<real>, fit: seq<real>, z: seq<real>, b: Block, j: nat)
    requires |y| == |fit| == |z| && Nondecreasing(z) && Pooled(y, b) && b.lo <= j < b.hi
    requires forall i :: b.lo <= i < b.hi ==> fit[i] == b.level
    requires Distance2(y, z, b.lo) >= Distance2(y, fit, b.lo) + Distance2(fit, z, b.lo)
    ensures Distance2(y, z, j + 1) >= Distance2(y, fit, j + 1) + Distance2(fit, z, j + 1)
                                  + Cross(Excess(y, b.lo, b.level, j + 1), b.level, z[j])
    decreases j
  {
    var v, e := b.level, Excess(y, b.lo, b.level, j);
    if j == b.lo {
      assert Cross(e, v, z[j]) == 0.0;
      AbelStep(Distance2(y, z, j), Distance2(y, fit, j), Distance2(fit, z, j), e, y[j], v, z[j], z[j]);
    } else {
      BlockStep(y, fit, z, b, j - 1);
      AbelStep(Distance2(y, z, j), Distance2(y, fit, j), Distance2(fit, z, j), e, y[j], v, z[j - 1], z[j]);
    }
  }

  lemma {:induction false} ProjectionUpTo(y: seq<real>, blocks: seq<Block>, fit: seq<real>, z: seq<real>, k: nat)
    requires |y| == |fit| == |z| && Nondecreasing(z) && k <= |blocks|
    requires Cover(blocks, |y|) && AllPooled(y, blocks)
    requires Carries(fit, blocks)
    ensures var n := if k == 0 then 0 else blocks[k - 1].hi;
            Distance2(y, z, n) >= Distance2(y, fit, n) + Distance2(fit, z, n)
  {
    if k > 0 {
      var b := blocks[k - 1];
      ProjectionUpTo(y, blocks, fit, z, k - 1);
      assert Flat(fit, b);
      assert Pooled(y, b);
      BlockStep(y, fit, z, b, b.hi - 1);
      assert Cross(0.0, b.level, z[b.hi - 1]) == 0.0;
    }
  }

  /**
   Least squares: every nondecreasing sequence is at least as far from the labels as the fit, by at least
   its own distance from the fit.
   */
  lemma Projection(y: seq<real>, blocks: seq<Block>, z: seq<real>)
    requires Cover(blocks, |y|) && AllPooled(y, blocks)
    requires |z| == |y| && Nondecreasing(z)
    ensures |Expand(blocks)| == |y|
    ensures SquaredError(y, z) >= SquaredError(y, Expand(blocks)) + SquaredError(Expand(blocks), z)
  {
    ExpandCarries(blocks, |y|);
    ProjectionUpTo(y, blocks, Expand(blocks), z, |blocks|);
  }

  lemma {:induction false} DistanceZero(p: seq<real>, q: seq<real>, n: nat)
    requires n <= |p| && n <= |q|
    ensures Distance2(p, q, n) >= 0.0
    ensures Distance2(p, q, n) == 0.0 ==> p[..n] == q[..n]
  {
    if n > 0 {
      DistanceZero(p, q, n - 1);
      SquareSign(p[n - 1] - q[n - 1]);
      assert p[..n] == p[..n - 1] + [p[n - 1]] && q[..n] == q[..n - 1] + [q[n - 1]];
    }
  }

  lemma SquareSign(a: real)
    ensures a == 0.0 ==> Square(a) == 0.0
    ensures a != 0.0 ==> Square(a) > 0.0
  {
    if a > 0.0 {
      PositiveProduct(a, a, Square(a));
    } else if a < 0.0 {
      PositiveProduct(-a, -a, Square(a));
    }
  }

  lemma PositiveProduct(a: real, b: real, c: real)
    requires a > 0.0 && b > 0.0 && c == a * b
    ensures c > 0.0
  {
  }

  /** No other nondecreasing sequence does as well as the fit. */
  lemma ProjectionUnique(y: seq<real>, blocks: seq<Block>, z: seq<real>)
    requires Cover(blocks, |y|) && AllPooled(y, blocks)
    requires |z| == |y| && Nondecreasing(z)
    ensures |Expand(blocks)| == |y|
    ensures SquaredError(y, z) <= SquaredError(y, Expand(blocks)) <==> z == Expand(blocks)
  {
    var fit := Expand(blocks);
    Projection(y, blocks, z);
    DistanceZero(fit, z, |y|);
    assert fit[..|y|] == fit && z[..|y|] == z;
  }

  ghost predicate LevelsNondecreasing(blocks: seq<Block>) {
    forall j, k :: 0 <= j < k < |blocks| ==> blocks[j].level <= blocks[k].level
  }

  lemma ExpandNondecreasing(blocks: seq<Block>, n: nat)
    requires Cover(blocks, n) && LevelsNondecreasing(blocks)
    ensures Nondecreasing(Expand(blocks))
  {
    ExpandCarries(blocks, n);
    var fit := Expand(blocks);
    forall i | 0 < i < |fit| ensures fit[i - 1] <= fit[i] {
      var k := BlockOf(blocks, n, i - 1);
      assert Flat(fit, blocks[k]);
      if i == blocks[k].hi {
        assert Flat(fit, blocks[k + 1]) && blocks[k].hi == blocks[k + 1].lo;
      }
    }
    AdjacentImpliesNondecreasing(fit);
  }

  // ----- conservation

  ghost function Mass(b: Block): real { b.level * Size(b) }

  ghost function WeightedLevels(blocks: seq<Block>): real {
    if blocks == [] then 0.0 else
    var b := blocks[|blocks| - 1];
    WeightedLevels(blocks[..|blocks| - 1]) + Mass(b)
  }

  lemma BlockMass(y: seq<real>, b: Block)
    requires Pooled(y, b)
    ensures Excess(y, 0, 0.0, b.hi) == Excess(y, 0, 0.0, b.lo) + Mass(b)
  {
    ExcessSplit(y, 0, b.lo, 0.0, b.hi);
    ShiftLevel(y, b.lo, b.level, 0.0, b.hi);
  }

  /** Pooling shares label mass out inside a block and never creates or loses any. */
  lemma {:induction false} MassConserved(y: seq<real>, blocks: seq<Block>, n: nat)
    requires n <= |y| && Cover(blocks, n) && AllPooled(y, blocks)
    ensures WeightedLevels(blocks) == Excess(y, 0, 0.0, n)
  {
    hide Mass, Pooled;
    if blocks == [] {
      assert Excess(y, 0, 0.0, 0) == 0.0;
    } else {
      var last := |blocks| - 1;
      var b := blocks[last];
      hide Excess;
      assert Pooled(y, b);
      assert forall k :: 0 <= k < last ==> blocks[..last][k] == blocks[k];
      MassConserved(y, blocks[..last], b.lo);
      BlockMass(y, b);
    }
  }

  lemma {:induction false} ExcessSign(y: seq<real>, a: nat, v: real, j: nat)
    requires a <= j <= |y|
    ensures (forall i :: 0 <= i < |y| ==> v <= y[i]) ==> Excess(y, a, v, j) >= 0.0
    ensures (forall i :: 0 <= i < |y| ==> y[i] <= v) ==> Excess(y, a, v, j) <= 0.0
    decreases j
  {
    if j > a { ExcessSign(y, a, v, j - 1); }
  }

  /** A level is an average of labels, so it stays within their range. */
  lemma WithinRange(y: seq<real>, b: Block, lo: real, hi: real)
    requires Pooled(y, b)
    requires forall i :: 0 <= i < |y| ==> lo <= y[i] <= hi
    ensures lo <= b.level <= hi
  {
    ExcessSign(y, b.lo, lo, b.hi);
    ShiftLevel(y, b.lo, b.level, lo, b.hi);
    ExcessSign(y, b.lo, hi, b.hi);
    ShiftLevel(y, b.lo, b.level, hi, b.hi);
    hide Excess, Pooled;
    AverageBounds(b.level, lo, hi, (b.hi - b.lo) as real);
  }

  lemma AverageBounds(v: real, lo: real, hi: real, n: real)
    requires n > 0.0 && (v - lo) * n >= 0.0 && (v - hi) * n <= 0.0
    ensures lo <= v <= hi
  {
    CancelScale(v - lo, n);
    assert (v - hi) * n == -((hi - v) * n);
    CancelScale(hi - v, n);
  }

  // ----- the fit itself

  /** `order` is what `np.argsort` may return, for any way of breaking ties. */
  ghost predicate Argsort(scores: seq<real>, order: seq<nat>) {
    && |order| == |scores|
    && (forall i :: 0 <= i < |order| ==> order[i] < |scores|)
    && (forall i, j :: 0 <= i < j < |order| ==> order[i] != order[j])
    && (forall i, j :: 0 <= i < j < |order| ==> scores[order[i]] <= scores[order[j]])
  }

  function Gather(s: seq<real>, order: seq<nat>): (r: seq<real>)
    requires forall i :: 0 <= i < |order| ==> order[i] < |s|
    ensures |r| == |order|
    ensures forall i :: 0 <= i < |order| ==> r[i] == s[order[i]]
  {
    seq(|order|, i requires 0 <= i < |order| => s[order[i]])
  }

  /** The returned lists describe the blocks: their levels, keyed by the last score in each. */
  ghost predicate Describes(x: seq<real>, blocks: seq<Block>, xs: seq<real>, vals: seq<real>) {
    && |xs| == |vals| == |blocks|
    && (forall k {:trigger blocks[k]} :: 0 <= k < |blocks| ==> 0 < blocks[k].hi <= |x| && xs[k] == x[blocks[k].hi - 1])
    && (forall k {:trigger blocks[k]} :: 0 <= k < |blocks| ==> vals[k] == blocks[k].level)
  }

  /** What `pav_fit` leaves behind. */
  ghost predicate Fitted(x: seq<real>, y: seq<real>, blocks: seq<Block>, xs: seq<real>, vals: seq<real>) {
    && |x| == |y| && Cover(blocks, |y|) && AllPooled(y, blocks) && Describes(x, blocks, xs, vals)
    && Nondecreasing(x) && Nondecreasing(xs) && Nondecreasing(vals)
  }

  /** Replaces elements i and i + 1 by one, as the slice assignment does. */
  function Splice<T>(s: seq<T>, i: nat, v: T): (r: seq<T>)
    requires i + 1 < |s|
    ensures |r| == |s| - 1
    ensures forall k :: 0 <= k < |r| ==> r[k] == if k < i then s[k] else if k == i then v else s[k + 1]
  {
    s[..i] + [v] + s[i + 2..]
  }

  lemma SpliceCovers(blocks: seq<Block>, n: nat, i: nat, m: Block)
    requires i + 1 < |blocks| && Cover(blocks, n)
    requires m.lo == blocks[i].lo && m.hi == blocks[i + 1].hi
    ensures Cover(Splice(blocks, i, m), n)
  {
    var r := Splice(blocks, i, m);
    forall j, k | 0 <= j && k == j + 1 < |r| ensures r[j].hi == r[k].lo {
      if j < i {
        assert blocks[j].hi == blocks[k].lo;
      } else {
        assert blocks[k].hi == blocks[k + 1].lo;
      }
    }
    assert blocks[i].hi == blocks[i + 1].lo;
  }

  lemma SpliceDescribes(x: seq<real>, blocks: seq<Block>, xs: seq<real>, vals: seq<real>, i: nat, m: Block)
    requires i + 1 < |blocks| && Describes(x, blocks, xs, vals) && m.hi == blocks[i + 1].hi
    ensures Describes(x, Splice(blocks, i, m), Splice(xs, i, xs[i + 1]), Splice(vals, i, m.level))
  {
  }

  lemma SplicePooled(y: seq<real>, blocks: seq<Block>, i: nat, m: Block)
    requires i + 1 < |blocks| && AllPooled(y, blocks) && Pooled(y, m)
    ensures AllPooled(y, Splice(blocks, i, m))
  {
  }

  ghost predicate Weighs(blocks: seq<Block>, wts: seq<real>) {
    |wts| == |blocks| && forall k {:trigger blocks[k]} :: 0 <= k < |wts| ==> wts[k] == Size(blocks[k])
  }

  lemma SpliceWeighs(blocks: seq<Block>, wts: seq<real>, i: nat, m: Block, tot: real)
    requires i + 1 < |blocks| && Weighs(blocks, wts) && tot == Size(m)
    ensures Weighs(Splice(blocks, i, m), Splice(wts, i, tot))
  {
  }

  /** Everything left of the merge was in order and stays so. */
  lemma SpliceSorted(vals: seq<real>, i: nat, v: real)
    requires i + 1 < |vals| && Nondecreasing(vals[..i + 1])
    ensures Nondecreasing(Splice(vals, i, v)[..i])
  {
    assert Splice(vals, i, v)[..i] == vals[..i + 1][..i];
  }

  lemma ExtendSorted(vals: seq<real>, i: nat)
    requires i + 1 < |vals| && Nondecreasing(vals[..i + 1]) && vals[i] <= vals[i + 1]
    ensures Nondecreasing(vals[..i + 2])
  {
    var p := vals[..i + 1];
    assert vals[..i + 2] == p + [vals[i + 1]];
    forall j, k | 0 <= j < k < i + 2 ensures vals[j] <= vals[k] {
      assert p[j] <= p[i];
    }
  }

  /** The weighted mean that replaces two violating neighbours. */
  method MergeLevels(ghost y: seq<real>, ghost p: Block, ghost q: Block, u: real, s: real, v: real, t: real)
    returns (merged: real)
    requires Pooled(y, p) && Pooled(y, q) && p.hi == q.lo && u > v
    requires u == p.level && s == Size(p) && v == q.level && t == Size(q)
    ensures Pooled(y, Block(p.lo, q.hi, merged))
    ensures Size(Block(p.lo, q.hi, merged)) == s + t
  {
    merged := Merge(u, s, v, t);
    MergePooled(y, p, q);
  }

  /** The loop of `pav_fit`, once scores and labels are sorted together. */
  method PoolAdjacentViolators(x: seq<real>, y: seq<real>)
    returns (xs: seq<real>, vals: seq<real>, ghost blocks: seq<Block>)
    requires |x| == |y|
    ensures Cover(blocks, |y|) && AllPooled(y, blocks) && Describes(x, blocks, xs, vals) && Nondecreasing(vals)
  {
    var wts := seq(|y|, _ => 1.0);
    vals, xs := y, x;
    blocks := Singletons(x, y, wts);
    var i := 0;
    while i < |vals| - 1
      invariant Cover(blocks, |y|) && AllPooled(y, blocks)
      invariant Describes(x, blocks, xs, vals) && Weighs(blocks, wts)
      invariant 0 <= i && (vals != [] ==> i < |vals|)
      invariant vals != [] ==> Nondecreasing(vals[..i + 1])
      decreases 2 * |vals| - i
    {
      if vals[i] > vals[i + 1] {
        var tot := wts[i] + wts[i + 1];
        ghost var p, q := blocks[i], blocks[i + 1];
        var merged := MergeLevels(y, p, q, vals[i], wts[i], vals[i + 1], wts[i + 1]);
        ghost var m := Block(p.lo, q.hi, merged);
        SpliceCovers(blocks, |y|, i, m);
        SplicePooled(y, blocks, i, m);
        SpliceDescribes(x, blocks, xs, vals, i, m);
        SpliceWeighs(blocks, wts, i, m, tot);
        SpliceSorted(vals, i, merged);
        blocks := Splice(blocks, i, m);
        xs := Splice(xs, i, xs[i + 1]);
        vals := Splice(vals, i, merged);
        wts := Splice(wts, i, tot);
        i := if i == 0 then 0 else i - 1;
      } else {
        ExtendSorted(vals, i);
        i := i + 1;
      }
    }
    assert vals != [] ==> vals[..i + 1] == vals;
  }

  method PavFit(scores: seq<real>, labels: seq<real>, order: seq<nat>)
    returns (xs: seq<real>, vals: seq<real>, ghost blocks: seq<Block>)
    requires Argsort(scores, order) && |scores| <= |labels|
    ensures Fitted(Gather(scores, order), Gather(labels, order), blocks, xs, vals)
    ensures |xs| == |vals| && (vals == [] <==> scores == [])
    ensures |Expand(blocks)| == |scores| && Nondecreasing(Expand(blocks))
    ensures forall z: seq<real> :: |z| == |scores| && Nondecreasing(z) ==>
              SquaredError(Gather(labels, order), Expand(blocks)) <= SquaredError(Gather(labels, order), z)
  {
    var x, y := Gather(scores, order), Gather(labels, order);
    xs, vals, blocks := PoolAdjacentViolators(x, y);
    FinishFit(x, y, blocks, xs, vals);
  }

  /** To begin with every label is a block of its own. */
  lemma Singletons(x: seq<real>, y: seq<real>, wts: seq<real>) returns (blocks: seq<Block>)
    requires |x| == |y| == |wts| && forall k :: 0 <= k < |y| ==> wts[k] == 1.0
    ensures Cover(blocks, |y|) && AllPooled(y, blocks) && Describes(x, blocks, x, y) && Weighs(blocks, wts)
  {
    blocks := seq(|y|, k requires 0 <= k < |y| => Block(k, k + 1, y[k]));
    forall k | 0 <= k < |y| ensures Pooled(y, blocks[k]) {
      assert Excess(y, k, y[k], k) == 0.0;
      assert Excess(y, k, y[k], k + 1) == Excess(y, k, y[k], k) + (y[k] - y[k]);
    }
  }

  lemma FinishFit(x: seq<real>, y: seq<real>, blocks: seq<Block>, xs: seq<real>, vals: seq<real>)
    requires |x| == |y| && Cover(blocks, |y|) && AllPooled(y, blocks) && Describes(x, blocks, xs, vals)
    requires Nondecreasing(x) && Nondecreasing(vals)
    ensures Fitted(x, y, blocks, xs, vals)
    ensures |Expand(blocks)| == |y| && Nondecreasing(Expand(blocks))
    ensures forall z: seq<real> :: |z| == |y| && Nondecreasing(z) ==>
              SquaredError(y, Expand(blocks)) <= SquaredError(y, z)
  {
    forall j, k | 0 <= j < k < |xs| ensures xs[j] <= xs[k] {
      BlocksOrdered(blocks, |y|, j, k);
    }
    assert LevelsNondecreasing(blocks);
    ExpandNondecreasing(blocks, |y|);
    ExpandCarries(blocks, |y|);
    forall z: seq<real> | |z| == |y| && Nondecreasing(z)
      ensures SquaredError(y, Expand(blocks)) <= SquaredError(y, z)
    {
      Projection(y, blocks, z);
      DistanceZero(Expand(blocks), z, |y|);
    }
  }

  // ----- prediction

  /** `np.searchsorted(xs, s, side="right")` on sorted breakpoints. */
  function SearchRight(xs: seq<real>, s: real): (r: nat)
    ensures r <= |xs|
    ensures forall i :: 0 <= i < r ==> xs[i] <= s
    ensures r < |xs| ==> s < xs[r]
  {
    if xs == [] || s < xs[0] then 0 else 1 + SearchRight(xs[1..], s)
  }

  function PavPredict(xs: seq<real>, vals: seq<real>, s: real): real
    requires |xs| == |vals|
  {
    if |xs| == 0 then 0.5 else
    var idx := SearchRight(xs, s);
    vals[if idx > |vals| - 1 then |vals| - 1 else idx]
  }

  /** Without any training scores, every prediction is even. */
  lemma PredictUntrained(s: real)
    ensures PavPredict([], [], s) == 1.0 - PavPredict([], [], s)
  {
  }

  /** A higher score never gets a lower probability. */
  lemma PredictMonotone(xs: seq<real>, vals: seq<real>, s: real, t: real)
    requires |xs| == |vals| && Nondecreasing(xs) && Nondecreasing(vals) && s <= t
    ensures PavPredict(xs, vals, s) <= PavPredict(xs, vals, t)
  {
    var i, j := SearchRight(xs, s), SearchRight(xs, t);
    assert forall k :: 0 <= k < i ==> xs[k] <= t;
    assert i <= j;
  }

  /** Calibrated probabilities stay within the range of the labels they were fitted on. */
  lemma PredictInRange(x: seq<real>, y: seq<real>, blocks: seq<Block>, xs: seq<real>, vals: seq<real>,
                       s: real, lo: real, hi: real)
    requires Fitted(x, y, blocks, xs, vals) && |y| > 0
    requires forall i :: 0 <= i < |y| ==> lo <= y[i] <= hi
    ensures lo <= PavPredict(xs, vals, s) <= hi
  {
    var idx := SearchRight(xs, s);
    var k := if idx > |vals| - 1 then |vals| - 1 else idx;
    WithinRange(y, blocks[k], lo, hi);
  }

  lemma {:induction false} BlocksOrdered(blocks: seq<Block>, n: nat, j: nat, k: nat)
    requires Cover(blocks, n) && j < k < |blocks|
    ensures blocks[j].hi <= blocks[k].lo
  {
    assert blocks[k - 1].hi == blocks[k].lo;
    if j < k - 1 { BlocksOrdered(blocks, n, j, k - 1); }
  }

  /**
   At a training score the prediction is never below the fit, and it is the fit itself unless the score is
   its block's right endpoint, where the right-sided search skips to a later block.
   */
  lemma PredictAtTraining(x: seq<real>, y: seq<real>, blocks: seq<Block>, xs: seq<real>, vals: seq<real>, i: nat,
                          k: nat)
    requires Fitted(x, y, blocks, xs, vals) && k < |blocks| && In(blocks[k], i)
    ensures i < |Expand(blocks)| == |x| && Expand(blocks)[i] == vals[k]
    ensures PavPredict(xs, vals, x[i]) >= vals[k]
    ensures x[i] < xs[k] ==> PavPredict(xs, vals, x[i]) == vals[k]
    ensures x[i] == xs[k] && k + 1 < |vals| ==> PavPredict(xs, vals, x[i]) >= vals[k + 1]
  {
    ExpandCarries(blocks, |y|);
    assert Flat(Expand(blocks), blocks[k]);
    var idx := SearchRight(xs, x[i]);
    assert x[i] <= xs[k];
    assert k <= idx by {
      if idx < k {
        BlocksOrdered(blocks, |y|, idx, k);
      }
    }
  }

  ghost predicate ReproducesFit(x: seq<real>, blocks: seq<Block>, xs: seq<real>, vals: seq<real>)
    requires |xs| == |vals| == |blocks|
  {
    forall k, i :: 0 <= k < |blocks| && In(blocks[k], i) && i < |x| ==> PavPredict(xs, vals, x[i]) == vals[k]
  }

  /**
   The predictor gives back its own fit on every training score exactly when the fit is flat: any step up
   is taken one training score too early.
   */
  lemma ReproducesFitIffFlat(x: seq<real>, y: seq<real>, blocks: seq<Block>, xs: seq<real>, vals: seq<real>)
    requires Fitted(x, y, blocks, xs, vals) && |y| > 0
    ensures ReproducesFit(x, blocks, xs, vals) <==> vals[0] == vals[|vals| - 1]
  {
    var n := |vals| - 1;
    if vals[0] == vals[n] {
      forall k, i | 0 <= k < |blocks| && In(blocks[k], i) && i < |x|
        ensures PavPredict(xs, vals, x[i]) == vals[k]
      {
        assert vals[0] <= vals[k] <= vals[n];
      }
    } else {
      var k := FirstStep(vals);
      var i := blocks[k].hi - 1;
      assert In(blocks[k], i);
      PredictAtTraining(x, y, blocks, xs, vals, i, k);
    }
  }

  lemma {:induction false} FirstStep(vals: seq<real>) returns (k: nat)
    requires |vals| > 0 && Nondecreasing(vals) && vals[0] != vals[|vals| - 1]
    ensures k + 1 < |vals| && vals[k] < vals[k + 1]
  {
    var n := |vals| - 1;
    if vals[n - 1] < vals[n] {
      k := n - 1;
    } else {
      k := FirstStep(vals[..n]);
    }
  }
}
