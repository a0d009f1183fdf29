/** Splitting a length into integer parts by the largest-remainder method. */
module Partition {

  /** A ratio as the configuration may hold it. */
  datatype Weight = Num(value: real) | NaN

  function Clipped(w: Weight): (c: real) {
    if w.NaN? || w.value < 0.0 then 0.0 else w.value
  }

  function Total(xs: seq<real>): (t: real) {
    if xs == [] then 0.0 else Total(xs[..|xs| - 1]) + xs[|xs| - 1]
  }

  function Sum(ns: seq<int>): (t: int) {
    if ns == [] then 0 else Sum(ns[..|ns| - 1]) + ns[|ns| - 1]
  }

  function FloorOf(share: real): (f: int) { if share.Floor > 0 then share.Floor else 0 }

  function Floors(shares: seq<real>): (fs: seq<int>)
    ensures |fs| == |shares|
    ensures forall i :: 0 <= i < |shares| ==> fs[i] == FloorOf(shares[i])
  {
    if shares == [] then [] else Floors(shares[..|shares| - 1]) + [FloorOf(shares[|shares| - 1])]
  }

  function RemainderOf(share: real): (r: real) { share - FloorOf(share) as real }

  function Remainders(shares: seq<real>): (rs: seq<real>)
    ensures |rs| == |shares|
    ensures forall i :: 0 <= i < |shares| ==> rs[i] == RemainderOf(shares[i])
  {
    if shares == [] then [] else Remainders(shares[..|shares| - 1]) + [RemainderOf(shares[|shares| - 1])]
  }

  // ---- the order in which leftover pixels are handed out ---------------------------------

  /** Larger remainders come first, ties by position. */
  predicate Before(rs: seq<real>, i: nat, j: nat)
    requires i < |rs| && j < |rs|
  {
    rs[i] > rs[j] || (rs[i] == rs[j] && i < j)
  }

  /** Every element is an index below `n`. */
  predicate Points(order: seq<nat>, n: nat) {
    forall k :: 0 <= k < |order| ==> order[k] < n
  }

  function Insert(rs: seq<real>, i: nat, order: seq<nat>): (r: seq<nat>)
    requires i < |rs| && Points(order, |rs|)
    ensures |r| == |order| + 1 && Points(r, |rs|)
    decreases |order|
  {
    if order == [] then [i]
    else
      var k := |order| - 1;
      if Before(rs, i, order[k]) then Insert(rs, i, order[..k]) + [order[k]] else order + [i]
  }

  predicate Ordered(rs: seq<real>, order: seq<nat>)
    requires Points(order, |rs|)
  {
    forall a, b :: 0 <= a < b < |order| ==> Before(rs, order[a], order[b])
  }

  lemma {:induction false} InsertMembers(rs: seq<real>, i: nat, order: seq<nat>)
    requires i < |rs| && Points(order, |rs|)
    ensures forall x :: x in Insert(rs, i, order) <==> x == i || x in order
    decreases |order|
  {
    if order != [] {
      var k := |order| - 1;
      assert order == order[..k] + [order[k]];
      if Before(rs, i, order[k]) {
        InsertMembers(rs, i, order[..k]);
      }
    }
  }

  lemma {:induction false} InsertOrdered(rs: seq<real>, i: nat, order: seq<nat>)
    requires i < |rs| && Points(order, |rs|) && Ordered(rs, order) && i !in order
    ensures Ordered(rs, Insert(rs, i, order))
    decreases |order|
  {
    if order != [] {
      var k := |order| - 1;
      if Before(rs, i, order[k]) {
        InsertOrdered(rs, i, order[..k]);
        InsertMembers(rs, i, order[..k]);
        var r := Insert(rs, i, order[..k]);
        forall a | 0 <= a < |r| ensures Before(rs, r[a], order[k]) {
          assert r[a] in r;
        }
      }
    }
  }

  /** The first `n` indices in handing-out order. */
  function Order(rs: seq<real>, n: nat): (order: seq<nat>)
    requires n <= |rs|
    ensures |order| == n && Points(order, |rs|)
  {
    if n == 0 then [] else Insert(rs, n - 1, Order(rs, n - 1))
  }

  lemma {:induction false} OrderOrdered(rs: seq<real>, n: nat)
    requires n <= |rs|
    ensures Ordered(rs, Order(rs, n))
    ensures forall x: nat :: x in Order(rs, n) <==> x < n
  {
    if n > 0 {
      OrderOrdered(rs, n - 1);
      InsertMembers(rs, n - 1, Order(rs, n - 1));
      InsertOrdered(rs, n - 1, Order(rs, n - 1));
    }
  }

  /** An ordered list names no index twice. */
  lemma OrderedDistinct(rs: seq<real>, order: seq<nat>, a: nat, b: nat)
    requires Points(order, |rs|) && Ordered(rs, order) && a < |order| && b < |order| && order[a] == order[b]
    ensures a == b
  {}

  /** Hands `left` pixels out, starting at place `k` and going round. */
  function Hand(parts: seq<int>, order: seq<nat>, k: nat, left: nat): (r: seq<int>)
    requires |order| == |parts| > 0 && Points(order, |parts|)
    ensures |r| == |parts|
    decreases left
  {
    if left == 0 then parts
    else
      var i := order[k % |order|];
      Hand(parts[i := parts[i] + 1], order, k + 1, left - 1)
  }

  /** The floors, and what is missing to the total handed out by remainder. */
  function Allot(total: int, floors: seq<int>, rs: seq<real>): (parts: seq<int>)
    requires |rs| == |floors|
    ensures |parts| == |floors|
  {
    var left := total - Sum(floors);
    if left <= 0 || floors == [] then floors else Hand(floors, Order(rs, |rs|), 0, left)
  }

  /** The parts for shares already computed. */
  function Distribute(total: int, shares: seq<real>): (parts: seq<int>)
    ensures |parts| == |shares|
  {
    Allot(total, Floors(shares), Remainders(shares))
  }

  // ---- what handing out achieves -------------------------------------------------------------

  lemma {:induction false} SumUpdate(ns: seq<int>, i: nat, v: int)
    requires i < |ns|
    ensures Sum(ns[i := v]) == Sum(ns) + v - ns[i]
  {
    var k := |ns| - 1;
    if i == k {
      assert ns[i := v][..k] == ns[..k];
    } else {
      SumUpdate(ns[..k], i, v);
      assert ns[i := v][..k] == ns[..k][i := v];
    }
  }

  lemma {:induction false} HandSum(parts: seq<int>, order: seq<nat>, k: nat, left: nat)
    requires |order| == |parts| > 0 && Points(order, |parts|)
    ensures Sum(Hand(parts, order, k, left)) == Sum(parts) + left
    decreases left
  {
    if left > 0 {
      var i := order[k % |order|];
      SumUpdate(parts, i, parts[i] + 1);
      HandSum(parts[i := parts[i] + 1], order, k + 1, left - 1);
    }
  }

  lemma SmallMod(k: nat, n: nat)
    requires k < n
    ensures k % n == k
  {}

  /** Within one round each place from `k` on gets one. */
  lemma {:induction false} HandOnce(rs: seq<real>, parts: seq<int>, order: seq<nat>, k: nat, left: nat, p: nat)
    requires |order| == |parts| == |rs| > 0 && Points(order, |rs|) && Ordered(rs, order)
    requires k + left <= |order| && p < |order|
    ensures Hand(parts, order, k, left)[order[p]] == parts[order[p]] + if k <= p < k + left then 1 else 0
    decreases left
  {
    if left > 0 {
      SmallMod(k, |order|);
      var more := parts[order[k] := parts[order[k]] + 1];
      assert Hand(parts, order, k, left) == Hand(more, order, k + 1, left - 1);
      HandOnce(rs, more, order, k + 1, left - 1, p);
      assert more[order[p]] == parts[order[p]] + if p == k then 1 else 0 by {
        if order[p] == order[k] {
          OrderedDistinct(rs, order, p, k);
        }
      }
    }
  }

  lemma AllotSum(total: int, floors: seq<int>, rs: seq<real>)
    requires |rs| == |floors| > 0
    ensures Sum(Allot(total, floors, rs)) == if Sum(floors) <= total then total else Sum(floors)
  {
    var left := total - Sum(floors);
    if left > 0 {
      HandSum(floors, Order(rs, |rs|), 0, left);
    }
  }

  /** The sum is exact unless the floors alone already exceed the total. */
  lemma DistributeSum(total: int, shares: seq<real>)
    requires shares != []
    ensures Sum(Distribute(total, shares)) == total <==> Sum(Floors(shares)) <= total
  {
    AllotSum(total, Floors(shares), Remainders(shares));
  }

  /** Each part is its floor or one more, and the ones that got more have the larger remainders. */
  predicate Fair(floors: seq<int>, rs: seq<real>, parts: seq<int>) {
    && |parts| == |floors| == |rs|
    && (forall i :: 0 <= i < |parts| ==> parts[i] == floors[i] || parts[i] == floors[i] + 1)
    && (forall i, j :: 0 <= i < |parts| && 0 <= j < |parts| && parts[i] > floors[i] && parts[j] == floors[j] ==> Before(rs, i, j))
  }

  /** Where an index stands in the order, and what it gets for it. */
  lemma PlaceOf(total: int, floors: seq<int>, rs: seq<real>, i: nat) returns (p: nat)
    requires i < |rs| == |floors| && 0 <= total - Sum(floors) <= |floors|
    ensures p < |rs| && Order(rs, |rs|)[p] == i
    ensures Allot(total, floors, rs)[i] == floors[i] + if p < total - Sum(floors) then 1 else 0
  {
    var order, left := Order(rs, |rs|), total - Sum(floors);
    OrderOrdered(rs, |rs|);
    assert i in order;
    p :| 0 <= p < |order| && order[p] == i;
    if left > 0 {
      HandOnce(rs, floors, order, 0, left, p);
    }
  }

  lemma FairPair(total: int, floors: seq<int>, rs: seq<real>, i: nat, j: nat)
    requires i < |rs| == |floors| && j < |rs| && 0 <= total - Sum(floors) <= |floors|
    requires Allot(total, floors, rs)[i] > floors[i] && Allot(total, floors, rs)[j] == floors[j]
    ensures Before(rs, i, j)
  {
    var p := PlaceOf(total, floors, rs, i);
    var q := PlaceOf(total, floors, rs, j);
    OrderOrdered(rs, |rs|);
    assert Before(rs, Order(rs, |rs|)[p], Order(rs, |rs|)[q]);
  }

  lemma AllotFair(total: int, floors: seq<int>, rs: seq<real>)
    requires |rs| == |floors| && 0 <= total - Sum(floors) <= |floors|
    ensures Fair(floors, rs, Allot(total, floors, rs))
  {
    var parts := Allot(total, floors, rs);
    forall i | 0 <= i < |parts| ensures parts[i] == floors[i] || parts[i] == floors[i] + 1 {
      var _ := PlaceOf(total, floors, rs, i);
    }
    forall i, j | 0 <= i < |parts| && 0 <= j < |parts| && parts[i] > floors[i] && parts[j] == floors[j] ensures Before(rs, i, j) {
      FairPair(total, floors, rs, i, j);
    }
  }

  /** With at most one pixel per part to hand out, those with the largest remainders get it. */
  predicate LargestRemainder(total: int, shares: seq<real>, parts: seq<int>) {
    Sum(parts) == total && Fair(Floors(shares), Remainders(shares), parts)
  }

  lemma DistributeFair(total: int, shares: seq<real>)
    requires shares != [] && 0 <= total - Sum(Floors(shares)) <= |shares|
    ensures LargestRemainder(total, shares, Distribute(total, shares))
  {
    AllotSum(total, Floors(shares), Remainders(shares));
    AllotFair(total, Floors(shares), Remainders(shares));
  }

  predicate NonNegative(xs: seq<real>) { forall i :: 0 <= i < |xs| ==> xs[i] >= 0.0 }

  lemma {:induction false} FloorsAndRemainders(shares: seq<real>)
    ensures Total(shares) == Sum(Floors(shares)) as real + Total(Remainders(shares))
  {
    if shares != [] {
      var k := |shares| - 1;
      FloorsAndRemainders(shares[..k]);
      assert Floors(shares)[..k] == Floors(shares[..k]);
      assert Remainders(shares)[..k] == Remainders(shares[..k]);
    }
  }

  lemma {:induction false} FractionsSmall(xs: seq<real>)
    requires forall i :: 0 <= i < |xs| ==> 0.0 <= xs[i] < 1.0
    ensures 0.0 <= Total(xs) <= |xs| as real && (xs != [] ==> Total(xs) < |xs| as real)
  {
    if xs != [] {
      var k := |xs| - 1;
      FractionsSmall(xs[..k]);
      assert |xs| as real == k as real + 1.0;
    }
  }

  lemma RemainderSmall(share: real)
    requires share >= 0.0
    ensures 0.0 <= RemainderOf(share) < 1.0
  {}

  lemma RemaindersSmall(shares: seq<real>)
    requires NonNegative(shares)
    ensures forall i :: 0 <= i < |shares| ==> 0.0 <= Remainders(shares)[i] < 1.0
    ensures 0.0 <= Total(Remainders(shares)) <= |shares| as real
    ensures shares != [] ==> Total(Remainders(shares)) < |shares| as real
  {
    forall i | 0 <= i < |shares| ensures 0.0 <= Remainders(shares)[i] < 1.0 {
      RemainderSmall(shares[i]);
    }
    FractionsSmall(Remainders(shares));
  }

  lemma FloorsBelow(total: nat, shares: seq<real>)
    requires shares != [] && NonNegative(shares) && -1.0 < Total(shares) - total as real < 1.0
    ensures 0 <= total - Sum(Floors(shares)) <= |shares|
  {
    FloorsAndRemainders(shares);
    RemaindersSmall(shares);
    var f := Sum(Floors(shares));
    assert (f - total) as real == f as real - total as real;
    assert (f - total) as real < 1.0;
    assert (total - f) as real < 1.0 + |shares| as real;
  }

  /** For any non-negative shares that add up to within one of the total, however they were rounded,
      the parts add up exactly and each is the floor of its share or one more. */
  lemma RoundedSharesSuffice(total: nat, shares: seq<real>)
    requires shares != [] && NonNegative(shares)
    requires -1.0 < Total(shares) - total as real < 1.0
    ensures LargestRemainder(total, shares, Distribute(total, shares))
  {
    FloorsBelow(total, shares);
    DistributeFair(total, shares);
  }

  // ---- exact arithmetic --------------------------------------------------------------------

  function Clips(ws: seq<Weight>): (cs: seq<real>)
    ensures |cs| == |ws| && NonNegative(cs)
    ensures forall i :: 0 <= i < |ws| ==> cs[i] == Clipped(ws[i])
  {
    if ws == [] then [] else Clips(ws[..|ws| - 1]) + [Clipped(ws[|ws| - 1])]
  }

  function Ones(n: nat): (cs: seq<real>)
    ensures |cs| == n && NonNegative(cs)
    ensures forall i :: 0 <= i < n ==> cs[i] == 1.0
  {
    if n == 0 then [] else Ones(n - 1) + [1.0]
  }

  function Share(total: int, c: real, sum: real): (x: real)
    requires sum != 0.0
  {
    total as real * c / sum
  }

  /** Each weight's part of `total`, when `sum` is what the weights add up to. */
  function Scale(total: int, cs: seq<real>, sum: real): (xs: seq<real>)
    requires sum != 0.0
    ensures |xs| == |cs|
    ensures forall i :: 0 <= i < |cs| ==> xs[i] == Share(total, cs[i], sum)
  {
    if cs == [] then [] else Scale(total, cs[..|cs| - 1], sum) + [Share(total, cs[|cs| - 1], sum)]
  }

  /** The weights that count: all equal when none is positive. */
  function Effective(ws: seq<Weight>): (cs: seq<real>)
    ensures |cs| == |ws| && NonNegative(cs)
  {
    if Total(Clips(ws)) <= 0.0 then Ones(|ws|) else Clips(ws)
  }

  lemma {:induction false} OnesPositive(n: nat)
    ensures Total(Ones(n)) == n as real
  {
    if n > 0 {
      OnesPositive(n - 1);
      assert Ones(n)[..n - 1] == Ones(n - 1);
    }
  }

  lemma EffectivePositive(ws: seq<Weight>)
    requires ws != []
    ensures Total(Effective(ws)) > 0.0
  {
    OnesPositive(|ws|);
  }

  function SharesOf(total: int, ws: seq<Weight>): (xs: seq<real>)
    requires ws != []
    ensures |xs| == |ws|
  {
    EffectivePositive(ws);
    Scale(total, Effective(ws), Total(Effective(ws)))
  }

  function Zeros(n: nat): (zs: seq<int>)
    ensures |zs| == n
    ensures forall i :: 0 <= i < n ==> zs[i] == 0
  {
    if n == 0 then [] else Zeros(n - 1) + [0]
  }

  /** What the source calls `partition`. */
  function Split(total: int, ws: seq<Weight>): (parts: seq<int>)
    ensures |parts| == |ws|
  {
    if ws == [] then []
    else if total <= 0 then Zeros(|ws|)
    else Distribute(total, SharesOf(total, ws))
  }

  lemma Spread(a: real, b: real, k: real)
    ensures (a + b) * k == a * k + b * k
  {}

  predicate Proportional(x: real, c: real, t: real, sum: real) { x * sum == c * t }

  predicate Scaled(cs: seq<real>, xs: seq<real>, t: real, sum: real) {
    |xs| == |cs| && forall i :: 0 <= i < |xs| ==> Proportional(xs[i], cs[i], t, sum)
  }

  lemma ProportionalSum(x: real, c: real, x': real, c': real, t: real, sum: real)
    requires Proportional(x, c, t, sum) && Proportional(x', c', t, sum)
    ensures Proportional(x + x', c + c', t, sum)
  {
    Spread(x, x', sum);
    Spread(c, c', t);
  }

  lemma {:induction false} ScaledTotal(cs: seq<real>, xs: seq<real>, t: real, sum: real)
    requires Scaled(cs, xs, t, sum)
    ensures Proportional(Total(xs), Total(cs), t, sum)
  {
    if xs != [] {
      var k := |xs| - 1;
      ScaledTotal(cs[..k], xs[..k], t, sum);
      ProportionalSum(Total(xs[..k]), Total(cs[..k]), xs[k], cs[k], t, sum);
    }
  }

  lemma ShareScaled(total: int, c: real, sum: real)
    requires sum > 0.0
    ensures Proportional(Share(total, c, sum), c, total as real, sum)
    ensures total >= 0 && c >= 0.0 ==> Share(total, c, sum) >= 0.0
  {}

  lemma Cancel(x: real, t: real, sum: real)
    requires sum > 0.0 && Proportional(x, sum, t, sum)
    ensures x == t
  {
    assert (x - t) * sum == 0.0;
  }

  lemma ScaleExact(total: int, cs: seq<real>, sum: real)
    requires sum > 0.0 && Total(cs) == sum && NonNegative(cs) && total >= 0
    ensures NonNegative(Scale(total, cs, sum)) && Total(Scale(total, cs, sum)) == total as real
  {
    var xs := Scale(total, cs, sum);
    forall i | 0 <= i < |xs| ensures Proportional(xs[i], cs[i], total as real, sum) && xs[i] >= 0.0 {
      ShareScaled(total, cs[i], sum);
    }
    ScaledTotal(cs, xs, total as real, sum);
    Cancel(Total(xs), total as real, sum);
  }

  lemma SharesExact(total: nat, ws: seq<Weight>)
    requires ws != []
    ensures NonNegative(SharesOf(total, ws)) && Total(SharesOf(total, ws)) == total as real
  {
    EffectivePositive(ws);
    ScaleExact(total, Effective(ws), Total(Effective(ws)));
  }

  lemma {:induction false} SumZeros(n: nat)
    ensures Sum(Zeros(n)) == 0
  {
    if n > 0 {
      SumZeros(n - 1);
      assert Zeros(n)[..n - 1] == Zeros(n - 1);
    }
  }

  /** The parts are non-negative and add up exactly, whatever the weights; a positive total is split
      by the largest-remainder rule. */
  lemma SplitExact(total: int, ws: seq<Weight>)
    requires ws != []
    ensures Sum(Split(total, ws)) == if total <= 0 then 0 else total
    ensures forall i :: 0 <= i < |ws| ==> Split(total, ws)[i] >= 0
    ensures total > 0 ==> LargestRemainder(total, SharesOf(total, ws), Split(total, ws))
  {
    if total <= 0 {
      SumZeros(|ws|);
    } else {
      SharesExact(total, ws);
      RoundedSharesSuffice(total, SharesOf(total, ws));
    }
  }

  lemma SameEffective(ws: seq<Weight>, i: nat, j: nat)
    requires i < |ws| && j < |ws| && Clipped(ws[i]) == Clipped(ws[j])
    ensures Effective(ws)[i] == Effective(ws)[j]
  {
    assert Clips(ws)[i] == Clips(ws)[j] && Ones(|ws|)[i] == Ones(|ws|)[j];
  }

  /** Equal weights get parts that differ by at most one. */
  lemma EqualWeights(total: int, ws: seq<Weight>, i: nat, j: nat)
    requires i < |ws| && j < |ws| && Effective(ws)[i] == Effective(ws)[j]
    ensures -1 <= Split(total, ws)[i] - Split(total, ws)[j] <= 1
  {
    SplitExact(total, ws);
    if total > 0 {
      var shares := SharesOf(total, ws);
      SameFloor(Floors(shares), Remainders(shares), Split(total, ws), i, j);
    }
  }

  lemma SameFloor(floors: seq<int>, rs: seq<real>, parts: seq<int>, i: nat, j: nat)
    requires Fair(floors, rs, parts) && i < |floors| && j < |floors| && floors[i] == floors[j]
    ensures -1 <= parts[i] - parts[j] <= 1
  {}

  // ---- a zero weight gets nothing while another is positive ------------------------------------

  function Positive(rs: seq<real>): (ps: set<nat>) {
    set i: nat | i < |rs| && rs[i] > 0.0
  }

  lemma {:induction false} PositiveCount(rs: seq<real>)
    requires forall i :: 0 <= i < |rs| ==> 0.0 <= rs[i] < 1.0
    ensures Total(rs) <= |Positive(rs)| as real
  {
    if rs != [] {
      var k := |rs| - 1;
      PositiveCount(rs[..k]);
      if rs[k] > 0.0 {
        assert Positive(rs) == Positive(rs[..k]) + {k};
        assert |Positive(rs)| == |Positive(rs[..k])| + 1;
      } else {
        assert Positive(rs) == Positive(rs[..k]);
      }
    } else {
      assert Positive(rs) == {};
    }
  }

  lemma {:induction false} PrefixSize(order: seq<nat>, ps: set<nat>)
    requires forall x :: x in ps ==> x in order
    ensures |ps| <= |order|
  {
    if order == [] {
      assert ps == {};
    } else {
      var k := |order| - 1;
      assert order == order[..k] + [order[k]];
      PrefixSize(order[..k], ps - {order[k]});
    }
  }

  /** Whoever stands before the end of the handing out has a positive remainder. */
  lemma ServedIsPositive(rs: seq<real>, p: nat)
    requires forall i :: 0 <= i < |rs| ==> 0.0 <= rs[i] < 1.0
    requires p < |rs| && p as real < Total(rs)
    ensures rs[Order(rs, |rs|)[p]] > 0.0
  {
    var order := Order(rs, |rs|);
    OrderOrdered(rs, |rs|);
    PositiveCount(rs);
    if rs[order[p]] == 0.0 {
      forall x | x in Positive(rs) ensures x in order[..p] {
        assert x in order;
        var q :| 0 <= q < |order| && order[q] == x;
        assert q < p;
        assert order[..p][q] == x;
      }
      PrefixSize(order[..p], Positive(rs));
    }
  }

  lemma ZeroShareStaysZero(total: int, floors: seq<int>, rs: seq<real>, i: nat)
    requires |rs| == |floors| && i < |rs| && rs[i] == 0.0
    requires forall k :: 0 <= k < |rs| ==> 0.0 <= rs[k] < 1.0
    requires (total - Sum(floors)) as real == Total(rs)
    ensures Allot(total, floors, rs)[i] == floors[i]
  {
    FractionsSmall(rs);
    var p := PlaceOf(total, floors, rs, i);
    if p < total - Sum(floors) {
      ServedIsPositive(rs, p);
    }
  }

  lemma ZeroShare(total: int, sum: real)
    requires sum > 0.0
    ensures Share(total, 0.0, sum) == 0.0
  {}

  /** A weight of zero, or a NaN one, gets nothing when some other weight is positive. */
  lemma ZeroWeightGetsNothing(total: int, ws: seq<Weight>, i: nat)
    requires i < |ws| && Clipped(ws[i]) == 0.0 && Total(Clips(ws)) > 0.0
    ensures Split(total, ws)[i] == 0
  {
    if total > 0 {
      var shares := SharesOf(total, ws);
      SharesExact(total, ws);
      FloorsAndRemainders(shares);
      RemaindersSmall(shares);
      ZeroShare(total, Total(Effective(ws)));
      ZeroShareStaysZero(total, Floors(shares), Remainders(shares), i);
    }
  }

  // ---- the loops ---------------------------------------------------------------------------------

  lemma HandNext(parts: seq<int>, order: seq<nat>, k: nat, left: nat)
    requires |order| == |parts| > 0 && Points(order, |parts|) && left > 0
    ensures Hand(parts, order, k, left) ==
            Hand(parts[order[k % |order|] := parts[order[k % |order|]] + 1], order, k + 1, left - 1)
  {}

  /** `partition` as the source runs it: floor every share, then hand out what is left. */
  method PartitionLoop(total: int, weights: seq<Weight>) returns (parts: seq<int>)
    ensures parts == Split(total, weights)
  {
    if weights == [] {
      return [];
    }
    if total <= 0 {
      return Zeros(|weights|);
    }
    var sum := 0.0;
    for i := 0 to |weights|
      invariant sum == Total(Clips(weights)[..i])
    {
      assert Clips(weights)[..i + 1][..i] == Clips(weights)[..i];
      sum := sum + Clipped(weights[i]);
    }
    assert Clips(weights)[..|weights|] == Clips(weights);
    var effective := Clips(weights);
    if sum <= 0.0 {
      effective := Ones(|weights|);
      OnesPositive(|weights|);
      sum := |weights| as real;
    }
    assert effective == Effective(weights) && sum == Total(effective) > 0.0;
    parts := AllotLoop(total, effective, sum);
  }

  method AllotLoop(total: int, effective: seq<real>, sum: real) returns (parts: seq<int>)
    requires effective != [] && sum > 0.0
    ensures parts == Distribute(total, Scale(total, effective, sum))
  {
    var floors, remainders, given := FloorLoop(total, effective, sum);
    parts := HandLoop(total - given, floors, Order(remainders, |remainders|));
  }

  method FloorLoop(total: int, effective: seq<real>, sum: real)
    returns (floors: seq<int>, remainders: seq<real>, given: int)
    requires sum > 0.0
    ensures floors == Floors(Scale(total, effective, sum)) && remainders == Remainders(Scale(total, effective, sum))
    ensures given == Sum(floors)
  {
    floors, remainders, given := [], [], 0;
    for i := 0 to |effective|
      invariant |floors| == |remainders| == i
      invariant forall k :: 0 <= k < i ==> floors[k] == FloorOf(Share(total, effective[k], sum))
      invariant forall k :: 0 <= k < i ==> remainders[k] == RemainderOf(Share(total, effective[k], sum))
      invariant given == Sum(floors)
    {
      var exact := Share(total, effective[i], sum);
      var floor := FloorOf(exact);
      SumPush(floors, floor);
      floors, remainders, given := floors + [floor], remainders + [exact - floor as real], given + floor;
    }
  }

  lemma SumPush(ns: seq<int>, n: int)
    ensures Sum(ns + [n]) == Sum(ns) + n
  {
    assert (ns + [n])[..|ns|] == ns;
  }

  method HandLoop(extra: int, floors: seq<int>, order: seq<nat>) returns (parts: seq<int>)
    requires |order| == |floors| > 0 && Points(order, |floors|)
    ensures parts == if extra <= 0 then floors else Hand(floors, order, 0, extra)
  {
    var leftover := extra;
    parts := floors;
    var i := 0;
    while leftover > 0
      invariant i >= 0 && |parts| == |order| && Points(order, |parts|)
      invariant extra <= 0 ==> parts == floors && leftover == extra
      invariant extra > 0 ==> leftover >= 0 && Hand(parts, order, i, leftover) == Hand(floors, order, 0, extra)
      decreases leftover
    {
      HandNext(parts, order, i, leftover);
      var k := order[i % |order|];
      parts := parts[k := parts[k] + 1];
      leftover := leftover - 1;
      i := i + 1;
    }
  }
}
