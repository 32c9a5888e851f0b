/** Which variant a contact is mailed (service/execution.py, _assign_variant). Weights are exact reals. */
module Split {
  import opened Types

  const BUCKETS: nat := 10_000

  /** The variant split of a wave: a weight per variant id. */
  type Weights = map<Id, real>

  /** The hash of a contact id, modulo the bucket count; the hash itself is taken as the id. */
  function BucketOf(contact: Id): (b: nat)
    ensures b < BUCKETS
  {
    contact % BUCKETS
  }

  function InOrder(split: Weights, ids: seq<Id>): seq<real>
    requires forall id :: id in ids ==> id in split
  {
    if ids == [] then [] else [split[ids[0]]] + InOrder(split, ids[1..])
  }

  lemma {:induction false} InOrderAt(split: Weights, ids: seq<Id>)
    requires forall id :: id in ids ==> id in split
    ensures |InOrder(split, ids)| == |ids|
    ensures forall i :: 0 <= i < |ids| ==> InOrder(split, ids)[i] == split[ids[i]]
  {
    if ids != [] {
      InOrderAt(split, ids[1..]);
    }
  }

  /** The running sum of the first n weights. */
  function Cumulative(weights: seq<real>, n: nat): real
    requires n <= |weights|
  {
    if n == 0 then 0.0 else Cumulative(weights, n - 1) + weights[n - 1]
  }

  function Total(weights: seq<real>): real {
    Cumulative(weights, |weights|)
  }

  /** Where a bucket lies on the line of running sums. */
  function Point(bucket: nat, total: real): real {
    bucket as real / BUCKETS as real * total
  }

  /** The first place at which the running sum passes the point; the last place if none does. */
  function FirstPast(weights: seq<real>, point: real, i: nat): (r: nat)
    requires i <= |weights| && weights != []
    ensures r < |weights|
    decreases |weights| - i
  {
    if i == |weights| then |weights| - 1
    else if point < Cumulative(weights, i + 1) then i
    else FirstPast(weights, point, i + 1)
  }

  function PickIndex(weights: seq<real>, bucket: nat): (r: nat)
    requires weights != []
    ensures r < |weights|
  {
    if Total(weights) <= 0.0 then 0 else FirstPast(weights, Point(bucket, Total(weights)), 0)
  }

  /** The variant of a contact; None where the empty split makes the code fail. */
  function VariantOf(split: Weights, contact: Id): (r: Option<Id>)
    ensures r.None? <==> split == map[]
    ensures r.Some? ==> r.value in split
  {
    VariantAt(split, BucketOf(contact))
  }

  function VariantAt(split: Weights, bucket: nat): (r: Option<Id>)
    ensures r.None? <==> split == map[]
    ensures r.Some? ==> r.value in split
  {
    if split == map[] then None else
    var ids := Ascending(split.Keys);
    InOrderAt(split, ids);
    assert forall i :: 0 <= i < |ids| ==> ids[i] in ids;
    assert |split.Keys| > 0 by { assert exists k :: k in split.Keys; }
    Some(ids[PickIndex(InOrder(split, ids), bucket)])
  }

  /** The scan with its running sum, over the variants in id order. */
  method Scan(split: Weights, ids: seq<Id>, bucket: nat) returns (pick: nat)
    requires ids != [] && forall id :: id in ids ==> id in split
    ensures InOrder(split, ids) != [] && pick == PickIndex(InOrder(split, ids), bucket)
    ensures pick < |ids|
  {
    InOrderAt(split, ids);
    ghost var weights := InOrder(split, ids);
    var total := 0.0;
    var i := 0;
    while i < |ids|
      invariant 0 <= i <= |ids| && total == Cumulative(weights, i)
    {
      total := total + split[ids[i]];
      i := i + 1;
    }
    if total <= 0.0 {
      return 0;
    }
    var point := Point(bucket, total);
    var cumulative := 0.0;
    i := 0;
    while i < |ids|
      invariant 0 <= i <= |ids| && cumulative == Cumulative(weights, i)
      invariant FirstPast(weights, point, 0) == FirstPast(weights, point, i)
    {
      cumulative := cumulative + split[ids[i]];
      if point < cumulative {
        return i;
      }
      i := i + 1;
    }
    return |ids| - 1;
  }

  /** _assign_variant. */
  method AssignVariant(split: Weights, contact: Id) returns (r: Option<Id>)
    ensures r == VariantOf(split, contact)
  {
    if split == map[] {
      return None;
    }
    var ids := Ascending(split.Keys);
    assert |split.Keys| > 0 by { assert exists k :: k in split.Keys; }
    var pick := Scan(split, ids, BucketOf(contact));
    VariantIndex(split, BucketOf(contact), pick);
    return Some(ids[pick]);
  }

  // Fairness, for non-negative weights with a positive total.

  ghost predicate IsFairSplit(weights: seq<real>) {
    weights != [] && Total(weights) > 0.0 && forall i :: 0 <= i < |weights| ==> weights[i] >= 0.0
  }

  lemma {:induction false} CumulativeGrows(weights: seq<real>, i: nat, j: nat)
    requires IsFairSplit(weights) && i <= j <= |weights|
    ensures 0.0 <= Cumulative(weights, i) <= Cumulative(weights, j)
  {
    if i < j {
      CumulativeGrows(weights, i, j - 1);
    } else if j > 0 {
      CumulativeGrows(weights, i - 1, j - 1);
    }
  }

  /** The pick is the one whose stretch of the line the point lies in. */
  lemma {:induction false} PickIsStretch(weights: seq<real>, point: real, from: nat, i: nat)
    requires IsFairSplit(weights) && from <= i < |weights|
    requires Cumulative(weights, from) <= point < Total(weights)
    ensures FirstPast(weights, point, from) == i <==> Cumulative(weights, i) <= point < Cumulative(weights, i + 1)
    decreases |weights| - from
  {
    if point < Cumulative(weights, from + 1) {
      if i > from {
        CumulativeGrows(weights, from + 1, i);
      }
    } else {
      FirstPastIsLater(weights, point, from + 1);
      if i > from {
        PickIsStretch(weights, point, from + 1, i);
      }
    }
  }

  lemma {:induction false} FirstPastIsLater(weights: seq<real>, point: real, from: nat)
    requires weights != [] && from <= |weights|
    ensures FirstPast(weights, point, from) >= from || from == |weights|
    decreases |weights| - from
  {
    if from < |weights| && point >= Cumulative(weights, from + 1) && from + 1 < |weights| {
      FirstPastIsLater(weights, point, from + 1);
    }
  }

  /** How many whole numbers from zero up lie strictly below x. */
  function Ceiling(x: real): int {
    -((-x).Floor)
  }

  /** Where the first n weights end, in buckets. */
  function Edge(weights: seq<real>, n: nat): real
    requires n <= |weights| && Total(weights) != 0.0
  {
    BUCKETS as real * Cumulative(weights, n) / Total(weights)
  }

  lemma {:induction false} PointBelowEdge(bucket: nat, total: real, sum: real)
    requires total > 0.0
    ensures Point(bucket, total) < sum <==> bucket < Ceiling(BUCKETS as real * sum / total)
  {
    var edge := BUCKETS as real * sum / total;
    assert edge * total == BUCKETS as real * sum;
    assert Point(bucket, total) * BUCKETS as real == bucket as real * total;
    assert Point(bucket, total) < sum <==> bucket as real * total < edge * total;
    assert bucket as real * total < edge * total <==> bucket as real < edge;
  }

  function BucketsOf(weights: seq<real>, i: nat): set<nat>
    requires weights != []
  {
    set bucket: nat | bucket < BUCKETS && PickIndex(weights, bucket) == i
  }

  predicate Between(b: nat, from: int, to: int) {
    from <= b < to
  }

  function Interval(from: int, to: int): set<nat>
    requires 0 <= from <= to
  {
    set b: nat | b < to && Between(b, from, to)
  }

  lemma {:induction false} IntervalSize(from: int, to: int)
    requires 0 <= from <= to
    ensures |Interval(from, to)| == to - from
  {
    if from < to {
      IntervalSize(from, to - 1);
      assert Interval(from, to) == Interval(from, to - 1) + {to - 1};
    }
  }

  lemma {:induction false} EdgesOrdered(weights: seq<real>, i: nat)
    requires IsFairSplit(weights) && i < |weights|
    ensures 0 <= Ceiling(Edge(weights, i)) <= Ceiling(Edge(weights, i + 1)) <= BUCKETS
  {
    CumulativeGrows(weights, i, i + 1);
    CumulativeGrows(weights, i + 1, |weights|);
    var total := Total(weights);
    Scaled(total, 0.0, Cumulative(weights, i));
    Scaled(total, Cumulative(weights, i), Cumulative(weights, i + 1));
    Scaled(total, Cumulative(weights, i + 1), total);
  }

  lemma {:induction false} Scaled(total: real, a: real, b: real)
    requires total > 0.0 && a <= b
    ensures BUCKETS as real * a / total <= BUCKETS as real * b / total
    ensures BUCKETS as real * 0.0 / total == 0.0 && BUCKETS as real * total / total == BUCKETS as real
  {
  }

  /** A variant's buckets are one stretch, from its lower edge to its upper one. */
  lemma {:induction false} BucketsAreInterval(weights: seq<real>, i: nat)
    requires IsFairSplit(weights) && i < |weights|
    ensures 0 <= Ceiling(Edge(weights, i)) <= Ceiling(Edge(weights, i + 1)) <= BUCKETS
    ensures BucketsOf(weights, i) == Interval(Ceiling(Edge(weights, i)), Ceiling(Edge(weights, i + 1)))
  {
    EdgesOrdered(weights, i);
    var total := Total(weights);
    forall bucket: nat
      ensures bucket in BucketsOf(weights, i) <==> bucket in Interval(Ceiling(Edge(weights, i)), Ceiling(Edge(weights, i + 1)))
    {
      if bucket < BUCKETS {
        PointInLine(bucket, total);
        PickIsStretch(weights, Point(bucket, total), 0, i);
        PointBelowEdge(bucket, total, Cumulative(weights, i));
        PointBelowEdge(bucket, total, Cumulative(weights, i + 1));
      }
    }
  }

  lemma {:induction false} PointInLine(bucket: nat, total: real)
    requires bucket < BUCKETS && total > 0.0
    ensures 0.0 <= Point(bucket, total) < total
  {
    ScaledDown(bucket as real / BUCKETS as real, total);
  }

  lemma {:induction false} ScaledDown(part: real, total: real)
    requires 0.0 <= part < 1.0 && total > 0.0
    ensures 0.0 <= part * total < total
  {
    assert (1.0 - part) * total > 0.0;
  }

  /** Each variant's share of the buckets is within one bucket of its exact share of the weight, and a
      variant of weight zero gets none. */
  lemma {:induction false} SharesAreFair(weights: seq<real>, i: nat)
    requires IsFairSplit(weights) && i < |weights|
    ensures var exact := BUCKETS as real * weights[i] / Total(weights);
            exact - 1.0 < |BucketsOf(weights, i)| as real < exact + 1.0
    ensures weights[i] == 0.0 ==> BucketsOf(weights, i) == {}
  {
    BucketsAreInterval(weights, i);
    IntervalSize(Ceiling(Edge(weights, i)), Ceiling(Edge(weights, i + 1)));
    Distribute(Cumulative(weights, i), weights[i], Total(weights));
    CeilingGap(Edge(weights, i), Edge(weights, i + 1));
  }

  /** Rounding both ends of a stretch up moves its length by less than one. */
  lemma {:induction false} CeilingGap(lo: real, hi: real)
    ensures hi - lo - 1.0 < (Ceiling(hi) - Ceiling(lo)) as real < hi - lo + 1.0
  {
  }

  lemma {:induction false} Distribute(a: real, b: real, total: real)
    requires total > 0.0
    ensures BUCKETS as real * (a + b) / total == BUCKETS as real * a / total + BUCKETS as real * b / total
  {
  }

  /** Every contact gets one of the wave's variants, and always the same one. */
  lemma {:induction false} EveryBucketIsSomeones(weights: seq<real>, bucket: nat)
    requires weights != [] && bucket < BUCKETS
    ensures exists i :: 0 <= i < |weights| && bucket in BucketsOf(weights, i)
    ensures forall i, j :: 0 <= i < j < |weights| ==> BucketsOf(weights, i) !! BucketsOf(weights, j)
  {
    assert bucket in BucketsOf(weights, PickIndex(weights, bucket));
  }

  /** The buckets whose contacts are mailed one variant. */
  function MailedBuckets(split: Weights, variant: Id): set<nat> {
    set bucket: nat | bucket < BUCKETS && VariantAt(split, bucket) == Some(variant)
  }

  lemma {:induction false} VariantIndex(split: Weights, bucket: nat, i: nat)
    requires i < |Ascending(split.Keys)|
    ensures var ids := Ascending(split.Keys);
            && |InOrder(split, ids)| == |ids|
            && (VariantAt(split, bucket) == Some(ids[i]) <==> PickIndex(InOrder(split, ids), bucket) == i)
  {
    var ids := Ascending(split.Keys);
    InOrderAt(split, ids);
    assert ids[i] in split;
  }

  lemma {:induction false} PickedAt(split: Weights, bucket: nat, i: nat)
    requires bucket < BUCKETS && i < |Ascending(split.Keys)|
    ensures var ids := Ascending(split.Keys);
            && |InOrder(split, ids)| == |ids|
            && (bucket in MailedBuckets(split, ids[i]) <==> bucket in BucketsOf(InOrder(split, ids), i))
  {
    VariantIndex(split, bucket, i);
  }

  /** The same of a wave's split, whatever the ids of its variants. */
  lemma {:induction false} VariantSharesAreFair(split: Weights, variant: Id)
    requires variant in split
    requires IsFairSplit(InOrder(split, Ascending(split.Keys)))
    ensures var exact := BUCKETS as real * split[variant] / Total(InOrder(split, Ascending(split.Keys)));
            exact - 1.0 < |MailedBuckets(split, variant)| as real < exact + 1.0
    ensures split[variant] == 0.0 ==> MailedBuckets(split, variant) == {}
  {
    var i := PlaceIn(split, Ascending(split.Keys), variant);
    MailedAre(split, i);
    WeightsAreFair(InOrder(split, Ascending(split.Keys)), i, split[variant], MailedBuckets(split, variant));
  }

  lemma {:induction false} WeightsAreFair(weights: seq<real>, i: nat, weight: real, mailed: set<nat>)
    requires IsFairSplit(weights) && i < |weights| && weights[i] == weight && mailed == BucketsOf(weights, i)
    ensures var exact := BUCKETS as real * weight / Total(weights);
            exact - 1.0 < |mailed| as real < exact + 1.0
    ensures weight == 0.0 ==> mailed == {}
  {
    SharesAreFair(weights, i);
  }

  lemma {:induction false} MailedAre(split: Weights, i: nat)
    requires i < |Ascending(split.Keys)| && split != map[]
    ensures InOrder(split, Ascending(split.Keys)) != []
    ensures MailedBuckets(split, Ascending(split.Keys)[i]) == BucketsOf(InOrder(split, Ascending(split.Keys)), i)
  {
    var ids := Ascending(split.Keys);
    PickedAt(split, 0, i);
    forall bucket: nat | bucket < BUCKETS
      ensures bucket in MailedBuckets(split, ids[i]) <==> bucket in BucketsOf(InOrder(split, ids), i)
    {
      PickedAt(split, bucket, i);
    }
  }

  lemma {:induction false} PlaceIn(split: Weights, ids: seq<Id>, variant: Id) returns (i: nat)
    requires variant in ids && forall id :: id in ids ==> id in split
    ensures i < |ids| && ids[i] == variant
    ensures |InOrder(split, ids)| == |ids| && InOrder(split, ids)[i] == split[variant]
  {
    InOrderAt(split, ids);
    i :| 0 <= i < |ids| && ids[i] == variant;
  }

  // The assignment read off the split.

  /** The weight of the variants with ids below n. */
  ghost function WeightBelow(split: Weights, n: nat): real {
    if n == 0 then 0.0 else WeightBelow(split, n - 1) + if n - 1 in split then split[n - 1] else 0.0
  }

  /** All of the split's weight: that below any id past the last. */
  ghost predicate IsWhole(split: Weights, n: nat) {
    forall id :: id in split ==> id < n
  }

  /** The contact's place on the line of weights, in ten-thousandths of the whole, is below the end of this
      variant's stretch. */
  ghost predicate EndsPast(split: Weights, n: nat, contact: Id, variant: Id) {
    (contact % 10_000) as real * WeightBelow(split, n) < 10_000.0 * WeightBelow(split, variant + 1)
  }

  ghost predicate IsFirstOf(split: Weights, variant: Id) {
    variant in split && forall id :: id in split ==> variant <= id
  }

  ghost predicate IsLastOf(split: Weights, variant: Id) {
    variant in split && forall id :: id in split ==> id <= variant
  }

  ghost function EndingPast(split: Weights, n: nat, contact: Id): set<Id> {
    set id | id in split && EndsPast(split, n, contact, id)
  }

  /** The lowest variant whose stretch ends past the contact's place; the last if none does; the first when
      there is no weight to share. */
  ghost predicate IsDealt(split: Weights, n: nat, contact: Id, variant: Id) {
    if WeightBelow(split, n) <= 0.0 then IsFirstOf(split, variant)
    else IsLowestOrLast(split, EndingPast(split, n, contact), variant)
  }

  ghost predicate IsLowestOrLast(split: Weights, ending: set<Id>, variant: Id) {
    if ending == {} then IsLastOf(split, variant) else variant in ending && forall id :: id in ending ==> variant <= id
  }

  lemma {:induction false} NoWeightBetween(split: Weights, from: nat, to: nat)
    requires from <= to && forall id :: id in split ==> id < from || to <= id
    ensures WeightBelow(split, to) == WeightBelow(split, from)
  {
    if from < to {
      NoWeightBetween(split, from, to - 1);
    }
  }

  /** The running sum over the variants in id order is the weight up to the last of them. */
  lemma {:induction false} RunningSum(split: Weights, ids: seq<Id>, i: nat)
    requires IsAscending(ids) && i <= |ids| && forall id :: id in ids <==> id in split
    ensures |InOrder(split, ids)| == |ids|
    ensures Cumulative(InOrder(split, ids), i) == if i == 0 then 0.0 else WeightBelow(split, ids[i - 1] + 1)
  {
    InOrderAt(split, ids);
    if i > 0 {
      RunningSum(split, ids, i - 1);
      var from := if i == 1 then 0 else ids[i - 2] + 1;
      forall id | id in split ensures id < from || ids[i - 1] <= id {
        var k :| 0 <= k < |ids| && ids[k] == id;
      }
      NoWeightBetween(split, from, ids[i - 1]);
    }
  }

  lemma {:induction false} TotalIsWhole(split: Weights, ids: seq<Id>, n: nat)
    requires IsAscending(ids) && ids != [] && (forall id :: id in ids <==> id in split) && IsWhole(split, n)
    ensures |InOrder(split, ids)| == |ids| && Total(InOrder(split, ids)) == WeightBelow(split, n)
  {
    RunningSum(split, ids, |ids|);
    var last := ids[|ids| - 1];
    assert last in split;
    forall id | id in split ensures id < last + 1 {
      var k :| 0 <= k < |ids| && ids[k] == id;
    }
    NoWeightBetween(split, last + 1, n);
  }

  ghost predicate IsPassed(weights: seq<real>, point: real, i: nat) {
    i < |weights| && point < Cumulative(weights, i + 1)
  }

  lemma {:induction false} FirstPastIs(weights: seq<real>, point: real, from: nat, r: nat)
    requires weights != [] && from <= |weights| && r == FirstPast(weights, point, from)
    ensures (from <= r && IsPassed(weights, point, r))
            || (r == |weights| - 1 && forall i: nat :: from <= i ==> !IsPassed(weights, point, i))
    ensures forall i: nat :: from <= i < r ==> !IsPassed(weights, point, i)
    decreases |weights| - from
  {
    if from < |weights| && !IsPassed(weights, point, from) {
      FirstPastIs(weights, point, from + 1, r);
    }
  }

  lemma {:induction false} PointBelow(bucket: nat, total: real, sum: real)
    ensures Point(bucket, total) < sum <==> bucket as real * total < 10_000.0 * sum
  {
    assert Point(bucket, total) * 10_000.0 == bucket as real * total;
  }

  /** What the scan compares, over the variants in id order. */
  ghost predicate IsLine(split: Weights, ids: seq<Id>, n: nat, contact: Id, weights: seq<real>, point: real) {
    && ids != [] && IsAscending(ids) && (forall id :: id in ids <==> id in split) && IsWhole(split, n)
    && weights == InOrder(split, ids) && |weights| == |ids| && Total(weights) == WeightBelow(split, n)
    && point == Point(BucketOf(contact), WeightBelow(split, n))
  }

  lemma {:induction false} PassedWhen(split: Weights, ids: seq<Id>, n: nat, contact: Id, weights: seq<real>, point: real, i: nat)
    requires IsLine(split, ids, n, contact, weights, point) && i < |ids|
    ensures IsPassed(weights, point, i) <==> ids[i] in EndingPast(split, n, contact)
  {
    RunningSum(split, ids, i + 1);
    PointBelow(BucketOf(contact), WeightBelow(split, n), WeightBelow(split, ids[i] + 1));
    assert ids[i] in split;
  }

  /** Who gets which variant, for any weights at all. */
  lemma {:induction false} VariantIsDealt(split: Weights, n: nat, contact: Id, variant: Id)
    requires split != map[] && IsWhole(split, n) && VariantOf(split, contact) == Some(variant)
    ensures IsDealt(split, n, contact, variant)
  {
    var ids := Ascending(split.Keys);
    assert ids != [] by { assert exists k :: k in split.Keys; }
    TotalIsWhole(split, ids, n);
    var weights := InOrder(split, ids);
    var pick := PickIndex(weights, BucketOf(contact));
    VariantIndex(split, BucketOf(contact), pick);
    if WeightBelow(split, n) > 0.0 {
      ScanDeals(split, ids, n, contact, weights, Point(BucketOf(contact), WeightBelow(split, n)), pick);
    } else {
      FirstIsFirst(split, ids);
    }
  }

  lemma {:induction false} FirstIsFirst(split: Weights, ids: seq<Id>)
    requires ids != [] && IsAscending(ids) && forall id :: id in ids <==> id in split
    ensures IsFirstOf(split, ids[0])
  {
    forall id | id in split ensures ids[0] <= id {
      var k :| 0 <= k < |ids| && ids[k] == id;
    }
  }

  lemma {:induction false} ScanDeals(split: Weights, ids: seq<Id>, n: nat, contact: Id, weights: seq<real>, point: real, pick: nat)
    requires IsLine(split, ids, n, contact, weights, point) && pick == FirstPast(weights, point, 0)
    ensures IsLowestOrLast(split, EndingPast(split, n, contact), ids[pick])
  {
    FirstPastIs(weights, point, 0, pick);
    forall i | 0 <= i < |ids| ensures IsPassed(weights, point, i) <==> ids[i] in EndingPast(split, n, contact) {
      PassedWhen(split, ids, n, contact, weights, point, i);
    }
    PickIsDealt(split, ids, EndingPast(split, n, contact), pick);
  }

  lemma {:induction false} PickIsDealt(split: Weights, ids: seq<Id>, ending: set<Id>, pick: nat)
    requires IsAscending(ids) && (forall id :: id in ids <==> id in split) && pick < |ids| && ending <= split.Keys
    requires forall i :: 0 <= i < pick ==> ids[i] !in ending
    requires ids[pick] in ending || (pick == |ids| - 1 && forall i :: 0 <= i < |ids| ==> ids[i] !in ending)
    ensures IsLowestOrLast(split, ending, ids[pick])
  {
    assert ids[pick] in split;
    forall id | id in split ensures exists k :: 0 <= k < |ids| && ids[k] == id {
      assert id in ids;
    }
  }
}
