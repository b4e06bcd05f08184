/** The delivery estimate: complexity points, effort ranges through a floating-point factor, and totals. */
module Estimate {
  import opened Wrappers

  datatype Priority = Critical | High | Medium | Low

  datatype Category =
    | Functional | NonFunctional | Security | Privacy | Accessibility | Performance | Architecture | Commercial
    | Deployment | FutureRoadmap

  datatype Requirement = Requirement(id: string, priority: Priority, category: Category)

  datatype Sensitivity = NoPersonalData | PersonalData | SensitiveData

  function Points(r: Requirement): (points: nat)
    ensures 2 <= points <= 7
  {
    (match r.priority case Critical => 5 case High => 4 case Medium => 3 case Low => 2) +
    (match r.category
     case Functional => 0 case NonFunctional => 1 case Security => 2 case Privacy => 2 case Accessibility => 1
     case Performance => 2 case Architecture => 2 case Commercial => 1 case Deployment => 2 case FutureRoadmap => 0)
  }

  /** The points by priority, and how much each category adds to those of a functional requirement. */
  lemma PointsAre(r: Requirement)
    ensures r.category == Functional ==>
      && (Points(r) == 5 <==> r.priority == Critical) && (Points(r) == 4 <==> r.priority == High)
      && (Points(r) == 3 <==> r.priority == Medium) && (Points(r) == 2 <==> r.priority == Low)
    ensures var functional := Points(r.(category := Functional));
      && (Points(r) == functional <==> r.category in {Functional, FutureRoadmap})
      && (Points(r) == functional + 1 <==> r.category in {NonFunctional, Accessibility, Commercial})
      && (Points(r) == functional + 2 <==> r.category in {Security, Privacy, Performance, Architecture, Deployment})
  {
  }

  // The double-precision product.

  const TWO_52: int := 0x10_0000_0000_0000
  const TWO_53: int := 0x20_0000_0000_0000

  function Power2(k: nat): nat {
    if k == 0 then 1 else 2 * Power2(k - 1)
  }

  /** Twenty times the decimal factor 1.20, 1.35 or 1.60. */
  function Twentieths(s: Sensitivity): nat {
    match s case NoPersonalData => 24 case PersonalData => 27 case SensitiveData => 32
  }

  /** The factor as the double nearest to it, in units of 2^-52. */
  function Factor(s: Sensitivity): nat {
    match s case NoPersonalData => 5404319552844595 case PersonalData => 6079859496950170 case SensitiveData => 7205759403792794
  }

  /** How many low bits of `v` do not fit into a 53-bit significand. */
  function Excess(v: nat): nat {
    if v < TWO_53 then 0 else 1 + Excess(v / 2)
  }

  /** The significand: rounded to nearest, ties to even. */
  function Significand(v: nat, k: nat): nat
    requires Power2(k) > 0
  {
    var q, r := v / Power2(k), v % Power2(k);
    if 2 * r < Power2(k) || (2 * r == Power2(k) && q % 2 == 0) then q else q + 1
  }

  lemma {:induction false} Power2IsPositive(k: nat)
    ensures Power2(k) > 0
  {
    if k > 0 {
      Power2IsPositive(k - 1);
    }
  }

  /** A non-negative number of units rounded to a double. */
  function Rounded(v: nat): nat {
    Power2IsPositive(Excess(v));
    Significand(v, Excess(v)) * Power2(Excess(v))
  }

  /** `math.ceil(points * factor)`. */
  function CeiledProduct(points: nat, s: Sensitivity): nat {
    (Rounded(points * Factor(s)) + TWO_52 - 1) / TWO_52
  }

  /** The factors are the doubles nearest to the decimals. */
  lemma FactorsAreNearest(s: Sensitivity)
    ensures -10 <= 20 * Factor(s) - Twentieths(s) * TWO_52 <= 10
    ensures TWO_52 <= Factor(s) < TWO_53
    ensures Twentieths(s) as real / 20.0 == (match s case NoPersonalData => 1.20 case PersonalData => 1.35 case SensitiveData => 1.60)
  {
  }

  /** The excess bits are those beyond the leading 53. */
  lemma {:induction false} ExcessFits(v: nat)
    ensures v < TWO_53 * Power2(Excess(v))
    ensures Excess(v) > 0 ==> TWO_52 * Power2(Excess(v)) <= v
  {
    if v >= TWO_53 {
      ExcessFits(v / 2);
    }
  }

  /** The rounding error is at most half a unit in the last place. */
  lemma RoundedIsNear(v: nat)
    ensures 2 * v <= 2 * Rounded(v) + Power2(Excess(v)) && 2 * Rounded(v) <= 2 * v + Power2(Excess(v))
  {
    var p := Power2(Excess(v));
    Power2IsPositive(Excess(v));
    var q, r := v / p, v % p;
    assert v == q * p + r;
    assert (q + 1) * p == q * p + p;
  }

  /** A tie goes to the even significand. */
  lemma TiesAreEven(v: nat, k: nat)
    requires Power2(k) > 0 && 2 * (v % Power2(k)) == Power2(k)
    ensures Significand(v, k) % 2 == 0
  {
  }

  /** The ulp of the product is far below the distance of the factor's multiples from an integer. */
  lemma ProductIsNear(points: nat, s: Sensitivity)
    requires 1 <= points <= 0x100_0000_0000
    ensures var error := 20 * Rounded(points * Factor(s)) - Twentieths(s) * points * TWO_52;
      -TWO_52 < error < TWO_52
  {
    var v := points * Factor(s);
    var p := Power2(Excess(v));
    FactorsAreNearest(s);
    RoundedIsNear(v);
    ExcessFits(v);
    hide Factor, Twentieths, Rounded, Excess, Power2;
    assert v <= points * TWO_53;
    assert p <= 2 * points + 1 by {
      if Excess(v) > 0 {
        assert TWO_52 * p <= TWO_52 * (2 * points);
      }
    }
    FactorError(points, s);
  }

  lemma FactorError(points: nat, s: Sensitivity)
    ensures -10 * points <= 20 * (points * Factor(s)) - Twentieths(s) * points * TWO_52 <= 10 * points
  {
    FactorsAreNearest(s);
    var d := 20 * Factor(s) - Twentieths(s) * TWO_52;
    assert 20 * (points * Factor(s)) - Twentieths(s) * points * TWO_52 == points * d by {
      assert 20 * (points * Factor(s)) == points * (20 * Factor(s));
      assert Twentieths(s) * points * TWO_52 == points * (Twentieths(s) * TWO_52);
    }
    assert -10 * points <= points * d <= 10 * points;
  }

  /** Despite the rounding, the ceiling is at least the exact product and at most one above it. */
  lemma CeilingBounds(points: nat, s: Sensitivity)
    requires 1 <= points <= 0x100_0000_0000
    ensures Twentieths(s) * points <= 20 * CeiledProduct(points, s) <= Twentieths(s) * points + 20
  {
    hide Rounded, Twentieths, Factor;
    ProductIsNear(points, s);
    var d := Rounded(points * Factor(s));
    var m := CeiledProduct(points, s);
    var exact := Twentieths(s) * points;
    assert TWO_52 * m - TWO_52 < d <= TWO_52 * m;
  }

  /** The rounding shows: 180 * 1.35 is 243, its double is above 243, and the ceiling is 244. */
  lemma RoundedUpOverAnInteger()
    ensures CeiledProduct(180, PersonalData) == 244 && 27 * 180 == 20 * 243
  {
    assert Excess(8549802417586176) == 0;
    assert Excess(17099604835172353) == 1;
    assert Excess(34199209670344706) == 2;
    assert Excess(68398419340689412) == 3;
    assert Excess(136796838681378825) == 4;
    assert Excess(273593677362757650) == 5;
    assert Excess(547187354725515300) == 6;
    assert Excess(1094374709451030600) == 7;
    assert Power2(3) == 8 && Power2(5) == 32 && Power2(7) == 128;
  }

  // The estimate.

  datatype MilestoneEstimate = MilestoneEstimate(sequence: nat, requirements: seq<string>, points: nat, minimum: nat, maximum: nat)

  datatype DeliveryEstimate = DeliveryEstimate(milestones: seq<MilestoneEstimate>, totalMinimum: nat, totalMaximum: nat)

  predicate Distinct(items: seq<string>) {
    forall i, j :: 0 <= i < j < |items| ==> items[i] != items[j]
  }

  function Elements(items: seq<string>): set<string> {
    set i | 0 <= i < |items| :: items[i]
  }

  function Flatten(groups: seq<seq<string>>): seq<string> {
    if groups == [] then [] else Flatten(groups[..|groups| - 1]) + groups[|groups| - 1]
  }

  /** A locked roadmap's milestones: none empty, and no requirement mapped twice. */
  predicate LockedMilestones(groups: seq<seq<string>>) {
    groups != [] && (forall i :: 0 <= i < |groups| ==> groups[i] != []) && Distinct(Flatten(groups))
  }

  /** The requirements by identifier; an approved document has 1 to 100. */
  type Requirements = map<string, Requirement>

  /** An identifier outside the document has no points; the build refuses such a scope. */
  function PointsAt(requirements: Requirements, id: string): nat {
    if id in requirements then Points(requirements[id]) else 0
  }

  function SumOfPoints(requirements: Requirements, ids: seq<string>): nat {
    if ids == [] then 0 else SumOfPoints(requirements, ids[..|ids| - 1]) + PointsAt(requirements, ids[|ids| - 1])
  }

  function Minimum(points: nat): nat {
    if points < 1 then 1 else points
  }

  function Maximum(points: nat, s: Sensitivity): nat {
    var ceiling := CeiledProduct(points, s);
    if ceiling < Minimum(points) then Minimum(points) else ceiling
  }

  function EstimateOf(requirements: Requirements, s: Sensitivity, ids: seq<string>, sequence: nat): MilestoneEstimate {
    var points := SumOfPoints(requirements, ids);
    MilestoneEstimate(sequence, ids, points, Minimum(points), Maximum(points, s))
  }

  function TotalMinimum(milestones: seq<MilestoneEstimate>): nat {
    if milestones == [] then 0 else TotalMinimum(milestones[..|milestones| - 1]) + milestones[|milestones| - 1].minimum
  }

  function TotalMaximum(milestones: seq<MilestoneEstimate>): nat {
    if milestones == [] then 0 else TotalMaximum(milestones[..|milestones| - 1]) + milestones[|milestones| - 1].maximum
  }

  function EstimatesOf(requirements: Requirements, s: Sensitivity, groups: seq<seq<string>>): (milestones: seq<MilestoneEstimate>)
    ensures |milestones| == |groups|
  {
    if groups == [] then []
    else EstimatesOf(requirements, s, groups[..|groups| - 1]) + [EstimateOf(requirements, s, groups[|groups| - 1], |groups|)]
  }

  /** The sum over one milestone's requirements. */
  method AddPoints(requirements: Requirements, group: seq<string>) returns (points: nat)
    ensures points == SumOfPoints(requirements, group)
  {
    hide PointsAt;
    points := 0;
    for j := 0 to |group|
      invariant points == SumOfPoints(requirements, group[..j])
    {
      assert group[..j + 1][..j] == group[..j];
      points := points + PointsAt(requirements, group[j]);
    }
    assert group[..|group|] == group;
  }

  /** `_build`: the loop over the locked milestones; None when the scope differs from the document's. */
  method Build(requirements: Requirements, s: Sensitivity, groups: seq<seq<string>>) returns (estimate: Option<DeliveryEstimate>)
    requires LockedMilestones(groups)
    ensures estimate.Some? <==> Elements(Flatten(groups)) == requirements.Keys
    ensures estimate.Some? ==>
      && estimate.value.milestones == EstimatesOf(requirements, s, groups)
      && estimate.value.totalMinimum == TotalMinimum(estimate.value.milestones)
      && estimate.value.totalMaximum == TotalMaximum(estimate.value.milestones)
  {
    hide Maximum, Minimum, SumOfPoints, Flatten, Elements, LockedMilestones, EstimatesOf, TotalMinimum, TotalMaximum;
    if Elements(Flatten(groups)) != requirements.Keys {
      return None;
    }
    var milestones: seq<MilestoneEstimate> := [];
    var totalMinimum, totalMaximum := 0, 0;
    NoMilestones(requirements, s);
    assert groups[..0] == [];
    for i := 0 to |groups|
      invariant milestones == EstimatesOf(requirements, s, groups[..i])
      invariant totalMinimum == TotalMinimum(milestones) && totalMaximum == TotalMaximum(milestones)
    {
      var points := AddPoints(requirements, groups[i]);
      var milestone := MilestoneEstimate(i + 1, groups[i], points, Minimum(points), Maximum(points, s));
      OneMilestoneMore(requirements, s, groups, i);
      TotalsGrow(milestones, milestone);
      milestones := milestones + [milestone];
      totalMinimum := totalMinimum + milestone.minimum;
      totalMaximum := totalMaximum + milestone.maximum;
    }
    assert groups[..|groups|] == groups;
    estimate := Some(DeliveryEstimate(milestones, totalMinimum, totalMaximum));
  }

  lemma NoMilestones(requirements: Requirements, s: Sensitivity)
    ensures EstimatesOf(requirements, s, []) == [] && TotalMinimum([]) == 0 && TotalMaximum([]) == 0
  {
  }

  lemma OneMilestoneMore(requirements: Requirements, s: Sensitivity, groups: seq<seq<string>>, i: nat)
    requires i < |groups|
    ensures EstimatesOf(requirements, s, groups[..i + 1]) ==
            EstimatesOf(requirements, s, groups[..i]) + [EstimateOf(requirements, s, groups[i], i + 1)]
  {
    hide EstimateOf;
    assert groups[..i + 1][..i] == groups[..i];
  }

  lemma TotalsGrow(milestones: seq<MilestoneEstimate>, milestone: MilestoneEstimate)
    ensures TotalMinimum(milestones + [milestone]) == TotalMinimum(milestones) + milestone.minimum
    ensures TotalMaximum(milestones + [milestone]) == TotalMaximum(milestones) + milestone.maximum
  {
    assert (milestones + [milestone])[..|milestones|] == milestones;
  }

  // Totals.

  lemma {:induction false} SumSplits(requirements: Requirements, a: seq<string>, b: seq<string>)
    ensures SumOfPoints(requirements, a + b) == SumOfPoints(requirements, a) + SumOfPoints(requirements, b)
  {
    if b == [] {
      assert a + b == a;
    } else {
      SumSplits(requirements, a, b[..|b| - 1]);
      assert (a + b)[..|a + b| - 1] == a + b[..|b| - 1];
    }
  }

  lemma {:induction false} SumIsBounded(requirements: Requirements, ids: seq<string>)
    requires Elements(ids) <= requirements.Keys
    ensures 2 * |ids| <= SumOfPoints(requirements, ids) <= 7 * |ids|
  {
    if ids != [] {
      var front := ids[..|ids| - 1];
      assert ids == front + [ids[|ids| - 1]];
      ElementsSplit(front, [ids[|ids| - 1]]);
      assert ids[|ids| - 1] in Elements(ids);
      SumIsBounded(requirements, front);
    }
  }

  lemma ElementsSplit(a: seq<string>, b: seq<string>)
    ensures Elements(a + b) == Elements(a) + Elements(b)
  {
    forall x ensures x in Elements(a + b) <==> x in Elements(a) || x in Elements(b) {
      if x in Elements(a) {
        var i :| 0 <= i < |a| && a[i] == x;
        assert (a + b)[i] == x;
      } else if x in Elements(b) {
        var i :| 0 <= i < |b| && b[i] == x;
        assert (a + b)[|a| + i] == x;
      }
    }
  }

  /** Taking one element out of a listing. */
  lemma WithoutOne(requirements: Requirements, items: seq<string>, k: nat)
    requires k < |items|
    ensures SumOfPoints(requirements, items) == SumOfPoints(requirements, items[..k] + items[k + 1..]) + PointsAt(requirements, items[k])
    ensures multiset(items[..k] + items[k + 1..]) == multiset(items) - multiset{items[k]}
  {
    var one := [items[k]];
    assert items == items[..k] + (one + items[k + 1..]);
    assert multiset(items) == multiset(items[..k]) + multiset(one) + multiset(items[k + 1..]);
    SumSplits(requirements, items[..k], one + items[k + 1..]);
    SumSplits(requirements, one, items[k + 1..]);
    SumSplits(requirements, items[..k], items[k + 1..]);
    assert one[..0] == [];
  }

  /** Two listings of the same requirements have the same sum of points. */
  lemma {:induction false} SumOfSameElements(requirements: Requirements, a: seq<string>, b: seq<string>)
    requires multiset(a) == multiset(b)
    ensures SumOfPoints(requirements, a) == SumOfPoints(requirements, b)
  {
    hide SumOfPoints;
    assert |multiset(a)| == |a| && |multiset(b)| == |b|;
    if a == [] {
    } else {
      assert a[0] in multiset(a) && a[0] in multiset(b);
      var k :| 0 <= k < |b| && b[k] == a[0];
      WithoutOne(requirements, a, 0);
      WithoutOne(requirements, b, k);
      SumOfSameElements(requirements, a[..0] + a[1..], b[..k] + b[k + 1..]);
    }
  }

  lemma {:induction false} DistinctCounts(items: seq<string>, x: string)
    requires Distinct(items)
    ensures multiset(items)[x] == if x in Elements(items) then 1 else 0
  {
    if items == [] {
    } else {
      var front, last := items[..|items| - 1], items[|items| - 1];
      assert items == front + [last];
      DistinctCounts(front, x);
      ElementsSplit(front, [last]);
      assert Elements([last]) == {last};
      assert last !in Elements(front);
    }
  }

  lemma SameElementsSameMultiset(a: seq<string>, b: seq<string>)
    requires Distinct(a) && Distinct(b) && Elements(a) == Elements(b)
    ensures multiset(a) == multiset(b)
  {
    forall x: string ensures multiset(a)[x] == multiset(b)[x] {
      DistinctCounts(a, x);
      DistinctCounts(b, x);
    }
  }

  lemma AtLeastPoints(points: nat, s: Sensitivity)
    requires 1 <= points <= 0x100_0000_0000
    ensures Minimum(points) == points && Maximum(points, s) == CeiledProduct(points, s)
  {
    hide CeiledProduct;
    CeilingBounds(points, s);
    assert Twentieths(s) >= 24;
  }

  lemma {:induction false} TotalsOf(requirements: Requirements, s: Sensitivity, groups: seq<seq<string>>)
    requires Elements(Flatten(groups)) <= requirements.Keys && |Flatten(groups)| <= 0x10_0000_0000
    requires forall i :: 0 <= i < |groups| ==> groups[i] != []
    ensures var milestones := EstimatesOf(requirements, s, groups);
      var sum := SumOfPoints(requirements, Flatten(groups));
      && TotalMinimum(milestones) == sum
      && Twentieths(s) * sum <= 20 * TotalMaximum(milestones) <= Twentieths(s) * sum + 20 * |groups|
  {
    hide CeiledProduct, Points, PointsAt, Twentieths, SumOfPoints, Minimum, Maximum, Elements;
    if groups == [] {
      NoSum(requirements);
    } else {
      var front, last := groups[..|groups| - 1], groups[|groups| - 1];
      ElementsSplit(Flatten(front), last);
      TotalsOf(requirements, s, front);
      SumSplits(requirements, Flatten(front), last);
      SumIsBounded(requirements, last);
      var points := SumOfPoints(requirements, last);
      CeilingBounds(points, s);
      AtLeastPoints(points, s);
      var milestones := EstimatesOf(requirements, s, groups);
      assert milestones[..|groups| - 1] == EstimatesOf(requirements, s, front);
      assert milestones[|groups| - 1] == EstimateOf(requirements, s, last, |groups|);
      Distributes(Twentieths(s), SumOfPoints(requirements, Flatten(front)), points);
    }
  }

  lemma NoSum(requirements: Requirements)
    ensures SumOfPoints(requirements, []) == 0
  {
  }

  lemma Distributes(a: nat, b: nat, c: nat)
    ensures a * (b + c) == a * b + a * c
  {
  }

  /** For every grouping of the same requirements into milestones the total minimum is the same, the
      sum of all points, and the total maximum lies between the factor times that sum and the number of
      milestones above it. */
  lemma TotalsAreBounded(requirements: Requirements, s: Sensitivity, groups: seq<seq<string>>, other: seq<seq<string>>)
    requires LockedMilestones(groups) && LockedMilestones(other)
    requires Elements(Flatten(groups)) == requirements.Keys == Elements(Flatten(other))
    requires |Flatten(groups)| <= 100
    ensures var milestones := EstimatesOf(requirements, s, groups);
      && TotalMinimum(milestones) == SumOfPoints(requirements, Flatten(groups)) == TotalMinimum(EstimatesOf(requirements, s, other))
      && Twentieths(s) * TotalMinimum(milestones) <= 20 * TotalMaximum(milestones)
         <= Twentieths(s) * TotalMinimum(milestones) + 20 * |groups|
  {
    hide EstimatesOf, Twentieths, SumOfPoints, Flatten, Elements;
    SameElementsSameMultiset(Flatten(groups), Flatten(other));
    SumOfSameElements(requirements, Flatten(groups), Flatten(other));
    assert |multiset(Flatten(groups))| == |Flatten(groups)| && |multiset(Flatten(other))| == |Flatten(other)|;
    TotalsOf(requirements, s, groups);
    TotalsOf(requirements, s, other);
  }
}
