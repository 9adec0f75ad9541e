/**
 * The discrete and affine parts of the curve library: the parameter maps
 * of flipped and reparametrized curves, how a concatenated curve splits
 * parameters into runs per sub-curve, how many derivative arrays the
 * derivative queries return, the prepare-before-use state of the length
 * solver, the point-count dispatch of building a curve from points, and
 * the degree of a Bezier curve. Curve parameters are Dafny reals.
 */
module Curve {
  import opened Wrappers

  // ---------------------------------------------------------------------------
  // Flipped and reparametrized curves

  /** The flip of a parameter within the bounds [m, M]. */
  function FlipParameter(m: real, M: real, t: real): real
  {
    M - t + m
  }

  /** The parameter of the inner curve at parameter t in [0, 1] of the reparametrized curve. */
  function ReparametrizeParameter(m: real, M: real, t: real): real
  {
    m + t * (M - m)
  }

  /** A curve as a chain of flips and reparametrizations over a base curve with bounds (m, M). */
  datatype ParamCurve =
    | BaseCurve(m: real, M: real)
    | Flipped(inner: ParamCurve)
    | Reparametrized(inner: ParamCurve)

  /** The parameter bounds: a flip keeps its curve's bounds, a reparametrization has bounds (0, 1). */
  function UBounds(c: ParamCurve): (real, real)
  {
    match c
    case BaseCurve(m, M) => (m, M)
    case Flipped(inner) => UBounds(inner)
    case Reparametrized(_) => (0.0, 1.0)
  }

  /** The parameter on the base curve at which the composite curve is evaluated at t. */
  function BaseParameter(c: ParamCurve, t: real): real
  {
    match c
    case BaseCurve(_, _) => t
    case Flipped(inner) => BaseParameter(inner, FlipParameter(UBounds(inner).0, UBounds(inner).1, t))
    case Reparametrized(inner) => BaseParameter(inner, ReparametrizeParameter(UBounds(inner).0, UBounds(inner).1, t))
  }

  function Base(c: ParamCurve): (b: ParamCurve)
    ensures b.BaseCurve?
  {
    match c
    case BaseCurve(_, _) => c
    case Flipped(inner) => Base(inner)
    case Reparametrized(inner) => Base(inner)
  }

  /** The flip sends each end of the bounds to the other and maps the bounds onto themselves. */
  lemma {:induction false} FlipWithinBounds(m: real, M: real, t: real)
    ensures FlipParameter(m, M, m) == M && FlipParameter(m, M, M) == m
    ensures m <= t <= M ==> m <= FlipParameter(m, M, t) <= M
    ensures FlipParameter(m, M, FlipParameter(m, M, t)) == t
  {
  }

  /** A curve flipped twice is evaluated where the curve itself is. */
  lemma {:induction false} FlipTwice(c: ParamCurve, t: real)
    ensures UBounds(Flipped(Flipped(c))) == UBounds(c)
    ensures BaseParameter(Flipped(Flipped(c)), t) == BaseParameter(c, t)
  {
    FlipWithinBounds(UBounds(c).0, UBounds(c).1, t);
  }

  /** Reparametrizing sends 0 and 1 to the ends of the inner curve's bounds. */
  lemma {:induction false} ReparametrizeEnds(c: ParamCurve)
    ensures BaseParameter(Reparametrized(c), 0.0) == BaseParameter(c, UBounds(c).0)
    ensures BaseParameter(Reparametrized(c), 1.0) == BaseParameter(c, UBounds(c).1)
  {
  }

  /** A fraction in [0, 1] of a non-negative range lies within the range. */
  lemma {:induction false} FractionOfRange(s: real, d: real)
    requires 0.0 <= s <= 1.0 && d >= 0.0
    ensures 0.0 <= s * d <= d
  {
    assert d - s * d == (1.0 - s) * d;
  }

  /** Reparametrizing maps [0, 1] into ordered bounds [m, M]. */
  lemma {:induction false} ReparametrizeWithin(m: real, M: real, t: real)
    requires m <= M && 0.0 <= t <= 1.0
    ensures m <= ReparametrizeParameter(m, M, t) <= M
  {
    var d := M - m;
    var p := t * d;
    FractionOfRange(t, d);
    assert 0.0 <= p <= d;
    assert ReparametrizeParameter(m, M, t) == m + p;
  }

  /** Every bound of the chain is ordered when the base curve's bounds are. */
  lemma {:induction false} BoundsOrdered(c: ParamCurve)
    requires Base(c).m <= Base(c).M
    ensures UBounds(c).0 <= UBounds(c).1
  {
    match c
    case BaseCurve(_, _) =>
    case Flipped(inner) => BoundsOrdered(inner);
    case Reparametrized(inner) =>
  }

  /**
   * With ordered base bounds, every parameter within a composite curve's
   * bounds is evaluated at a parameter within the base curve's bounds.
   */
  lemma {:induction false} StaysWithinBase(c: ParamCurve, t: real)
    requires Base(c).m <= Base(c).M
    requires UBounds(c).0 <= t <= UBounds(c).1
    ensures Base(c).m <= BaseParameter(c, t) <= Base(c).M
  {
    match c
    case BaseCurve(_, _) =>
    case Flipped(inner) =>
      FlipWithinBounds(UBounds(inner).0, UBounds(inner).1, t);
      StaysWithinBase(inner, FlipParameter(UBounds(inner).0, UBounds(inner).1, t));
    case Reparametrized(inner) =>
      BoundsOrdered(inner);
      ReparametrizeWithin(UBounds(inner).0, UBounds(inner).1, t);
      StaysWithinBase(inner, ReparametrizeParameter(UBounds(inner).0, UBounds(inner).1, t));
  }

  // ---------------------------------------------------------------------------
  // Concatenated curves

  /** The running totals [0, r0, r0 + r1, ...] of a list of reals. */
  function RunningTotals(xs: seq<real>): (r: seq<real>)
    ensures |r| == |xs| + 1 && r[0] == 0.0
    ensures forall k :: 0 <= k < |xs| ==> r[k + 1] == r[k] + xs[k]
  {
    if xs == [] then [0.0]
    else
      var before := RunningTotals(xs[..|xs| - 1]);
      assert forall k :: 0 <= k < |xs| - 1 ==> xs[..|xs| - 1][k] == xs[k];
      before + [before[|xs| - 1] + xs[|xs| - 1]]
  }

  function Sum(xs: seq<real>): real
  {
    if xs == [] then 0.0 else Sum(xs[..|xs| - 1]) + xs[|xs| - 1]
  }

  /** The last running total is the sum. */
  lemma {:induction false} RunningTotalsEndInSum(xs: seq<real>)
    ensures RunningTotals(xs)[|xs|] == Sum(xs)
  {
    if xs != [] {
      RunningTotalsEndInSum(xs[..|xs| - 1]);
    }
  }

  /** With no negative entry, the running totals never decrease. */
  lemma {:induction false} RunningTotalsSorted(xs: seq<real>, i: nat, j: nat)
    requires forall k :: 0 <= k < |xs| ==> xs[k] >= 0.0
    requires i <= j <= |xs|
    ensures RunningTotals(xs)[i] <= RunningTotals(xs)[j]
    decreases j - i
  {
    if i < j {
      RunningTotalsSorted(xs, i, j - 1);
    }
  }

  /**
   * A curve made of sub-curves one after another: per sub-curve its lower
   * bound and its range, and the parameter at which each sub-curve starts
   * on the concatenation (at its index when every sub-curve is scaled to
   * unit length; otherwise the running total of the ranges, with the total
   * at the end).
   */
  datatype ConcatCurve = ConcatCurve(
    count: nat,
    scaleToUnit: bool,
    srcMinBounds: seq<real>,
    ranges: seq<real>,
    uMax: real,
    minBounds: seq<real>)

  ghost predicate Shaped(c: ConcatCurve)
  {
    |c.srcMinBounds| == c.count && |c.ranges| == c.count && |c.minBounds| >= c.count
  }

  function Ranges(bounds: seq<(real, real)>): (r: seq<real>)
    ensures |r| == |bounds| && forall k :: 0 <= k < |bounds| ==> r[k] == bounds[k].1 - bounds[k].0
  {
    seq(|bounds|, k requires 0 <= k < |bounds| => bounds[k].1 - bounds[k].0)
  }

  function Indices(n: nat): (r: seq<real>)
    ensures |r| == n && forall k :: 0 <= k < n ==> r[k] == k as real
  {
    seq(n, k requires 0 <= k => k as real)
  }

  /** The concatenation of curves with the given bounds. */
  function NewConcatCurve(bounds: seq<(real, real)>, scaleToUnit: bool): (c: ConcatCurve)
    ensures Shaped(c) && c.count == |bounds| && c.scaleToUnit == scaleToUnit
    ensures forall k :: 0 <= k < |bounds| ==> c.srcMinBounds[k] == bounds[k].0 && c.ranges[k] == bounds[k].1 - bounds[k].0
    ensures scaleToUnit ==>
      c.uMax == |bounds| as real && |c.minBounds| == |bounds| && forall k :: 0 <= k < |bounds| ==> c.minBounds[k] == k as real
    ensures !scaleToUnit ==>
      |c.minBounds| == |bounds| + 1 && c.minBounds[0] == 0.0 && c.uMax == c.minBounds[|bounds|] &&
      forall k :: 0 <= k < |bounds| ==> c.minBounds[k + 1] == c.minBounds[k] + c.ranges[k]
  {
    var ranges := Ranges(bounds);
    var srcMinBounds := seq(|bounds|, k requires 0 <= k < |bounds| => bounds[k].0);
    if scaleToUnit then
      ConcatCurve(|bounds|, true, srcMinBounds, ranges, |bounds| as real, Indices(|bounds|))
    else
      RunningTotalsEndInSum(ranges);
      ConcatCurve(|bounds|, false, srcMinBounds, ranges, Sum(ranges), RunningTotals(ranges))
  }

  /** The number of entries below t: where t goes in a sorted list, before any equal entries. */
  function CountBelow(a: seq<real>, t: real): (r: nat)
    ensures r <= |a|
  {
    if a == [] then 0 else CountBelow(a[..|a| - 1], t) + (if a[|a| - 1] < t then 1 else 0)
  }

  /** In a sorted list, the entries before the insertion point are below t and the others are not. */
  lemma {:induction false} CountBelowSplits(a: seq<real>, t: real)
    requires forall i, j :: 0 <= i <= j < |a| ==> a[i] <= a[j]
    ensures forall i :: 0 <= i < CountBelow(a, t) ==> a[i] < t
    ensures forall i :: CountBelow(a, t) <= i < |a| ==> a[i] >= t
  {
    if a != [] {
      var front := a[..|a| - 1];
      CountBelowSplits(front, t);
      assert forall i :: 0 <= i < |front| ==> front[i] == a[i];
    }
  }

  /** numpy's clip of an index into [lo, hi]. */
  function Clip(x: int, lo: int, hi: int): int
  {
    if x < lo then lo else if x > hi then hi else x
  }

  /** The sub-curve a parameter falls on: the last one starting strictly before it, clipped to the valid indices. */
  function CurveIndex(c: ConcatCurve, t: real): (k: nat)
    requires Shaped(c) && c.count > 0
    ensures k < c.count
  {
    Clip(CountBelow(c.minBounds, t) - 1, 0, c.count - 1)
  }

  /** The parameter on sub-curve k for parameter t of the concatenation, as the source computes it. */
  function LocalParameterAsWritten(c: ConcatCurve, k: nat, t: real): real
    requires Shaped(c) && k < c.count
  {
    var dt := t - c.minBounds[k] + c.srcMinBounds[k];
    if c.scaleToUnit then dt * c.ranges[k] else dt
  }

  /**
   * The parameter on sub-curve k for parameter t of the concatenation: the
   * offset from the sub-curve's start, scaled by its range when every
   * sub-curve has unit length, added to the sub-curve's lower bound.
   */
  function LocalParameter(c: ConcatCurve, k: nat, t: real): real
    requires Shaped(c) && k < c.count
  {
    var offset := t - c.minBounds[k];
    c.srcMinBounds[k] + (if c.scaleToUnit then offset * c.ranges[k] else offset)
  }

  /**
   * Scaled to unit length, the concatenation's stretch [k, k + 1] maps onto
   * sub-curve k's bounds, its start to the lower bound and its end to the
   * upper bound.
   */
  lemma {:induction false} ScaledLocalParameterInBounds(bounds: seq<(real, real)>, k: nat, t: real)
    requires k < |bounds| && bounds[k].0 <= bounds[k].1
    ensures var c := NewConcatCurve(bounds, true);
      LocalParameter(c, k, k as real) == bounds[k].0 &&
      LocalParameter(c, k, k as real + 1.0) == bounds[k].1 &&
      (k as real <= t <= k as real + 1.0 ==> bounds[k].0 <= LocalParameter(c, k, t) <= bounds[k].1)
  {
    var c := NewConcatCurve(bounds, true);
    var (m, M) := bounds[k];
    if k as real <= t <= k as real + 1.0 {
      FractionOfRange(t - k as real, M - m);
    }
  }

  /** Unscaled, the stretch of the concatenation given to sub-curve k maps onto its bounds. */
  lemma {:induction false} UnscaledLocalParameterInBounds(bounds: seq<(real, real)>, k: nat, t: real)
    requires k < |bounds|
    ensures var c := NewConcatCurve(bounds, false);
      LocalParameter(c, k, c.minBounds[k]) == bounds[k].0 &&
      LocalParameter(c, k, c.minBounds[k + 1]) == bounds[k].1 &&
      (c.minBounds[k] <= t <= c.minBounds[k + 1] ==> bounds[k].0 <= LocalParameter(c, k, t) <= bounds[k].1)
  {
  }

  /**
   * As written, scaling after adding the lower bound sends the start of a
   * concatenation of one curve with bounds (1, 3) to parameter 2, not to 1.
   */
  lemma {:induction false} ScaledLocalParameterAsWrittenMissesStart()
    ensures var c := NewConcatCurve([(1.0, 3.0)], true);
      LocalParameterAsWritten(c, 0, 0.0) == 2.0 && LocalParameter(c, 0, 0.0) == 1.0
  {
    var c := NewConcatCurve([(1.0, 3.0)], true);
    assert c.minBounds[0] == 0.0 && c.srcMinBounds[0] == 1.0 && c.ranges[0] == 2.0;
  }

  /** A parameter of the concatenation tagged with its sub-curve and its parameter there. */
  datatype Tagged = Tagged(curve: int, dt: real)

  /** A run of parameters on one sub-curve. */
  datatype Group = Group(curve: int, dts: seq<real>)

  function TagAll(curve: int, dts: seq<real>): (r: seq<Tagged>)
    ensures |r| == |dts| && forall j :: 0 <= j < |dts| ==> r[j] == Tagged(curve, dts[j])
  {
    seq(|dts|, j requires 0 <= j < |dts| => Tagged(curve, dts[j]))
  }

  /** The tagged parameters a list of runs stands for, in order. */
  function Expand(groups: seq<Group>): seq<Tagged>
  {
    if groups == [] then []
    else Expand(groups[..|groups| - 1]) + TagAll(groups[|groups| - 1].curve, groups[|groups| - 1].dts)
  }

  /** No run is empty and neighbouring runs are on different sub-curves, run by run from the left. */
  ghost predicate Runs(groups: seq<Group>)
  {
    groups == [] ||
    (Runs(groups[..|groups| - 1]) && groups[|groups| - 1].dts != [] &&
     (|groups| >= 2 ==> groups[|groups| - 2].curve != groups[|groups| - 1].curve))
  }

  /** Runs says exactly: no run is empty and no two neighbouring runs share a sub-curve. */
  lemma {:induction false} RunsMeaning(groups: seq<Group>)
    ensures Runs(groups) <==>
      (forall g :: 0 <= g < |groups| ==> groups[g].dts != []) &&
      (forall g :: 0 <= g < |groups| - 1 ==> groups[g].curve != groups[g + 1].curve)
  {
    if groups != [] {
      var front := groups[..|groups| - 1];
      RunsMeaning(front);
      assert forall g :: 0 <= g < |front| ==> front[g] == groups[g];
    }
  }

  lemma {:induction false} RunsAppend(groups: seq<Group>, g: Group)
    requires Runs(groups) && g.dts != []
    requires groups != [] ==> groups[|groups| - 1].curve != g.curve
    ensures Runs(groups + [g])
  {
    assert (groups + [g])[..|groups|] == groups;
  }

  lemma {:induction false} ExpandAppend(groups: seq<Group>, g: Group)
    ensures Expand(groups + [g]) == Expand(groups) + TagAll(g.curve, g.dts)
  {
    assert (groups + [g])[..|groups|] == groups;
  }

  /** A parameter on the current run's sub-curve extends that run. */
  lemma {:induction false} ExtendRun(groups: seq<Group>, dts: seq<real>, pairs: seq<Tagged>, k: nat)
    requires k < |pairs|
    requires Expand(groups) + TagAll(pairs[k].curve, dts) == pairs[..k]
    ensures Expand(groups) + TagAll(pairs[k].curve, dts + [pairs[k].dt]) == pairs[..k + 1]
  {
    assert TagAll(pairs[k].curve, dts + [pairs[k].dt]) == TagAll(pairs[k].curve, dts) + [pairs[k]];
    assert pairs[..k + 1] == pairs[..k] + [pairs[k]];
  }

  /** A parameter on another sub-curve closes the current run and opens a new one. */
  lemma {:induction false} StartRun(groups: seq<Group>, c: int, dts: seq<real>, pairs: seq<Tagged>, k: nat)
    requires k < |pairs| && Runs(groups) && dts != [] && c != pairs[k].curve
    requires groups != [] ==> groups[|groups| - 1].curve != c
    requires Expand(groups) + TagAll(c, dts) == pairs[..k]
    ensures Expand(groups + [Group(c, dts)]) + TagAll(pairs[k].curve, [pairs[k].dt]) == pairs[..k + 1]
    ensures Runs(groups + [Group(c, dts)])
  {
    ExpandAppend(groups, Group(c, dts));
    RunsAppend(groups, Group(c, dts));
    assert TagAll(pairs[k].curve, [pairs[k].dt]) == [pairs[k]];
    assert pairs[..k + 1] == pairs[..k] + [pairs[k]];
  }

  /**
   * Splits tagged parameters into maximal runs on the same sub-curve:
   * expanding the runs gives the input back, no run is empty and
   * neighbouring runs are on different sub-curves.
   */
  method GroupRuns(pairs: seq<Tagged>) returns (groups: seq<Group>)
    ensures Expand(groups) == pairs
    ensures Runs(groups)
  {
    groups := [];
    var prevI: Option<int> := None;
    var prevDts: seq<real> := [];
    var k := 0;
    while k < |pairs|
      invariant 0 <= k <= |pairs|
      invariant (prevI.None? <==> k == 0) && (prevDts == [] <==> k == 0)
      invariant k > 0 ==> prevI.value == pairs[k - 1].curve
      invariant k == 0 ==> groups == []
      invariant k > 0 ==> Expand(groups) + TagAll(prevI.value, prevDts) == pairs[..k]
      invariant Runs(groups)
      invariant k > 0 && groups != [] ==> groups[|groups| - 1].curve != prevI.value
    {
      var i, dt := pairs[k].curve, pairs[k].dt;
      if prevI == Some(i) {
        ExtendRun(groups, prevDts, pairs, k);
        prevDts := prevDts + [dt];
      } else {
        if prevDts != [] {
          StartRun(groups, prevI.value, prevDts, pairs, k);
          groups := groups + [Group(prevI.value, prevDts)];
          prevDts := [dt];
        } else {
          prevDts := [dt];
          if prevI.Some? {
            // The accumulator is empty only before the first parameter.
            assert false;
          }
        }
      }
      prevI := Some(i);
      k := k + 1;
    }
    if prevDts != [] {
      ExpandAppend(groups, Group(pairs[|pairs| - 1].curve, prevDts));
      RunsAppend(groups, Group(pairs[|pairs| - 1].curve, prevDts));
      groups := groups + [Group(pairs[|pairs| - 1].curve, prevDts)];
    }
    assert pairs[..|pairs|] == pairs;
  }

  /**
   * Each parameter of the concatenation tagged with its sub-curve and its
   * parameter there. Unscaled, this is the parameter the source computes;
   * scaled to unit length it is the corrected one.
   */
  function TagParameters(c: ConcatCurve, ts: seq<real>): (r: seq<Tagged>)
    requires Shaped(c) && c.count > 0
    ensures |r| == |ts|
    ensures forall j :: 0 <= j < |ts| ==>
      r[j] == Tagged(CurveIndex(c, ts[j]), LocalParameter(c, CurveIndex(c, ts[j]), ts[j]))
    ensures !c.scaleToUnit ==> forall j :: 0 <= j < |ts| ==>
      r[j].dt == LocalParameterAsWritten(c, CurveIndex(c, ts[j]), ts[j])
  {
    seq(|ts|, j requires 0 <= j < |ts| => Tagged(CurveIndex(c, ts[j]), LocalParameter(c, CurveIndex(c, ts[j]), ts[j])))
  }

  /**
   * The parameters of a concatenation grouped into runs per sub-curve, in
   * order. A concatenation of no curves cannot index its bounds when there
   * is any parameter.
   */
  method TsGrouped(c: ConcatCurve, ts: seq<real>) returns (r: Result<seq<Group>>)
    requires Shaped(c)
    ensures c.count == 0 && ts != [] <==> r == Failure(IndexError)
    ensures c.count > 0 || ts == [] ==> r.Success?
    ensures r.Success? && c.count > 0 ==> Expand(r.value) == TagParameters(c, ts)
    ensures r.Success? && c.count == 0 ==> r.value == []
    ensures r.Success? ==> Runs(r.value)
    ensures r.Success? ==> forall g :: 0 <= g < |r.value| ==> 0 <= r.value[g].curve < c.count
  {
    if ts == [] {
      return Success([]);
    }
    if c.count == 0 {
      return Failure(IndexError);
    }
    var pairs := TagParameters(c, ts);
    var groups := GroupRuns(pairs);
    ExpandedCurvesOccur(groups);
    r := Success(groups);
  }

  /** Each run's sub-curve is the tag of some expanded parameter. */
  lemma {:induction false} ExpandedCurvesOccur(groups: seq<Group>)
    requires Runs(groups)
    ensures forall g :: 0 <= g < |groups| ==> exists j :: 0 <= j < |Expand(groups)| && Expand(groups)[j].curve == groups[g].curve
  {
    if groups != [] {
      var front := groups[..|groups| - 1];
      var last := groups[|groups| - 1];
      assert Runs(front);
      ExpandedCurvesOccur(front);
      assert groups == front + [last];
      ExpandAppend(front, last);
      var e := Expand(groups);
      assert e[|Expand(front)|] == Tagged(last.curve, last.dts[0]);
      forall g | 0 <= g < |groups|
        ensures exists j :: 0 <= j < |e| && e[j].curve == groups[g].curve
      {
        if g < |front| {
          var j :| 0 <= j < |Expand(front)| && Expand(front)[j].curve == front[g].curve;
          assert e[j] == Expand(front)[j];
        } else {
          assert e[|Expand(front)|].curve == groups[g].curve;
        }
      }
    }
  }

  // ---------------------------------------------------------------------------
  // Derivative arrays

  /** A derivative array: its order, and whether an exact formula or finite differences produce it. */
  datatype DerivativeArray = DerivativeArray(order: nat, exact: bool)

  /** How many derivative arrays a query for order n gets: n, but never more than three. */
  function ArrayCount(n: int): nat
  {
    if n <= 0 then 0 else if n >= 3 then 3 else n
  }

  /**
   * The derivative arrays up to order n, never past the third: by finite
   * differences on a general curve, by the exact formulas on a Bezier curve.
   */
  method DerivativesArray(n: int, bezier: bool) returns (result: seq<DerivativeArray>)
    ensures |result| == ArrayCount(n)
    ensures n > 0 ==> 1 <= |result| <= n && |result| <= 3
    ensures forall k :: 0 <= k < |result| ==> result[k] == DerivativeArray(k + 1, bezier)
  {
    result := [];
    if n >= 1 {
      result := result + [DerivativeArray(1, bezier)];
    }
    if n >= 2 {
      result := result + [DerivativeArray(2, bezier)];
    }
    if n >= 3 {
      result := result + [DerivativeArray(3, bezier)];
    }
  }

  /** The i-th arrays of every run, joined in run order. */
  function JoinColumn<V>(derivs: seq<seq<seq<V>>>, i: nat): seq<V>
    requires forall g :: 0 <= g < |derivs| ==> i < |derivs[g]|
  {
    if derivs == [] then [] else JoinColumn(derivs[..|derivs| - 1], i) + derivs[|derivs| - 1][i]
  }

  function ShortestLength<V>(derivs: seq<seq<seq<V>>>): (r: nat)
    requires derivs != []
    ensures forall g :: 0 <= g < |derivs| ==> r <= |derivs[g]|
    ensures exists g :: 0 <= g < |derivs| && r == |derivs[g]|
  {
    if |derivs| == 1 then |derivs[0]|
    else
      var rest := ShortestLength(derivs[1..]);
      assert forall g :: 1 <= g < |derivs| ==> derivs[g] == derivs[1..][g - 1];
      if |derivs[0]| <= rest then |derivs[0]| else rest
  }

  /**
   * The derivative arrays of a concatenation from those of its runs: n
   * arrays, the i-th joining the runs' i-th arrays. A run with fewer than n
   * arrays is an IndexError; joining no arrays at all is a ValueError.
   */
  method ConcatDerivatives<V>(n: int, derivs: seq<seq<seq<V>>>) returns (r: Result<seq<seq<V>>>)
    ensures n <= 0 ==> r == Success([])
    ensures n > 0 && derivs == [] ==> r == Failure(ValueError)
    ensures n > 0 && derivs != [] && (exists g :: 0 <= g < |derivs| && |derivs[g]| < n) ==> r == Failure(IndexError)
    ensures n > 0 && derivs != [] && (forall g :: 0 <= g < |derivs| ==> n <= |derivs[g]|) ==> r.Success?
    ensures r.Success? ==>
      |r.value| == (if n > 0 then n else 0) &&
      forall i :: 0 <= i < |r.value| ==> (forall g :: 0 <= g < |derivs| ==> i < |derivs[g]|) && r.value[i] == JoinColumn(derivs, i)
  {
    var result: seq<seq<V>> := [];
    var i := 0;
    while i < n
      invariant 0 <= i && (n >= 0 ==> i <= n) && (n <= 0 || derivs == [] ==> i == 0) && |result| == i
      invariant forall j :: 0 <= j < i ==> (forall g :: 0 <= g < |derivs| ==> j < |derivs[g]|) && result[j] == JoinColumn(derivs, j)
      invariant derivs != [] ==> i <= ShortestLength(derivs)
    {
      if derivs == [] {
        return Failure(ValueError);
      }
      if i >= ShortestLength(derivs) {
        return Failure(IndexError);
      }
      result := result + [JoinColumn(derivs, i)];
      i := i + 1;
    }
    r := Success(result);
  }

  /**
   * When every run's arrays come from a sub-curve's derivative query for
   * order n, some run is short of n arrays exactly when n is past three: so
   * joining them is an IndexError for n > 3 and succeeds for 1 <= n <= 3.
   */
  lemma {:induction false} ConcatOfGeneralCurvesStopsAtThree<V>(n: int, derivs: seq<seq<seq<V>>>)
    requires derivs != []
    requires forall g :: 0 <= g < |derivs| ==> |derivs[g]| == ArrayCount(n)
    ensures (exists g :: 0 <= g < |derivs| && |derivs[g]| < n) <==> n > 3
  {
    if n > 3 {
      assert |derivs[0]| == 3 < n;
    } else {
      forall g | 0 <= g < |derivs|
        ensures |derivs[g]| >= n
      {
        assert |derivs[g]| == ArrayCount(n);
      }
    }
  }

  // ---------------------------------------------------------------------------
  // Arc-length solver

  /** n evenly spaced parameters from a to b, both included. */
  function Linspace(a: real, b: real, n: int): (r: Result<seq<real>>)
    ensures n < 0 <==> r == Failure(ValueError)
    ensures n >= 0 ==> r.Success?
    ensures r.Success? ==> |r.value| == n
    ensures r.Success? && n >= 1 ==> r.value[0] == a
    ensures r.Success? && n >= 2 ==> r.value[n - 1] == b
  {
    if n < 0 then Failure(ValueError)
    else if n == 1 then Success([a])
    else Success(seq(n, k requires 0 <= k < n => if k == n - 1 then b else a + (k as real) * (b - a) / ((n - 1) as real)))
  }

  datatype SplineMode = LinearSpline | CubicSpline

  /** The spline from arc length to curve parameter, through the points (lengths[k], tknots[k]). */
  datatype LengthSpline = LengthSpline(mode: SplineMode, lengths: seq<real>, tknots: seq<real>)

  /** The spline of the given mode; stacking lists of different lengths is a ValueError, an unknown mode an error. */
  function MakeSpline(mode: string, tknots: seq<real>, lengths: seq<real>): (r: Result<LengthSpline>)
    ensures |lengths| != |tknots| ==> r == Failure(ValueError)
    ensures |lengths| == |tknots| && mode == "LIN" ==> r == Success(LengthSpline(LinearSpline, lengths, tknots))
    ensures |lengths| == |tknots| && mode == "SPL" ==> r == Success(LengthSpline(CubicSpline, lengths, tknots))
    ensures |lengths| == |tknots| && mode != "LIN" && mode != "SPL" ==> r == Failure(GenericException)
  {
    if |lengths| != |tknots| then Failure(ValueError)
    else if mode == "LIN" then Success(LengthSpline(LinearSpline, lengths, tknots))
    else if mode == "SPL" then Success(LengthSpline(CubicSpline, lengths, tknots))
    else Failure(GenericException)
  }

  /**
   * Finds curve parameters by arc length. It must be prepared, which
   * samples the curve and builds the spline, before its total length or a
   * solution can be asked for.
   */
  class CurveLengthSolver {
    /** The bounds of the curve whose length is measured. */
    const uBounds: (real, real)
    var spline: Option<LengthSpline>
    var lengthParams: Option<seq<real>>

    ghost predicate Valid()
      reads this
    {
      spline.Some? ==> lengthParams.Some? && lengthParams.value != []
    }

    constructor (uBounds: (real, real))
      ensures Valid() && this.uBounds == uBounds && spline.None? && lengthParams.None?
    {
      this.uBounds := uBounds;
      spline := None;
      lengthParams := None;
    }

    /** The arc length of the whole curve: the last running total of the segment lengths. */
    function TotalLength(): (r: Result<real>)
      requires Valid()
      reads this
      ensures spline.None? <==> r == Failure(GenericException)
      ensures spline.Some? ==> r.Success?
      ensures r.Success? ==> r.value == lengthParams.value[|lengthParams.value| - 1]
    {
      if spline.None? then Failure(GenericException)
      else Success(lengthParams.value[|lengthParams.value| - 1])
    }

    /**
     * Samples the curve at resolution evenly spaced parameters, records the
     * running totals of the segment lengths between samples, then builds the
     * spline. Sampling may raise (a concatenated curve given no parameters
     * has nothing to join), and then nothing is recorded. The running totals
     * are recorded even when building the spline fails. The segment lengths
     * are distances between consecutive samples: one fewer than the samples,
     * none negative.
     */
    method Prepare(mode: string, resolution: int, segmentLengths: seq<real> -> Result<seq<real>>) returns (outcome: Outcome)
      requires Valid()
      requires forall ks: seq<real> :: segmentLengths(ks).Success? ==>
        |segmentLengths(ks).value| == (if ks == [] then 0 else |ks| - 1)
      requires forall ks: seq<real>, i :: segmentLengths(ks).Success? && 0 <= i < |segmentLengths(ks).value| ==>
        segmentLengths(ks).value[i] >= 0.0
      modifies this
      ensures Valid()
      ensures resolution < 0 ==> outcome == Fail(ValueError) && unchanged(this)
      ensures resolution >= 0 && segmentLengths(Linspace(uBounds.0, uBounds.1, resolution).value).Failure? ==>
        outcome == Fail(segmentLengths(Linspace(uBounds.0, uBounds.1, resolution).value).error) && unchanged(this)
      ensures resolution >= 0 && segmentLengths(Linspace(uBounds.0, uBounds.1, resolution).value).Success? ==>
        var tknots := Linspace(uBounds.0, uBounds.1, resolution).value;
        var totals := RunningTotals(segmentLengths(tknots).value);
        lengthParams == Some(totals) &&
        match MakeSpline(mode, tknots, totals)
        case Success(s) => outcome == Pass && spline == Some(s)
        case Failure(e) => outcome == Fail(e) && spline == old(spline)
      ensures resolution == 0 && segmentLengths([]).Success? ==> outcome == Fail(ValueError)
      ensures resolution >= 1 && segmentLengths(Linspace(uBounds.0, uBounds.1, resolution).value).Success? ==>
        ((mode == "LIN" || mode == "SPL") <==> outcome == Pass) &&
        (mode != "LIN" && mode != "SPL" ==> outcome == Fail(GenericException))
      ensures outcome.Pass? ==>
        forall i, j :: 0 <= i <= j < |lengthParams.value| ==> lengthParams.value[i] <= lengthParams.value[j]
      ensures outcome.Pass? ==>
        segmentLengths(Linspace(uBounds.0, uBounds.1, resolution).value).Success? &&
        TotalLength() == Success(Sum(segmentLengths(Linspace(uBounds.0, uBounds.1, resolution).value).value)) &&
        TotalLength().value >= 0.0
    {
      var tknots := Linspace(uBounds.0, uBounds.1, resolution);
      if tknots.Failure? {
        return Fail(tknots.error);
      }
      assert resolution == 0 ==> tknots.value == [];
      var sampled := segmentLengths(tknots.value);
      if sampled.Failure? {
        return Fail(sampled.error);
      }
      var lengths := sampled.value;
      lengthParams := Some(RunningTotals(lengths));
      var s := MakeSpline(mode, tknots.value, lengthParams.value);
      if s.Failure? {
        return Fail(s.error);
      }
      spline := Some(s.value);
      outcome := Pass;
      forall i, j | 0 <= i <= j < |lengthParams.value|
        ensures lengthParams.value[i] <= lengthParams.value[j]
      {
        RunningTotalsSorted(lengths, i, j);
      }
      RunningTotalsEndInSum(lengths);
      RunningTotalsSorted(lengths, 0, |lengths|);
    }

    /** The curve parameters at the given arc lengths, read off the prepared spline. */
    method Solve(inputLengths: seq<real>, evaluate: (LengthSpline, seq<real>) -> seq<real>) returns (r: Result<seq<real>>)
      ensures spline.None? <==> r == Failure(GenericException)
      ensures spline.Some? ==> r == Success(evaluate(spline.value, inputLengths))
    {
      if spline.None? {
        return Failure(GenericException);
      }
      r := Success(evaluate(spline.value, inputLengths));
    }
  }

  // ---------------------------------------------------------------------------
  // Curves from points, Bezier degree

  datatype Vec3 = Vec3(x: real, y: real, z: real)

  function Add(a: Vec3, b: Vec3): Vec3 { Vec3(a.x + b.x, a.y + b.y, a.z + b.z) }

  function Sub(a: Vec3, b: Vec3): Vec3 { Vec3(a.x - b.x, a.y - b.y, a.z - b.z) }

  function Scale(t: real, a: Vec3): Vec3 { Vec3(t * a.x, t * a.y, t * a.z) }

  datatype PointCurve =
    | Line(point: Vec3, direction: Vec3)
    | SplineCurve(points: seq<Vec3>, cyclic: bool)

  /** The point of a line at parameter t. */
  function LineAt(point: Vec3, direction: Vec3, t: real): Vec3
  {
    Add(point, Scale(t, direction))
  }

  /**
   * A curve through the given points: fewer than two is an error, two give
   * the line through them, more give a cubic spline through all of them.
   */
  function FromPoints(points: seq<Vec3>, cyclic: bool): (r: Result<PointCurve>)
    ensures |points| < 2 <==> r == Failure(GenericException)
    ensures |points| == 2 ==>
      r.Success? && r.value.Line? &&
      LineAt(r.value.point, r.value.direction, 0.0) == points[0] &&
      LineAt(r.value.point, r.value.direction, 1.0) == points[1]
    ensures |points| >= 3 ==> r == Success(SplineCurve(points, cyclic))
  {
    if points == [] || |points| < 2 then Failure(GenericException)
    else if |points| < 3 then Success(Line(points[0], Sub(points[1], points[0])))
    else Success(SplineCurve(points, cyclic))
  }

  datatype BezierCurve = BezierCurve(points: seq<Vec3>, degree: int)

  /** A Bezier curve has one control point more than its degree. */
  function NewBezierCurve(points: seq<Vec3>): (b: BezierCurve)
    ensures b.points == points && b.degree + 1 == |points|
  {
    BezierCurve(points, |points| - 1)
  }
}
