/** The axis extents of the two panels: a running minimum and maximum over
    all plotted antennas, then padding, then the command-line overrides. */
module AxisRanges {
  import opened Common

  datatype Extent = Extent(lo: real, hi: real)

  /** The shared x axis and the upper (y1) and lower (y2) panels. */
  datatype Extents = Extents(x: Extent, upper: Extent, lower: Extent)

  /** What the fold sees of one antenna: its relative times (a plain
      array) and its two derived series. */
  datatype AntennaData = AntennaData(times: seq<real>, y1: seq<Masked<real>>, y2: seq<Masked<real>>)

  /** The six bound options t0, t1, yl0, yl1, yu0, yu1. */
  datatype Overrides = Overrides(t0: real, t1: real, yl0: real, yl1: real, yu0: real, yu1: real)

  /** The option default that means "not given". */
  const Unset: real := -1.0

  /** The starting value of every running minimum (its negation starts
      every running maximum). */
  const Far: real := 100000000000000000000.0

  function Initial(): Extents {
    Extents(Extent(Far, -Far), Extent(Far, -Far), Extent(Far, -Far))
  }

  /** The options as parsed when none is given. */
  function NoOverrides(): Overrides {
    Overrides(Unset, Unset, Unset, Unset, Unset, Unset)
  }

  function Plain(s: seq<real>): (r: seq<Masked<real>>)
    ensures |r| == |s| && forall k :: 0 <= k < |s| ==> r[k] == Masked(s[k], false)
  {
    seq(|s|, k requires 0 <= k < |s| => Masked(s[k], false))
  }

  /** `np.min` of a masked array: the least unmasked value. When every
      entry is masked numpy returns the masked constant, which compares as
      false and so never lowers a bound: None here. */
  function Least(s: seq<Masked<real>>): (r: Option<real>)
    ensures r.None? <==> forall k :: 0 <= k < |s| ==> s[k].flag
    ensures r.Some? ==> exists k :: 0 <= k < |s| && !s[k].flag && s[k].value == r.value
    ensures r.Some? ==> forall k :: 0 <= k < |s| && !s[k].flag ==> r.value <= s[k].value
  {
    if |s| == 0 then None
    else
      var rest := Least(s[1..]);
      assert forall k :: 1 <= k < |s| ==> s[k] == s[1..][k - 1];
      if s[0].flag then rest
      else if rest.None? || s[0].value <= rest.value then Some(s[0].value)
      else rest
  }

  /** `np.max` of a masked array, symmetrically. */
  function Greatest(s: seq<Masked<real>>): (r: Option<real>)
    ensures r.None? <==> forall k :: 0 <= k < |s| ==> s[k].flag
    ensures r.Some? ==> exists k :: 0 <= k < |s| && !s[k].flag && s[k].value == r.value
    ensures r.Some? ==> forall k :: 0 <= k < |s| && !s[k].flag ==> s[k].value <= r.value
  {
    if |s| == 0 then None
    else
      var rest := Greatest(s[1..]);
      assert forall k :: 1 <= k < |s| ==> s[k] == s[1..][k - 1];
      if s[0].flag then rest
      else if rest.None? || s[0].value >= rest.value then Some(s[0].value)
      else rest
  }

  /** `if np.min(s) < lo: lo = np.min(s)` and the same for the maximum. */
  function Widen(e: Extent, s: seq<Masked<real>>): (r: Extent)
    ensures Encloses(r, e)
    ensures forall k :: 0 <= k < |s| && !s[k].flag ==> Within(s[k].value, r)
    ensures r.lo == e.lo || exists k :: 0 <= k < |s| && !s[k].flag && s[k].value == r.lo
    ensures r.hi == e.hi || exists k :: 0 <= k < |s| && !s[k].flag && s[k].value == r.hi
    ensures (forall k :: 0 <= k < |s| ==> s[k].flag) ==> r == e
  {
    var lo := Least(s);
    var hi := Greatest(s);
    Extent(if lo.Some? && lo.value < e.lo then lo.value else e.lo,
           if hi.Some? && hi.value > e.hi then hi.value else e.hi)
  }

  /** The two comparisons the antenna loop makes for one pair of bounds. */
  method CompareBounds(e: Extent, s: seq<Masked<real>>) returns (r: Extent)
    ensures r == Widen(e, s)
  {
    var lo, hi := e.lo, e.hi;
    var mn, mx := Least(s), Greatest(s);
    if mn.Some? && mn.value < lo { lo := mn.value; }
    if mx.Some? && mx.value > hi { hi := mx.value; }
    r := Extent(lo, hi);
  }

  /** One pass of the antenna loop's extent updates. The x extent always
      comes from the times, whatever the table kind. */
  function Observe(e: Extents, a: AntennaData): (r: Extents)
    ensures Encloses(r.x, e.x) && Encloses(r.upper, e.upper) && Encloses(r.lower, e.lower)
    ensures (forall k :: 0 <= k < |a.y1| ==> a.y1[k].flag) ==> r.upper == e.upper
    ensures (forall k :: 0 <= k < |a.y2| ==> a.y2[k].flag) ==> r.lower == e.lower
  {
    Extents(Widen(e.x, Plain(a.times)), Widen(e.upper, a.y1), Widen(e.lower, a.y2))
  }

  /** A left fold: the state after feeding the items to step in order. */
  function Fold<S, A>(step: (S, A) -> S, e: S, items: seq<A>): S
    decreases |items|
  {
    if items == [] then e else Fold(step, step(e, items[0]), items[1..])
  }

  /** The antenna loop, in antenna order. */
  function ObserveAll(e: Extents, ants: seq<AntennaData>): Extents {
    Fold(Observe, e, ants)
  }

  /** numpy raises on the minimum of an empty array, so the fold needs
      every series non-empty. */
  predicate Reducible(a: AntennaData) {
    |a.times| > 0 && |a.y1| > 0 && |a.y2| > 0
  }

  /** The y padding: a negative minimum moves away from zero by 10%, any
      other minimum towards zero by 10%; the maximum is scaled by 1.1
      whatever its sign. */
  function PadY(e: Extent): Extent {
    Extent(if e.lo < 0.0 then -1.0 * (1.1 * Abs(e.lo)) else e.lo * 0.9, e.hi * 1.1)
  }

  function Abs(r: real): real { if r < 0.0 then -r else r }

  /** The x axis gets 400 on each side, the y axes PadY. */
  function Pad(e: Extents): Extents {
    Extents(Extent(e.x.lo - 400.0, e.x.hi + 400.0), PadY(e.upper), PadY(e.lower))
  }

  function Choose(option: real, computed: real): real {
    if option != Unset then option else computed
  }

  /** Every option that is not -1 replaces its bound outright. */
  function Override(e: Extents, o: Overrides): Extents {
    Extents(Extent(Choose(o.t0, e.x.lo), Choose(o.t1, e.x.hi)),
            Extent(Choose(o.yu0, e.upper.lo), Choose(o.yu1, e.upper.hi)),
            Extent(Choose(o.yl0, e.lower.lo), Choose(o.yl1, e.lower.hi)))
  }

  /** The running bounds of the plot, as the six locals of the antenna
      loop. */
  class AxisAccumulator {
    var xmin: real
    var xmax: real
    var yumin: real
    var yumax: real
    var ylmin: real
    var ylmax: real

    function State(): Extents
      reads this
    {
      Extents(Extent(xmin, xmax), Extent(yumin, yumax), Extent(ylmin, ylmax))
    }

    constructor ()
      ensures State() == Initial()
    {
      xmin, xmax := Far, -Far;
      ylmin, ylmax := Far, -Far;
      yumin, yumax := Far, -Far;
    }

    /** The six comparisons at the end of one antenna's iteration. */
    method Add(a: AntennaData)
      requires Reducible(a)
      modifies this
      ensures State() == Observe(old(State()), a)
    {
      var x := CompareBounds(Extent(xmin, xmax), Plain(a.times));
      var u := CompareBounds(Extent(yumin, yumax), a.y1);
      var l := CompareBounds(Extent(ylmin, ylmax), a.y2);
      xmin, xmax, yumin, yumax, ylmin, ylmax := x.lo, x.hi, u.lo, u.hi, l.lo, l.hi;
    }

    /** The loop over the plotted antennas. */
    method AddAll(ants: seq<AntennaData>)
      requires forall i :: 0 <= i < |ants| ==> Reducible(ants[i])
      modifies this
      ensures State() == ObserveAll(old(State()), ants)
    {
      var i := 0;
      while i < |ants|
        invariant 0 <= i <= |ants|
        invariant ObserveAll(old(State()), ants) == ObserveAll(State(), ants[i..])
      {
        assert ants[i..][1..] == ants[i + 1..];
        Add(ants[i]);
        i := i + 1;
      }
    }

    /** The padding step after the loop. */
    method ApplyPadding()
      modifies this
      ensures State() == Pad(old(State()))
    {
      xmin := xmin - 400.0;
      xmax := xmax + 400.0;
      if yumin < 0.0 {
        yumin := -1.0 * (1.1 * Abs(yumin));
      } else {
        yumin := yumin * 0.9;
      }
      yumax := yumax * 1.1;
      if ylmin < 0.0 {
        ylmin := -1.0 * (1.1 * Abs(ylmin));
      } else {
        ylmin := ylmin * 0.9;
      }
      ylmax := ylmax * 1.1;
    }

    /** The six override tests. */
    method ApplyOverrides(o: Overrides)
      modifies this
      ensures State() == Override(old(State()), o)
    {
      if o.t0 != Unset { xmin := o.t0; }
      if o.t1 != Unset { xmax := o.t1; }
      if o.yl0 != Unset { ylmin := o.yl0; }
      if o.yl1 != Unset { ylmax := o.yl1; }
      if o.yu0 != Unset { yumin := o.yu0; }
      if o.yu1 != Unset { yumax := o.yu1; }
    }
  }

  /** The bounds of all three axes, as they stand after the whole
      computation. */
  function Finalize(ants: seq<AntennaData>, o: Overrides): Extents {
    Override(Pad(ObserveAll(Initial(), ants)), o)
  }

  /** Two antennas can be folded in either order. */
  lemma ObserveCommutes(e: Extents, a: AntennaData, b: AntennaData)
    ensures Observe(Observe(e, a), b) == Observe(Observe(e, b), a)
  {
  }

  /** Folding the same antenna again changes nothing. */
  lemma ObserveIdempotent(e: Extents, a: AntennaData)
    ensures Observe(Observe(e, a), a) == Observe(e, a)
  {
  }

  /** Moving one item to the front of a fold whose steps commute. */
  lemma {:induction false} FoldMoveToFront<S, A>(step: (S, A) -> S, e: S, t1: seq<A>, a: A, t2: seq<A>)
    requires forall x, b, c :: step(step(x, b), c) == step(step(x, c), b)
    ensures Fold(step, e, t1 + [a] + t2) == Fold(step, step(e, a), t1 + t2)
    decreases |t1|
  {
    if t1 == [] {
      assert t1 + [a] + t2 == [a] + t2 && t1 + t2 == t2;
      assert ([a] + t2)[1..] == t2;
    } else {
      var b := t1[0];
      assert (t1 + [a] + t2)[1..] == t1[1..] + [a] + t2;
      assert (t1 + t2)[0] == b && (t1 + t2)[1..] == t1[1..] + t2;
      FoldMoveToFront(step, step(e, b), t1[1..], a, t2);
    }
  }

  /** A fold whose steps commute does not depend on the order of the
      items. */
  lemma {:induction false} FoldPermutation<S, A>(step: (S, A) -> S, e: S, s: seq<A>, t: seq<A>)
    requires forall x, b, c :: step(step(x, b), c) == step(step(x, c), b)
    requires multiset(s) == multiset(t)
    ensures Fold(step, e, s) == Fold(step, e, t)
    decreases |s|
  {
    if s == [] {
      assert |t| == |multiset(t)| == 0;
    } else {
      var a := s[0];
      assert a in multiset(t);
      var i :| 0 <= i < |t| && t[i] == a;
      assert t == t[..i] + [a] + t[i + 1..];
      FoldMoveToFront(step, e, t[..i], a, t[i + 1..]);
      assert s == [a] + s[1..];
      assert multiset(s) == multiset([a]) + multiset(s[1..]);
      assert multiset(t) == multiset(t[..i]) + multiset([a]) + multiset(t[i + 1..]);
      assert multiset(t[..i] + t[i + 1..]) == multiset(t[..i]) + multiset(t[i + 1..]);
      assert multiset(s[1..]) == multiset(s) - multiset([a]);
      assert multiset(t[..i] + t[i + 1..]) == multiset(t) - multiset([a]);
      FoldPermutation(step, step(e, a), s[1..], t[..i] + t[i + 1..]);
    }
  }

  lemma ObserveStepsCommute()
    ensures forall x, b, c :: Observe(Observe(x, b), c) == Observe(Observe(x, c), b)
  {
    forall x, b, c ensures Observe(Observe(x, b), c) == Observe(Observe(x, c), b) {
      ObserveCommutes(x, b, c);
    }
  }

  /** The fold is insensitive to the order of the antennas. */
  lemma ObserveAllPermutation(e: Extents, s: seq<AntennaData>, t: seq<AntennaData>)
    requires multiset(s) == multiset(t)
    ensures ObserveAll(e, s) == ObserveAll(e, t)
  {
    ObserveStepsCommute();
    FoldPermutation(Observe, e, s, t);
  }

  /** Folding an antenna that was already folded changes nothing. */
  lemma {:induction false} ObserveAllRefold(e: Extents, s: seq<AntennaData>, a: AntennaData)
    requires a in s
    ensures ObserveAll(e, s + [a]) == ObserveAll(e, s)
  {
    var i :| 0 <= i < |s| && s[i] == a;
    var s1, s2 := s[..i], s[i + 1..];
    assert s == s1 + [a] + s2;
    ObserveStepsCommute();
    FoldPermutation(Observe, e, s + [a], [a] + s);
    assert ([a] + s)[1..] == s;
    FoldMoveToFront(Observe, Observe(e, a), s1, a, s2);
    ObserveIdempotent(e, a);
    FoldMoveToFront(Observe, e, s1, a, s2);
  }

  predicate Within(v: real, e: Extent) { e.lo <= v <= e.hi }

  predicate Encloses(outer: Extent, inner: Extent) { outer.lo <= inner.lo && inner.hi <= outer.hi }

  /** The folded extents contain the starting extents and every time and
      every unflagged y1 and y2 value of every folded antenna. */
  lemma ObserveAllBounds(e: Extents, ants: seq<AntennaData>)
    ensures var r := ObserveAll(e, ants);
      Encloses(r.x, e.x) && Encloses(r.upper, e.upper) && Encloses(r.lower, e.lower)
    ensures var r := ObserveAll(e, ants);
      forall i, k :: 0 <= i < |ants| && 0 <= k < |ants[i].times| ==> Within(ants[i].times[k], r.x)
    ensures var r := ObserveAll(e, ants);
      forall i, k :: 0 <= i < |ants| && 0 <= k < |ants[i].y1| && !ants[i].y1[k].flag ==> Within(ants[i].y1[k].value, r.upper)
    ensures var r := ObserveAll(e, ants);
      forall i, k :: 0 <= i < |ants| && 0 <= k < |ants[i].y2| && !ants[i].y2[k].flag ==> Within(ants[i].y2[k].value, r.lower)
  {
    ObserveAllTimeBounds(e, ants);
    ObserveAllUpperBounds(e, ants);
    ObserveAllLowerBounds(e, ants);
  }

  lemma {:induction false} ObserveAllTimeBounds(e: Extents, ants: seq<AntennaData>)
    ensures var r := ObserveAll(e, ants);
      Encloses(r.x, e.x) &&
      forall i, k :: 0 <= i < |ants| && 0 <= k < |ants[i].times| ==> Within(ants[i].times[k], r.x)
    decreases |ants|
  {
    if ants != [] {
      var a := ants[0];
      var e1 := Observe(e, a);
      ObserveAllTimeBounds(e1, ants[1..]);
      var r := ObserveAll(e1, ants[1..]);
      assert r == ObserveAll(e, ants);
      forall i, k | 0 <= i < |ants| && 0 <= k < |ants[i].times| ensures Within(ants[i].times[k], r.x) {
        if i == 0 {
          assert Plain(a.times)[k] == Masked(a.times[k], false);
        } else {
          assert ants[i] == ants[1..][i - 1];
        }
      }
    }
  }

  lemma {:induction false} ObserveAllUpperBounds(e: Extents, ants: seq<AntennaData>)
    ensures var r := ObserveAll(e, ants);
      Encloses(r.upper, e.upper) &&
      forall i, k :: 0 <= i < |ants| && 0 <= k < |ants[i].y1| && !ants[i].y1[k].flag ==> Within(ants[i].y1[k].value, r.upper)
    decreases |ants|
  {
    if ants != [] {
      var e1 := Observe(e, ants[0]);
      ObserveAllUpperBounds(e1, ants[1..]);
      var r := ObserveAll(e1, ants[1..]);
      assert r == ObserveAll(e, ants);
      forall i, k | 0 <= i < |ants| && 0 <= k < |ants[i].y1| && !ants[i].y1[k].flag
        ensures Within(ants[i].y1[k].value, r.upper)
      {
        if i == 0 {
          assert Within(ants[0].y1[k].value, e1.upper);
        } else {
          assert ants[i] == ants[1..][i - 1];
        }
      }
    }
  }

  lemma {:induction false} ObserveAllLowerBounds(e: Extents, ants: seq<AntennaData>)
    ensures var r := ObserveAll(e, ants);
      Encloses(r.lower, e.lower) &&
      forall i, k :: 0 <= i < |ants| && 0 <= k < |ants[i].y2| && !ants[i].y2[k].flag ==> Within(ants[i].y2[k].value, r.lower)
    decreases |ants|
  {
    if ants != [] {
      var e1 := Observe(e, ants[0]);
      ObserveAllLowerBounds(e1, ants[1..]);
      var r := ObserveAll(e1, ants[1..]);
      assert r == ObserveAll(e, ants);
      forall i, k | 0 <= i < |ants| && 0 <= k < |ants[i].y2| && !ants[i].y2[k].flag
        ensures Within(ants[i].y2[k].value, r.lower)
      {
        if i == 0 {
          assert Within(ants[0].y2[k].value, e1.lower);
        } else {
          assert ants[i] == ants[1..][i - 1];
        }
      }
    }
  }

  /** For the upper panel's minimum: when the fold moved it at all, the
      new bound is an unflagged y1 value of a folded antenna. */
  lemma {:induction false} ObserveAllUpperLoAttained(e: Extents, ants: seq<AntennaData>)
    ensures var r := ObserveAll(e, ants);
      r.upper.lo == e.upper.lo ||
      exists i, k :: 0 <= i < |ants| && 0 <= k < |ants[i].y1| && !ants[i].y1[k].flag &&
                     ants[i].y1[k].value == r.upper.lo
    decreases |ants|
  {
    if ants != [] {
      var a := ants[0];
      ObserveAllUpperLoAttained(Observe(e, a), ants[1..]);
      var r := ObserveAll(e, ants);
      if r.upper.lo != e.upper.lo {
        if r.upper.lo == Observe(e, a).upper.lo {
          var k :| 0 <= k < |a.y1| && !a.y1[k].flag && a.y1[k].value == Least(a.y1).value;
          assert ants[0].y1[k].value == r.upper.lo;
        } else {
          var i, k :| 0 <= i < |ants[1..]| && 0 <= k < |ants[1..][i].y1| && !ants[1..][i].y1[k].flag &&
                      ants[1..][i].y1[k].value == r.upper.lo;
          assert ants[i + 1] == ants[1..][i];
        }
      }
    }
  }

  /** Padding never narrows the x axis or raises a minimum, and a
      non-negative maximum is never lowered. */
  lemma PadWidens(e: Extents)
    ensures Pad(e).x == Extent(e.x.lo - 400.0, e.x.hi + 400.0)
    ensures Pad(e).upper.lo <= e.upper.lo && Pad(e).lower.lo <= e.lower.lo
    ensures e.upper.hi >= 0.0 ==> Pad(e).upper.hi >= e.upper.hi
    ensures e.lower.hi >= 0.0 ==> Pad(e).lower.hi >= e.lower.hi
  {
  }

  /** A negative maximum is scaled by 1.1 too, which moves it below the
      data: when every value of a panel is negative, the points at the
      maximum fall outside the padded range. */
  lemma PadClipsNegativeMax(ants: seq<AntennaData>, i: nat, k: nat)
    requires i < |ants| && k < |ants[i].y1| && !ants[i].y1[k].flag
    requires ants[i].y1[k].value == ObserveAll(Initial(), ants).upper.hi < 0.0
    ensures !Within(ants[i].y1[k].value, Pad(ObserveAll(Initial(), ants)).upper)
  {
  }

  /** A negative minimum and a positive one both move outwards by 10% of
      their magnitude. */
  lemma PadLoIsTenPercentOut(e: Extent)
    ensures PadY(e).lo == e.lo - 0.1 * Abs(e.lo) || PadY(e).lo == e.lo * 0.9
    ensures e.lo < 0.0 ==> PadY(e).lo == 1.1 * e.lo
    ensures e.lo >= 0.0 ==> PadY(e).lo == e.lo - 0.1 * Abs(e.lo)
  {
  }

  /** A panel whose every sample is flagged keeps its running bounds at
      their starting values, since each masked np.min and np.max compares
      false. */
  lemma {:induction false} FlaggedUpperUntouched(e: Extents, ants: seq<AntennaData>)
    requires forall i, k :: 0 <= i < |ants| && 0 <= k < |ants[i].y1| ==> ants[i].y1[k].flag
    ensures ObserveAll(e, ants).upper == e.upper
    decreases |ants|
  {
    if ants != [] {
      assert forall i :: 1 <= i < |ants| ==> ants[1..][i - 1] == ants[i];
      FlaggedUpperUntouched(Observe(e, ants[0]), ants[1..]);
    }
  }

  lemma {:induction false} FlaggedLowerUntouched(e: Extents, ants: seq<AntennaData>)
    requires forall i, k :: 0 <= i < |ants| && 0 <= k < |ants[i].y2| ==> ants[i].y2[k].flag
    ensures ObserveAll(e, ants).lower == e.lower
    decreases |ants|
  {
    if ants != [] {
      assert forall i :: 1 <= i < |ants| ==> ants[1..][i - 1] == ants[i];
      FlaggedLowerUntouched(Observe(e, ants[0]), ants[1..]);
    }
  }

  /** When every y1 sample of every plotted antenna is flagged, the padded
      upper range keeps its minimum above its maximum (0.9e20 against
      -1.1e20), and so does the lower range for y2; without a yu (yl)
      option it reaches the figure inverted. */
  lemma AllFlaggedInvertsRange(ants: seq<AntennaData>, o: Overrides)
    ensures (forall i, k :: 0 <= i < |ants| && 0 <= k < |ants[i].y1| ==> ants[i].y1[k].flag) ==>
      Pad(ObserveAll(Initial(), ants)).upper.lo > Pad(ObserveAll(Initial(), ants)).upper.hi &&
      (o.yu0 == Unset && o.yu1 == Unset ==> Finalize(ants, o).upper.lo > Finalize(ants, o).upper.hi)
    ensures (forall i, k :: 0 <= i < |ants| && 0 <= k < |ants[i].y2| ==> ants[i].y2[k].flag) ==>
      Pad(ObserveAll(Initial(), ants)).lower.lo > Pad(ObserveAll(Initial(), ants)).lower.hi &&
      (o.yl0 == Unset && o.yl1 == Unset ==> Finalize(ants, o).lower.lo > Finalize(ants, o).lower.hi)
  {
    if forall i, k :: 0 <= i < |ants| && 0 <= k < |ants[i].y1| ==> ants[i].y1[k].flag {
      FlaggedUpperUntouched(Initial(), ants);
    }
    if forall i, k :: 0 <= i < |ants| && 0 <= k < |ants[i].y2| ==> ants[i].y2[k].flag {
      FlaggedLowerUntouched(Initial(), ants);
    }
  }

  /** When all six options are given the result does not depend on the
      data; overriding twice is overriding once; with no option given
      nothing changes. */
  lemma OverrideProperties(e: Extents, f: Extents, o: Overrides)
    ensures (o.t0 != Unset && o.t1 != Unset && o.yl0 != Unset && o.yl1 != Unset &&
             o.yu0 != Unset && o.yu1 != Unset) ==> Override(e, o) == Override(f, o)
    ensures Override(Override(e, o), o) == Override(e, o)
    ensures Override(e, NoOverrides()) == e
  {
  }

  /** Explicit lower-panel bounds are the finished lower range, whatever
      was observed. */
  lemma LowerOverridesWin(ants: seq<AntennaData>, o: Overrides)
    requires o.yl0 != Unset && o.yl1 != Unset
    ensures Finalize(ants, o).lower == Extent(o.yl0, o.yl1)
  {
  }

  /** The finished ranges depend only on which antennas are plotted, not
      on their order or on repetitions. */
  lemma FinalizeOrderInsensitive(s: seq<AntennaData>, t: seq<AntennaData>, o: Overrides)
    requires multiset(s) == multiset(t)
    ensures Finalize(s, o) == Finalize(t, o)
  {
    ObserveAllPermutation(Initial(), s, t);
  }
}
