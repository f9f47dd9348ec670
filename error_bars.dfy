/** The segment lists behind the error-bar glyphs: one segment per point,
    horizontal for x errors and vertical for y errors. Drawing them is a
    foreign call; only the lists handed to it are modelled. */
module ErrorBars {
  import opened Common

  /** The arguments of one `multi_line` call: the x and y endpoint pairs of
      every segment, and its (initial) visibility. */
  datatype MultiLine = MultiLine(xs: seq<(real, real)>, ys: seq<(real, real)>, visible: bool)

  /** Python's zip of three lists stops at the shortest one. */
  function ZipLength(a: nat, b: nat, c: nat): (m: nat)
    ensures m <= a && m <= b && m <= c && (m == a || m == b || m == c)
  {
    if a <= b && a <= c then a else if b <= c then b else c
  }

  /** Reading a vertical error bar back: the point is the segment's x and
      the middle of its y range, the error half its height. */
  function VerticalCentres(g: MultiLine): (r: (seq<real>, seq<real>, seq<real>))
    requires |g.xs| == |g.ys|
    ensures |r.0| == |r.1| == |r.2| == |g.xs|
  {
    (seq(|g.xs|, k requires 0 <= k < |g.xs| => g.xs[k].0),
     seq(|g.xs|, k requires 0 <= k < |g.xs| => (g.ys[k].0 + g.ys[k].1) / 2.0),
     seq(|g.xs|, k requires 0 <= k < |g.xs| => (g.ys[k].1 - g.ys[k].0) / 2.0))
  }

  /** Reading a horizontal error bar back: the middle of its x range and
      the segment's y are the point, half its width is the error. */
  function HorizontalCentres(g: MultiLine): (r: (seq<real>, seq<real>, seq<real>))
    requires |g.xs| == |g.ys|
    ensures |r.0| == |r.1| == |r.2| == |g.xs|
  {
    (seq(|g.xs|, k requires 0 <= k < |g.xs| => (g.xs[k].0 + g.xs[k].1) / 2.0),
     seq(|g.xs|, k requires 0 <= k < |g.xs| => g.ys[k].0),
     seq(|g.xs|, k requires 0 <= k < |g.xs| => (g.xs[k].1 - g.xs[k].0) / 2.0))
  }

  /** errorbar: with y errors, segment k runs from (x[k], y[k] - e[k]) to
      (x[k], y[k] + e[k]); with only x errors it runs from
      (x[k] - e[k], y[k]) to (x[k] + e[k], y[k]). There is one segment per
      element of the shortest input, the glyph starts invisible, and
      reading the segments back gives the (truncated) inputs again. When
      both errors are given the y-error glyph is returned; with neither,
      None. */
  method ErrorBar(x: seq<real>, y: seq<real>, xerr: Option<seq<real>>, yerr: Option<seq<real>>)
    returns (h: Option<MultiLine>)
    ensures h.None? <==> xerr.None? && yerr.None?
    ensures h.Some? ==> |h.value.xs| == |h.value.ys| && !h.value.visible
    ensures yerr.Some? ==>
      var e, m := yerr.value, ZipLength(|x|, |y|, |yerr.value|);
      |h.value.xs| == m &&
      (forall k :: 0 <= k < m ==> h.value.xs[k] == (x[k], x[k]) && h.value.ys[k] == (y[k] - e[k], y[k] + e[k])) &&
      VerticalCentres(h.value) == (x[..m], y[..m], e[..m])
    ensures yerr.None? && xerr.Some? ==>
      var e, m := xerr.value, ZipLength(|x|, |y|, |xerr.value|);
      |h.value.xs| == m &&
      (forall k :: 0 <= k < m ==> h.value.xs[k] == (x[k] - e[k], x[k] + e[k]) && h.value.ys[k] == (y[k], y[k])) &&
      HorizontalCentres(h.value) == (x[..m], y[..m], e[..m])
  {
    h := None;
    if xerr.Some? {
      var e := xerr.value;
      var m := ZipLength(|x|, |y|, |e|);
      var xErrX: seq<(real, real)> := [];
      var xErrY: seq<(real, real)> := [];
      var k := 0;
      while k < m
        invariant 0 <= k <= m
        invariant |xErrX| == |xErrY| == k
        invariant forall i :: 0 <= i < k ==> xErrX[i] == (x[i] - e[i], x[i] + e[i]) && xErrY[i] == (y[i], y[i])
      {
        xErrX := xErrX + [(x[k] - e[k], x[k] + e[k])];
        xErrY := xErrY + [(y[k], y[k])];
        k := k + 1;
      }
      h := Some(MultiLine(xErrX, xErrY, false));
      HorizontalRoundTrip(h.value, x, y, e, m);
    }
    if yerr.Some? {
      var e := yerr.value;
      var m := ZipLength(|x|, |y|, |e|);
      var yErrX: seq<(real, real)> := [];
      var yErrY: seq<(real, real)> := [];
      var k := 0;
      while k < m
        invariant 0 <= k <= m
        invariant |yErrX| == |yErrY| == k
        invariant forall i :: 0 <= i < k ==> yErrX[i] == (x[i], x[i]) && yErrY[i] == (y[i] - e[i], y[i] + e[i])
      {
        yErrX := yErrX + [(x[k], x[k])];
        yErrY := yErrY + [(y[k] - e[k], y[k] + e[k])];
        k := k + 1;
      }
      h := Some(MultiLine(yErrX, yErrY, false));
      VerticalRoundTrip(h.value, x, y, e, m);
    }
  }

  lemma VerticalRoundTrip(g: MultiLine, x: seq<real>, y: seq<real>, e: seq<real>, m: nat)
    requires m <= |x| && m <= |y| && m <= |e| && |g.xs| == |g.ys| == m
    requires forall k :: 0 <= k < m ==> g.xs[k] == (x[k], x[k]) && g.ys[k] == (y[k] - e[k], y[k] + e[k])
    ensures VerticalCentres(g) == (x[..m], y[..m], e[..m])
  {
    var c := VerticalCentres(g);
    assert c.0 == x[..m];
    assert c.1 == y[..m];
    assert c.2 == e[..m];
  }

  lemma HorizontalRoundTrip(g: MultiLine, x: seq<real>, y: seq<real>, e: seq<real>, m: nat)
    requires m <= |x| && m <= |y| && m <= |e| && |g.xs| == |g.ys| == m
    requires forall k :: 0 <= k < m ==> g.xs[k] == (x[k] - e[k], x[k] + e[k]) && g.ys[k] == (y[k], y[k])
    ensures HorizontalCentres(g) == (x[..m], y[..m], e[..m])
  {
    var c := HorizontalCentres(g);
    assert c.0 == x[..m];
    assert c.1 == y[..m];
    assert c.2 == e[..m];
  }
}
