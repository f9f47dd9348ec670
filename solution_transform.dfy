/** The per-kind solution transforms: which slice of the
    [row, channel, correlation] masked array each table kind plots, and
    which derived quantity fills each of the four output slots
    (y1, y1 error, y2, y2 error). */
module SolutionTransform {
  import opened Common

  /** A numpy array of shape (|rows|, chans, corrs). */
  datatype Cube<T> = Cube(chans: nat, corrs: nat, rows: seq<seq<seq<T>>>) {
    predicate Shaped() {
      forall r :: 0 <= r < |rows| ==>
        |rows[r]| == chans && forall ch :: 0 <= ch < chans ==> |rows[r][ch]| == corrs
    }
  }

  /** The numpy numerics the transforms call, left uninterpreted: the
      elementwise magnitude, phase angle, real and imaginary part of a
      solution value, phase unwrapping (element k of the unwrapped
      sequence) and radian-to-degree conversion. */
  datatype Numerics<!C> = Numerics(
    abs: C -> real,
    angle: C -> real,
    re: C -> real,
    im: C -> real,
    unwrap: (seq<Masked<real>>, nat) -> Masked<real>,
    rad2deg: real -> real)

  /** The four outputs of data_prep_G and data_prep_B; y2Err None is
      Python's None. */
  datatype Series = Series(y1: seq<Masked<real>>, y1Err: seq<Masked<real>>,
                           y2: seq<Masked<real>>, y2Err: Option<seq<Masked<real>>>)

  /** The four outputs of data_prep_K: two plain columns and, twice, the
      whole error array. */
  datatype DelaySeries<T> = DelaySeries(y1: seq<Masked<T>>, y1Err: Cube<Masked<T>>,
                                        y2: seq<Masked<T>>, y2Err: Cube<Masked<T>>)

  /** `a[:, ch, co]`: one entry per row. */
  function Column<T>(a: Cube<T>, ch: nat, co: nat): (s: seq<T>)
    requires a.Shaped() && ch < a.chans && co < a.corrs
    ensures |s| == |a.rows| && forall r :: 0 <= r < |a.rows| ==> s[r] == a.rows[r][ch][co]
  {
    seq(|a.rows|, r requires 0 <= r < |a.rows| => a.rows[r][ch][co])
  }

  /** `a[row, :, co]`: one entry per channel of the given row. */
  function Channels<T>(a: Cube<T>, row: nat, co: nat): (s: seq<T>)
    requires a.Shaped() && row < |a.rows| && co < a.corrs
    ensures |s| == a.chans && forall ch :: 0 <= ch < a.chans ==> s[ch] == a.rows[row][ch][co]
  {
    seq(a.chans, ch requires 0 <= ch < a.chans => a.rows[row][ch][co])
  }

  /** An elementwise numpy function on a masked array: the mask is kept. */
  function Apply<C>(f: C -> real, s: seq<Masked<C>>): (r: seq<Masked<real>>)
    ensures |r| == |s|
    ensures forall k :: 0 <= k < |s| ==> r[k] == Masked(f(s[k].value), s[k].flag)
  {
    seq(|s|, k requires 0 <= k < |s| => Masked(f(s[k].value), s[k].flag))
  }

  /** np.unwrap of a one-dimensional array; its shape is kept. */
  function Unwrap<C>(ops: Numerics<C>, s: seq<Masked<real>>): (r: seq<Masked<real>>)
    ensures |r| == |s|
  {
    seq(|s|, k requires 0 <= k < |s| => ops.unwrap(s, k))
  }

  /** The mode string that selects amplitude and phase. */
  const AmpPhase := "ap"

  /** Both arrays admit `[:, 0, corr]`: a channel 0 and a correlation
      `corr` in Python's sense. */
  predicate GainIndexable<T>(a: Cube<T>, corr: int) {
    a.chans > 0 && PyIndex(corr, a.corrs).Some?
  }

  /** Both arrays admit `[0, :, corr]`. */
  predicate BandpassIndexable<T>(a: Cube<T>, corr: int) {
    |a.rows| > 0 && PyIndex(corr, a.corrs).Some?
  }

  /** data_prep_G: the gain solutions of channel 0 at correlation corr,
      one per row (time). Amplitude and unwrapped phase in degrees for
      "ap", real and imaginary part for any other mode; the y1 error is
      the magnitude of the error in both modes and there is never a y2
      error. An index numpy rejects is an IndexError. */
  function DataPrepG<C>(ops: Numerics<C>, data: Cube<Masked<C>>, err: Cube<Masked<C>>,
                        doplot: string, corr: int): (r: Result<Series>)
    requires data.Shaped() && err.Shaped()
    ensures r.Ok? <==> GainIndexable(data, corr) && GainIndexable(err, corr)
    ensures r.Err? ==> r.halt == IndexError
    ensures r.Ok? ==>
      var c, ce := PyIndex(corr, data.corrs).value, PyIndex(corr, err.corrs).value;
      var s := r.value;
      |s.y1| == |s.y2| == |data.rows| && |s.y1Err| == |err.rows| && s.y2Err == None &&
      (forall k :: 0 <= k < |err.rows| ==>
        s.y1Err[k] == Masked(ops.abs(err.rows[k][0][ce].value), err.rows[k][0][ce].flag)) &&
      (doplot == AmpPhase ==>
        (forall k :: 0 <= k < |data.rows| ==>
          s.y1[k] == Masked(ops.abs(data.rows[k][0][c].value), data.rows[k][0][c].flag)) &&
        s.y2 == Apply(ops.rad2deg, Unwrap(ops, Apply(ops.angle, Column(data, 0, c))))) &&
      (doplot != AmpPhase ==>
        forall k :: 0 <= k < |data.rows| ==>
          s.y1[k] == Masked(ops.re(data.rows[k][0][c].value), data.rows[k][0][c].flag) &&
          s.y2[k] == Masked(ops.im(data.rows[k][0][c].value), data.rows[k][0][c].flag))
  {
    if !GainIndexable(data, corr) || !GainIndexable(err, corr) then Err(IndexError)
    else
      var c, ce := PyIndex(corr, data.corrs).value, PyIndex(corr, err.corrs).value;
      var col, ecol := Column(data, 0, c), Column(err, 0, ce);
      if doplot == AmpPhase then
        Ok(Series(Apply(ops.abs, col), Apply(ops.abs, ecol),
                  Apply(ops.rad2deg, Unwrap(ops, Apply(ops.angle, col))), None))
      else
        Ok(Series(Apply(ops.re, col), Apply(ops.abs, ecol), Apply(ops.im, col), None))
  }

  /** data_prep_B: the bandpass solutions of row 0 at correlation corr,
      one per channel. The same quantities as for a gain table, except
      that for "ap" the phase is taken out of the masked array before it
      is unwrapped, and the y2 error is the unwrapped phase of the error
      in degrees (again taken out of the masked array). */
  function DataPrepB<C>(ops: Numerics<C>, data: Cube<Masked<C>>, err: Cube<Masked<C>>,
                        doplot: string, corr: int): (r: Result<Series>)
    requires data.Shaped() && err.Shaped()
    ensures r.Ok? <==> BandpassIndexable(data, corr) && BandpassIndexable(err, corr)
    ensures r.Err? ==> r.halt == IndexError
    ensures r.Ok? ==>
      var c, ce := PyIndex(corr, data.corrs).value, PyIndex(corr, err.corrs).value;
      var s := r.value;
      |s.y1| == |s.y2| == data.chans && |s.y1Err| == err.chans &&
      (s.y2Err.Some? <==> doplot == AmpPhase) &&
      (forall ch :: 0 <= ch < err.chans ==>
        s.y1Err[ch] == Masked(ops.abs(err.rows[0][ch][ce].value), err.rows[0][ch][ce].flag)) &&
      (doplot == AmpPhase ==>
        (forall ch :: 0 <= ch < data.chans ==>
          s.y1[ch] == Masked(ops.abs(data.rows[0][ch][c].value), data.rows[0][ch][c].flag)) &&
        s.y2 == Apply(ops.rad2deg, Unwrap(ops, Unmask(Apply(ops.angle, Channels(data, 0, c))))) &&
        s.y2Err == Some(Apply(ops.rad2deg, Unwrap(ops, Unmask(Apply(ops.angle, Channels(err, 0, ce))))))) &&
      (doplot != AmpPhase ==>
        forall ch :: 0 <= ch < data.chans ==>
          s.y1[ch] == Masked(ops.re(data.rows[0][ch][c].value), data.rows[0][ch][c].flag) &&
          s.y2[ch] == Masked(ops.im(data.rows[0][ch][c].value), data.rows[0][ch][c].flag))
  {
    if !BandpassIndexable(data, corr) || !BandpassIndexable(err, corr) then Err(IndexError)
    else
      var c, ce := PyIndex(corr, data.corrs).value, PyIndex(corr, err.corrs).value;
      var chans, echans := Channels(data, 0, c), Channels(err, 0, ce);
      if doplot == AmpPhase then
        Ok(Series(Apply(ops.abs, chans), Apply(ops.abs, echans),
                  Apply(ops.rad2deg, Unwrap(ops, Unmask(Apply(ops.angle, chans)))),
                  Some(Apply(ops.rad2deg, Unwrap(ops, Unmask(Apply(ops.angle, echans)))))))
      else
        Ok(Series(Apply(ops.re, chans), Apply(ops.abs, echans), Apply(ops.im, chans), None))
  }

  /** `int(not corr)`: 1 for correlation 0, 0 for every other one. */
  function OtherCorr(corr: int): (o: nat)
    ensures o == 0 || o == 1
    ensures (o == 1) <==> (corr == 0)
  {
    if corr == 0 then 1 else 0
  }

  /** data_prep_K: y1 is channel 0 at correlation corr, y2 channel 0 at
      correlation `int(not corr)`, both turned into plain arrays (np.array
      drops the mask); both error outputs are the error array itself. */
  function DataPrepK<T>(data: Cube<Masked<T>>, err: Cube<Masked<T>>, corr: int): (r: Result<DelaySeries<T>>)
    requires data.Shaped()
    ensures r.Ok? <==> GainIndexable(data, corr) && OtherCorr(corr) < data.corrs
    ensures r.Err? ==> r.halt == IndexError
    ensures r.Ok? ==>
      var c, o := PyIndex(corr, data.corrs).value, OtherCorr(corr);
      var s := r.value;
      s.y1Err == err && s.y2Err == err &&
      |s.y1| == |s.y2| == |data.rows| &&
      forall k :: 0 <= k < |data.rows| ==>
        s.y1[k] == Masked(data.rows[k][0][c].value, false) &&
        s.y2[k] == Masked(data.rows[k][0][o].value, false)
  {
    if !GainIndexable(data, corr) || OtherCorr(corr) >= data.corrs then Err(IndexError)
    else
      var c := PyIndex(corr, data.corrs).value;
      Ok(DelaySeries(Unmask(Column(data, 0, c)), err, Unmask(Column(data, 0, OtherCorr(corr))), err))
  }

  /** Swapping the row and channel axes of a shaped array. */
  function Transpose<T>(a: Cube<T>): (t: Cube<T>)
    requires a.Shaped()
    ensures t.Shaped() && |t.rows| == a.chans && t.chans == |a.rows| && t.corrs == a.corrs
    ensures forall ch, r, co :: 0 <= ch < a.chans && 0 <= r < |a.rows| && 0 <= co < a.corrs ==>
      t.rows[ch][r][co] == a.rows[r][ch][co]
  {
    Cube(|a.rows|, a.corrs,
         seq(a.chans, ch requires 0 <= ch < a.chans =>
           seq(|a.rows|, r requires 0 <= r < |a.rows| => a.rows[r][ch])))
  }

  /** The bandpass transform is the gain transform with rows and channels
      exchanged: the same failures, the same y1 and y1 error, and in
      real/imaginary mode the same y2. In "ap" mode the two differ only in
      that the bandpass phase loses its mask before it is unwrapped. */
  lemma {:induction false} BandpassIsGainTransposed<C>(ops: Numerics<C>, data: Cube<Masked<C>>,
                                                       err: Cube<Masked<C>>, doplot: string, corr: int)
    requires data.Shaped() && err.Shaped()
    ensures var b, g := DataPrepB(ops, data, err, doplot, corr),
                        DataPrepG(ops, Transpose(data), Transpose(err), doplot, corr);
      (b.Ok? <==> g.Ok?) &&
      (b.Ok? ==> b.value.y1 == g.value.y1 && b.value.y1Err == g.value.y1Err) &&
      (b.Ok? && doplot != AmpPhase ==> b.value.y2 == g.value.y2) &&
      (b.Ok? && doplot == AmpPhase ==>
        b.value.y2 == Apply(ops.rad2deg, Unwrap(ops, Unmask(Apply(ops.angle, Column(Transpose(data), 0,
                                                                   PyIndex(corr, data.corrs).value))))))
  {
    var td, te := Transpose(data), Transpose(err);
    var b, g := DataPrepB(ops, data, err, doplot, corr), DataPrepG(ops, td, te, doplot, corr);
    if b.Ok? {
      var c, ce := PyIndex(corr, data.corrs).value, PyIndex(corr, err.corrs).value;
      assert Channels(data, 0, c) == Column(td, 0, c);
      assert Channels(err, 0, ce) == Column(te, 0, ce);
    }
  }

  /** For a two-correlation delay table, plotting correlation 0 and
      plotting correlation 1 exchange the two panels. */
  lemma DelayCorrelationsSwap<T>(data: Cube<Masked<T>>, err: Cube<Masked<T>>)
    requires data.Shaped() && data.corrs == 2 && data.chans > 0
    ensures DataPrepK(data, err, 0).Ok? && DataPrepK(data, err, 1).Ok?
    ensures DataPrepK(data, err, 0).value.y1 == DataPrepK(data, err, 1).value.y2
    ensures DataPrepK(data, err, 0).value.y2 == DataPrepK(data, err, 1).value.y1
  {
  }

  /** A delay table with a single correlation cannot be plotted for
      correlation 0: `int(not 0)` is 1, out of range. */
  lemma DelaySingleCorrelationFails<T>(data: Cube<Masked<T>>, err: Cube<Masked<T>>)
    requires data.Shaped() && data.corrs == 1
    ensures DataPrepK(data, err, 0) == Err(IndexError)
    ensures data.chans > 0 ==> DataPrepK(data, err, -1).Ok?
  {
  }
}
