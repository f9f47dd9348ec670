/** The browser-side behaviour of the plot's four controls: the select-all
    toggle, the batch checkboxes, the error-bar toggle and the legend
    dropdown. Each handler is a transition of one record of visibility
    bits, labels and control values; the class below performs the
    handlers' index loops on arrays and is proved to make exactly these
    transitions. */
module Visibility {
  import opened Common
  import LB = LegendBatches

  /** The four glyphs of one antenna: data points in the upper and lower
      panel, and their error bars. The lower error glyph is None when
      errorbar returned None for it. */
  datatype Glyphs = Glyphs(upper: bool, lower: bool, errUpper: bool, errLower: Option<bool>)

  /** The four legend objects of one batch: data and error legend of each
      panel. */
  datatype Legends = Legends(upper: bool, lower: bool, errUpper: bool, errLower: bool)

  /** Glyphs by antenna rank, legends by batch, and the controls' state. */
  datatype Page = Page(glyphs: seq<Glyphs>, legends: seq<Legends>,
                       antSelectActive: bool, antSelectLabel: string,
                       errToggleActive: bool, errToggleLabel: string,
                       batchActive: seq<int>, legendMode: string)

  const InitialSelectLabel := "Select All Antennas"
  const SelectLabel := "Select all Antennas"
  const DeselectLabel := "Deselect all Antennas"
  const ShowErrorsLabel := "Show All Error bars"
  const HideErrorsLabel := "Hide All Error bars"

  /** The number of batches the batch handler is written for. */
  const HandledBatches: nat := 4

  /** The state the page starts in, for the antenna IDs in plotting order:
      only antennas whose ID is not positive are shown (by ID, not by
      rank), no error bar is shown and the lower error glyphs do not exist,
      data legends are shown and error legends are not, no checkbox is
      ticked and the dropdown reads "alo". */
  function Initial(ids: seq<int>): (v: Page)
    ensures |v.glyphs| == |ids| && |v.legends| == LB.NumBatches(|ids|)
    ensures forall k :: 0 <= k < |ids| ==>
      (v.glyphs[k].upper <==> ids[k] <= 0) && v.glyphs[k].lower == v.glyphs[k].upper &&
      !v.glyphs[k].errUpper && v.glyphs[k].errLower == None
    ensures forall b :: 0 <= b < |v.legends| ==> v.legends[b] == Legends(true, true, false, false)
  {
    Page(seq(|ids|, k requires 0 <= k < |ids| => Glyphs(ids[k] <= 0, ids[k] <= 0, false, None)),
         seq(LB.NumBatches(|ids|), b => Legends(true, true, false, false)),
         false, InitialSelectLabel, false, ShowErrorsLabel, [], "alo")
  }

  function ShowData(g: Glyphs, on: bool): Glyphs {
    g.(upper := on, lower := on)
  }

  /** Select-all handler: every data glyph of both panels takes the new
      toggle value, the label flips, and the checkboxes become [0, 1, 2, 3]
      or [] whatever the number of batches. Error glyphs and legends are
      not touched. */
  function OnSelectAll(v: Page, active: bool): (r: Page)
    ensures |r.glyphs| == |v.glyphs| && r.legends == v.legends
    ensures forall k :: 0 <= k < |v.glyphs| ==>
      r.glyphs[k].upper == active && r.glyphs[k].lower == active &&
      r.glyphs[k].errUpper == v.glyphs[k].errUpper && r.glyphs[k].errLower == v.glyphs[k].errLower
    ensures r.antSelectActive == active && r.antSelectLabel == (if active then DeselectLabel else SelectLabel)
    ensures r.batchActive == (if active then [0, 1, 2, 3] else [])
    ensures r.errToggleActive == v.errToggleActive && r.errToggleLabel == v.errToggleLabel
    ensures r.legendMode == v.legendMode
  {
    v.(glyphs := seq(|v.glyphs|, k requires 0 <= k < |v.glyphs| => ShowData(v.glyphs[k], active)),
       antSelectActive := active,
       antSelectLabel := if active then DeselectLabel else SelectLabel,
       batchActive := if active then [0, 1, 2, 3] else [])
  }

  function ShowErrors(g: Glyphs, on: bool): Glyphs {
    g.(errUpper := on, errLower := if g.errLower.Some? then Some(on) else None)
  }

  /** Error-toggle handler: every upper error glyph, and every lower one
      that exists, takes the new toggle value, and the label flips. Data
      glyphs, legends and the other controls are not touched. */
  function OnErrors(v: Page, active: bool): (r: Page)
    ensures |r.glyphs| == |v.glyphs| && r.legends == v.legends
    ensures forall k :: 0 <= k < |v.glyphs| ==>
      r.glyphs[k].upper == v.glyphs[k].upper && r.glyphs[k].lower == v.glyphs[k].lower &&
      r.glyphs[k].errUpper == active &&
      (r.glyphs[k].errLower.Some? <==> v.glyphs[k].errLower.Some?) &&
      (v.glyphs[k].errLower.Some? ==> r.glyphs[k].errLower == Some(active))
    ensures r.errToggleActive == active && r.errToggleLabel == (if active then HideErrorsLabel else ShowErrorsLabel)
    ensures r.antSelectActive == v.antSelectActive && r.antSelectLabel == v.antSelectLabel
    ensures r.batchActive == v.batchActive && r.legendMode == v.legendMode
  {
    v.(glyphs := seq(|v.glyphs|, k requires 0 <= k < |v.glyphs| => ShowErrors(v.glyphs[k], active)),
       errToggleActive := active,
       errToggleLabel := if active then HideErrorsLabel else ShowErrorsLabel)
  }

  /** How many antennas the batch handler reaches before it stops: it
      walks batches 0..3, each over the length of batch 0, and throws a
      TypeError at the first entry that does not exist. */
  function Reached(n: nat): nat {
    LB.Min(n, HandledBatches * LB.BatchSize)
  }

  /** Batch-checkbox handler, given the checkboxes' new active list: the
      data glyphs of the antennas it reaches are shown exactly when their
      batch is in the list; the handler throws (second component true)
      when there are fewer than 64 antennas, and only when it does not
      throw does it set select-all: on, "Deselect…" for four ticked boxes,
      off, "Select…" for none, unchanged otherwise. */
  /** The glyph flags after the batch loops: each of the first Reached(n)
      ranks shows its batch's data exactly when the batch is checked. */
  function BatchedGlyphs(g: seq<Glyphs>, active: seq<int>): seq<Glyphs> {
    seq(|g|, k requires 0 <= k < |g| => if k < Reached(|g|) then ShowData(g[k], (k / 16) in active) else g[k])
  }

  function OnBatches(v: Page, active: seq<int>): (r: (Page, bool))
    ensures |r.0.glyphs| == |v.glyphs| && r.0.legends == v.legends && r.0.batchActive == active
    ensures r.1 <==> |v.glyphs| < HandledBatches * LB.BatchSize
    ensures forall k :: 0 <= k < |v.glyphs| ==>
      r.0.glyphs[k].errUpper == v.glyphs[k].errUpper && r.0.glyphs[k].errLower == v.glyphs[k].errLower
    ensures forall k :: 0 <= k < Reached(|v.glyphs|) ==>
      (r.0.glyphs[k].upper <==> (k / 16) in active) && r.0.glyphs[k].lower == r.0.glyphs[k].upper
    ensures forall k :: Reached(|v.glyphs|) <= k < |v.glyphs| ==> r.0.glyphs[k] == v.glyphs[k]
    ensures !r.1 && |active| == 4 ==> r.0.antSelectActive && r.0.antSelectLabel == DeselectLabel
    ensures !r.1 && |active| == 0 ==> !r.0.antSelectActive && r.0.antSelectLabel == SelectLabel
    ensures (r.1 || (|active| != 4 && |active| != 0)) ==>
      r.0.antSelectActive == v.antSelectActive && r.0.antSelectLabel == v.antSelectLabel
    ensures r.0.errToggleActive == v.errToggleActive && r.0.errToggleLabel == v.errToggleLabel
    ensures r.0.legendMode == v.legendMode
  {
    var n := |v.glyphs|;
    var threw := n < HandledBatches * LB.BatchSize;
    var g := BatchedGlyphs(v.glyphs, active);
    var w := v.(glyphs := g, batchActive := active);
    var w' :=
      if threw then w
      else if |active| == 4 then w.(antSelectActive := true, antSelectLabel := DeselectLabel)
      else if |active| == 0 then w.(antSelectActive := false, antSelectLabel := SelectLabel)
      else w;
    (w', threw)
  }

  /** The legend visibility each dropdown value ends with, after the
      handler's four passes: "alo" data legends only, "elo" error legends
      only, "all" both, "non" and any other value neither. */
  function LegendsFor(value: string): (l: Legends)
    ensures l.upper == l.lower && l.errUpper == l.errLower
    ensures value == "alo" ==> l == Legends(true, true, false, false)
    ensures value == "elo" ==> l == Legends(false, false, true, true)
    ensures value == "all" ==> l == Legends(true, true, true, true)
    ensures value !in {"alo", "elo", "all"} ==> l == Legends(false, false, false, false)
  {
    var data := value == "alo" || value == "all";
    var errs := value == "elo" || value == "all";
    Legends(data, data, errs, errs)
  }

  /** Dropdown handler: only the legends change, all in the same way. */
  function OnLegends(v: Page, value: string): (r: Page)
    ensures r.glyphs == v.glyphs && |r.legends| == |v.legends|
    ensures forall b :: 0 <= b < |v.legends| ==> r.legends[b] == LegendsFor(value)
    ensures r.legendMode == value
    ensures r.antSelectActive == v.antSelectActive && r.antSelectLabel == v.antSelectLabel
    ensures r.errToggleActive == v.errToggleActive && r.errToggleLabel == v.errToggleLabel
    ensures r.batchActive == v.batchActive
  {
    v.(legends := seq(|v.legends|, b => LegendsFor(value)), legendMode := value)
  }

  /** One user action, carrying the control's value after the click. */
  datatype Event =
    | SelectAllClicked(active: bool)
    | BatchesChanged(boxes: seq<int>)
    | ErrorsClicked(active: bool)
    | LegendsChosen(value: string)

  /** A handler that throws keeps the assignments it made before the
      throw. */
  function Step(v: Page, e: Event): (r: Page)
    ensures |r.glyphs| == |v.glyphs| && |r.legends| == |v.legends|
    ensures e.LegendsChosen? ==> r.glyphs == v.glyphs
    ensures !e.LegendsChosen? ==> r.legends == v.legends && r.legendMode == v.legendMode
  {
    match e
    case SelectAllClicked(a) => OnSelectAll(v, a)
    case BatchesChanged(a) => OnBatches(v, a).0
    case ErrorsClicked(a) => OnErrors(v, a)
    case LegendsChosen(s) => OnLegends(v, s)
  }

  /** The page after the handlers of a sequence of actions, in order: it
      keeps one glyph record per antenna and one legend record per batch,
      and without a dropdown choice the legends stay as they were. */
  function Run(v: Page, events: seq<Event>): (r: Page)
    ensures |r.glyphs| == |v.glyphs| && |r.legends| == |v.legends|
    ensures (forall j :: 0 <= j < |events| ==> !events[j].LegendsChosen?) ==>
      r.legends == v.legends && r.legendMode == v.legendMode
    decreases |events|
  {
    if events == [] then v else Run(Step(v, events[0]), events[1..])
  }

  /** What the handlers keep in agreement: each toggle's label matches its
      value, select-all is on when four boxes are ticked and off when none
      is, and there is one legend per batch. */
  predicate Consistent(v: Page) {
    (v.antSelectActive ==> v.antSelectLabel == DeselectLabel) &&
    (!v.antSelectActive ==> v.antSelectLabel == SelectLabel || v.antSelectLabel == InitialSelectLabel) &&
    (v.errToggleActive <==> v.errToggleLabel == HideErrorsLabel) &&
    (!v.errToggleActive ==> v.errToggleLabel == ShowErrorsLabel) &&
    (|v.batchActive| == 4 ==> v.antSelectActive) &&
    (|v.batchActive| == 0 ==> !v.antSelectActive) &&
    |v.legends| == LB.NumBatches(|v.glyphs|)
  }

  lemma InitialConsistent(ids: seq<int>)
    ensures Consistent(Initial(ids))
  {
  }

  /** With at least 64 antennas every handler keeps the controls
      consistent. */
  lemma StepKeepsConsistent(v: Page, e: Event)
    requires Consistent(v) && |v.glyphs| >= HandledBatches * LB.BatchSize
    ensures Consistent(Step(v, e)) && |Step(v, e).glyphs| == |v.glyphs|
  {
  }

  /** From the initial page, with at least 64 antennas, every sequence of
      user actions leaves the controls consistent. */
  lemma {:induction false} RunKeepsConsistent(v: Page, events: seq<Event>)
    requires Consistent(v) && |v.glyphs| >= HandledBatches * LB.BatchSize
    ensures Consistent(Run(v, events))
    decreases |events|
  {
    if events != [] {
      StepKeepsConsistent(v, events[0]);
      RunKeepsConsistent(Step(v, events[0]), events[1..]);
    }
  }

  lemma ReachableConsistent(ids: seq<int>, events: seq<Event>)
    requires |ids| >= HandledBatches * LB.BatchSize
    ensures Consistent(Run(Initial(ids), events))
  {
    InitialConsistent(ids);
    RunKeepsConsistent(Initial(ids), events);
  }

  /** Select-all does not follow the checkboxes in general: after
      "select all" and unticking box 2, select-all still reads
      "Deselect all Antennas" although a box is off. */
  lemma SelectAllOutlivesUntick(ids: seq<int>)
    requires |ids| >= HandledBatches * LB.BatchSize
    ensures var v := Run(Initial(ids), [SelectAllClicked(true), BatchesChanged([0, 1, 3])]);
      v.antSelectActive && v.antSelectLabel == DeselectLabel && 2 !in v.batchActive &&
      !v.glyphs[32].upper
  {
    var v1 := OnSelectAll(Initial(ids), true);
    var v2 := OnBatches(v1, [0, 1, 3]).0;
    assert Run(Initial(ids), [SelectAllClicked(true), BatchesChanged([0, 1, 3])]) == Run(v1, [BatchesChanged([0, 1, 3])]);
    assert Run(v1, [BatchesChanged([0, 1, 3])]) == Run(v2, []);
    assert 32 / 16 == 2;
  }

  /** With 49 to 63 antennas there are four checkboxes, but the handler
      throws before it syncs: ticking all four shows every antenna and
      leaves select-all off, against four ticked boxes. */
  lemma ShortTableNeverSyncs(ids: seq<int>)
    requires 49 <= |ids| < 64
    ensures LB.NumBatches(|ids|) == 4
    ensures var v := Run(Initial(ids), [BatchesChanged([0]), BatchesChanged([0, 1]),
                                        BatchesChanged([0, 1, 2]), BatchesChanged([0, 1, 2, 3])]);
      |v.batchActive| == 4 && !v.antSelectActive &&
      forall k :: 0 <= k < |ids| ==> v.glyphs[k].upper && v.glyphs[k].lower
  {
    var es := [BatchesChanged([0]), BatchesChanged([0, 1]), BatchesChanged([0, 1, 2]), BatchesChanged([0, 1, 2, 3])];
    var v0 := Initial(ids);
    var v1 := Step(v0, es[0]);
    var v2 := Step(v1, es[1]);
    var v3 := Step(v2, es[2]);
    var v4 := Step(v3, es[3]);
    assert es[1..][1..][1..][1..] == [];
    assert Run(v0, es) == v4;
    forall k | 0 <= k < |ids| ensures v4.glyphs[k].upper && v4.glyphs[k].lower {
      assert k / 16 in [0, 1, 2, 3];
    }
  }

  /** The lower-panel error glyphs never exist (make_plots never passes a
      y2 error), so no action can show one. */
  lemma {:induction false} LowerErrorsNeverAppear(v: Page, events: seq<Event>)
    requires forall k :: 0 <= k < |v.glyphs| ==> v.glyphs[k].errLower == None
    ensures forall k :: 0 <= k < |Run(v, events).glyphs| ==> Run(v, events).glyphs[k].errLower == None
    decreases |events|
  {
    if events != [] {
      LowerErrorsNeverAppear(Step(v, events[0]), events[1..]);
    }
  }

  /** The error toggle and the antenna controls act on separate bits:
      the two orders of one select-all click and one error click give the
      same page. */
  lemma ErrorsCommuteWithSelectAll(v: Page, a: bool, e: bool)
    ensures OnErrors(OnSelectAll(v, a), e) == OnSelectAll(OnErrors(v, e), a)
  {
    var l, r := OnErrors(OnSelectAll(v, a), e), OnSelectAll(OnErrors(v, e), a);
    assert l.glyphs == r.glyphs;
  }

  /** Only the last select-all click matters. */
  lemma SelectAllLastWins(v: Page, a: bool, b: bool)
    ensures OnSelectAll(OnSelectAll(v, a), b) == OnSelectAll(v, b)
  {
    assert OnSelectAll(OnSelectAll(v, a), b).glyphs == OnSelectAll(v, b).glyphs;
  }

  /** Reaching the same checkbox list twice changes nothing the second
      time, and what the reached antennas show depends on that list only. */
  lemma BatchesIdempotent(v: Page, w: Page, active: seq<int>)
    requires |v.glyphs| == |w.glyphs|
    ensures OnBatches(OnBatches(v, active).0, active) == OnBatches(v, active)
    ensures forall k :: 0 <= k < Reached(|v.glyphs|) ==>
      OnBatches(v, active).0.glyphs[k].upper == OnBatches(w, active).0.glyphs[k].upper
  {
    var r1 := OnBatches(v, active).0;
    assert OnBatches(r1, active).0.glyphs == r1.glyphs;
  }

  /** Entry i of batch b exists exactly when rank 16b + i does, and then it
      is that rank. */
  lemma BatchEntry(n: nat, b: nat, i: nat)
    requires i < LB.BatchSize
    ensures var bax := LB.Batches(LB.Ranks(n));
      (b < |bax| && i < |bax[b]|) <==> 16 * b + i < n
    ensures var bax := LB.Batches(LB.Ranks(n));
      b < |bax| && i < |bax[b]| ==> bax[b][i] == 16 * b + i
  {
  }

  /** The ranks the batch loops have set at batch b, entry i, given that
      each batch is walked over the length len0 of batch 0. */
  predicate Processed(r: nat, b: nat, i: nat, len0: nat) {
    (r / 16 < b && r % 16 < len0) || (r / 16 == b && r % 16 < i)
  }

  /** Setting entry i of batch b adds exactly rank 16b + i. */
  lemma ProcessedNext(b: nat, i: nat, len0: nat)
    requires i < len0 <= 16
    ensures forall r: nat :: Processed(r, b, i + 1, len0) <==> (Processed(r, b, i, len0) || r == 16 * b + i)
  {
  }

  /** Finishing batch b is starting batch b + 1. */
  lemma ProcessedNextBatch(b: nat, len0: nat)
    ensures forall r: nat :: Processed(r, b + 1, 0, len0) <==> Processed(r, b, len0, len0)
  {
  }

  /** Where the handler throws, the ranks it has set are exactly the
      antennas there are. */
  lemma ProcessedAtThrow(n: nat, b: nat, i: nat, len0: nat)
    requires len0 == LB.Min(n, 16) && b < 4 && i < len0
    requires b > 0 ==> 16 * (b - 1) + len0 <= n
    requires i > 0 ==> 16 * b + i <= n
    requires n <= 16 * b + i
    ensures forall r: nat :: r < n ==> (Processed(r, b, i, len0) <==> r < Reached(n))
    ensures n < HandledBatches * LB.BatchSize
  {
  }

  lemma ProcessedAtEnd(n: nat, len0: nat)
    requires len0 == LB.Min(n, 16) && 16 * 3 + len0 <= n
    ensures forall r: nat :: r < n ==> (Processed(r, 4, 0, len0) <==> r < Reached(n))
    ensures n >= HandledBatches * LB.BatchSize
  {
  }

  /** Once the ranks set are exactly the first Reached(n), the loops have
      produced BatchedGlyphs. */
  lemma ProcessedGlyphs(before: seq<Glyphs>, after: seq<Glyphs>, active: seq<int>, b: nat, i: nat, len0: nat)
    requires |after| == |before|
    requires forall r :: 0 <= r < |before| ==>
      after[r] == if Processed(r, b, i, len0) then ShowData(before[r], (r / 16) in active) else before[r]
    requires forall r: nat :: r < |before| ==> (Processed(r, b, i, len0) <==> r < Reached(|before|))
    ensures after == BatchedGlyphs(before, active)
  {
  }

  /** The rendered plot's controls and glyph flags. `bax` holds the glyph
      ranks batch by batch, the nesting the batch handler indexes. */
  class PlotControls {
    const glyphs: array<Glyphs>
    const legends: array<Legends>
    const bax: seq<seq<nat>>
    var antSelectActive: bool
    var antSelectLabel: string
    var errToggleActive: bool
    var errToggleLabel: string
    var batchActive: seq<int>
    var legendMode: string

    ghost predicate Valid()
      reads this
    {
      bax == LB.Batches(LB.Ranks(glyphs.Length)) && legends.Length == LB.NumBatches(glyphs.Length)
    }

    ghost function View(): Page
      reads this, glyphs, legends
    {
      Page(glyphs[..], legends[..], antSelectActive, antSelectLabel,
                      errToggleActive, errToggleLabel, batchActive, legendMode)
    }

    /** The page as main builds it for the given antenna IDs. */
    constructor (ids: seq<int>)
      ensures Valid() && View() == Initial(ids)
    {
      var n := |ids|;
      glyphs := new Glyphs[n](k requires 0 <= k < n => Glyphs(ids[k] <= 0, ids[k] <= 0, false, None));
      legends := new Legends[LB.NumBatches(n)](b => Legends(true, true, false, false));
      var batches := LB.MakeBatches(LB.Ranks(n));
      bax := batches;
      antSelectActive, antSelectLabel := false, InitialSelectLabel;
      errToggleActive, errToggleLabel := false, ShowErrorsLabel;
      batchActive, legendMode := [], "alo";
      new;
      assert glyphs[..] == Initial(ids).glyphs;
      assert legends[..] == Initial(ids).legends;
    }

    /** ant_select's callback, after the toggle took the value `active`. */
    method ToggleSelectAll(active: bool)
      requires Valid()
      modifies this, glyphs
      ensures Valid() && View() == OnSelectAll(old(View()), active)
    {
      antSelectActive := active;
      var i := 0;
      while i < glyphs.Length
        invariant 0 <= i <= glyphs.Length
        invariant forall k :: 0 <= k < i ==> glyphs[k] == ShowData(old(glyphs[k]), active)
        invariant forall k :: i <= k < glyphs.Length ==> glyphs[k] == old(glyphs[k])
        invariant antSelectActive == active && antSelectLabel == old(antSelectLabel) && batchActive == old(batchActive)
        invariant errToggleActive == old(errToggleActive) && errToggleLabel == old(errToggleLabel)
        invariant legendMode == old(legendMode)
      {
        glyphs[i] := ShowData(glyphs[i], active);
        i := i + 1;
      }
      if active {
        antSelectLabel := DeselectLabel;
        batchActive := [0, 1, 2, 3];
      } else {
        antSelectLabel := SelectLabel;
        batchActive := [];
      }
      assert glyphs[..] == OnSelectAll(old(View()), active).glyphs;
      assert legends[..] == old(legends[..]);
    }

    /** toggle_err's callback, after the toggle took the value `active`. */
    method ToggleErrors(active: bool)
      requires Valid()
      modifies this, glyphs
      ensures Valid() && View() == OnErrors(old(View()), active)
    {
      errToggleActive := active;
      errToggleLabel := if active then HideErrorsLabel else ShowErrorsLabel;
      var i := 0;
      while i < glyphs.Length
        invariant 0 <= i <= glyphs.Length
        invariant forall k :: 0 <= k < i ==> glyphs[k] == ShowErrors(old(glyphs[k]), active)
        invariant forall k :: i <= k < glyphs.Length ==> glyphs[k] == old(glyphs[k])
        invariant antSelectActive == old(antSelectActive) && antSelectLabel == old(antSelectLabel) && batchActive == old(batchActive)
        invariant errToggleActive == active && errToggleLabel == (if active then HideErrorsLabel else ShowErrorsLabel)
        invariant legendMode == old(legendMode)
      {
        glyphs[i] := glyphs[i].(errUpper := active);
        if glyphs[i].errLower.Some? {
          glyphs[i] := glyphs[i].(errLower := Some(active));
        }
        i := i + 1;
      }
      assert glyphs[..] == OnErrors(old(View()), active).glyphs;
      assert legends[..] == old(legends[..]);
    }

    /** batch_select's callback, after the checkboxes took the list
      `active`; `threw` tells whether the handler ended in a TypeError. */
    method ChangeBatches(active: seq<int>) returns (threw: bool)
      requires Valid()
      modifies this, glyphs
      ensures Valid() && (View(), threw) == OnBatches(old(View()), active)
    {
      var n := glyphs.Length;
      if |bax| == 0 {
        ProcessedGlyphs(old(glyphs[..]), glyphs[..], active, 0, 0, 0);
        batchActive := active;
        return true;
      }
      var len0 := |bax[0]|;
      assert len0 == LB.Min(n, 16);
      var b := 0;
      while b < HandledBatches
        invariant 0 <= b <= HandledBatches
        invariant b > 0 ==> 16 * (b - 1) + len0 <= n
        invariant forall r :: 0 <= r < n ==>
          glyphs[r] == if Processed(r, b, 0, len0) then ShowData(old(glyphs[r]), (r / 16) in active) else old(glyphs[r])
        invariant unchanged(this)
      {
        var on := b in active;
        var i := 0;
        while i < len0
          invariant 0 <= i <= len0
          invariant i > 0 ==> 16 * b + i <= n
          invariant forall r :: 0 <= r < n ==>
            glyphs[r] == if Processed(r, b, i, len0) then ShowData(old(glyphs[r]), (r / 16) in active) else old(glyphs[r])
          invariant unchanged(this)
        {
          BatchEntry(n, b, i);
          if !(b < |bax| && i < |bax[b]|) {
            ProcessedAtThrow(n, b, i, len0);
            ProcessedGlyphs(old(glyphs[..]), glyphs[..], active, b, i, len0);
            batchActive := active;
            return true;
          }
          var r := bax[b][i];
          glyphs[r] := ShowData(glyphs[r], on);
          ProcessedNext(b, i, len0);
          i := i + 1;
        }
        ProcessedNextBatch(b, len0);
        b := b + 1;
      }
      ProcessedAtEnd(n, len0);
      ProcessedGlyphs(old(glyphs[..]), glyphs[..], active, 4, 0, len0);
      batchActive := active;
      if |active| == 4 {
        antSelectActive := true;
        antSelectLabel := DeselectLabel;
      } else if |active| == 0 {
        antSelectActive := false;
        antSelectLabel := SelectLabel;
      }
      threw := false;
    }

    /** legend_toggle's callback, after the dropdown took `value`: its four
      passes over the legend objects, in order. */
    method ChooseLegends(value: string)
      requires Valid()
      modifies this, legends
      ensures Valid() && View() == OnLegends(old(View()), value)
    {
      var n := legends.Length;
      var data := value == "alo";
      for i := 0 to n
        invariant unchanged(this)
        invariant forall b :: 0 <= b < i ==> legends[b].upper == data && legends[b].lower == data
        invariant forall b :: 0 <= b < n ==> legends[b].errUpper == old(legends[b].errUpper) && legends[b].errLower == old(legends[b].errLower)
        invariant forall b :: i <= b < n ==> legends[b] == old(legends[b])
      {
        legends[i] := legends[i].(upper := data, lower := data);
      }
      var errs := value == "elo";
      for i := 0 to n
        invariant unchanged(this)
        invariant forall b :: 0 <= b < n ==> legends[b].upper == data && legends[b].lower == data
        invariant forall b :: 0 <= b < i ==> legends[b].errUpper == errs && legends[b].errLower == errs
      {
        legends[i] := legends[i].(errUpper := errs, errLower := errs);
      }
      if value == "all" {
        for i := 0 to n
          invariant unchanged(this)
          invariant forall b :: 0 <= b < i ==> legends[b] == Legends(true, true, true, true)
          invariant forall b :: i <= b < n ==> legends[b] == Legends(data, data, errs, errs)
        {
          legends[i] := Legends(true, true, true, true);
        }
      }
      if value == "non" {
        for i := 0 to n
          invariant unchanged(this)
          invariant forall b :: 0 <= b < i ==> legends[b] == Legends(false, false, false, false)
          invariant forall b :: i <= b < n ==> legends[b] == Legends(data, data, errs, errs)
        {
          legends[i] := Legends(false, false, false, false);
        }
      }
      legendMode := value;
      assert legends[..] == OnLegends(old(View()), value).legends;
      assert glyphs[..] == old(glyphs[..]);
    }
  }
}
