# ragavi gain-table plotter: a Dafny model of its core

ragavi reads a radio-interferometry calibration table and draws two linked
panels per antenna. The table can hold gain (G), bandpass (B) or delay (K)
solutions. The panels show amplitude and phase ("ap"), or real and imaginary
parts ("ri"). In the browser, four controls show and hide the glyphs: a
select-all toggle, checkboxes for batches of sixteen antennas, an error-bar
toggle and a legend dropdown.

This project models the pure core of `ragavi/ragavi.py`:

- `table_kind.dfy` (`TableKind`): the table-kind classifier `determine_table`.
  It scans for the leftmost `\.(G|K|B)\d*$` match, with ASCII-only case
  folding, and `$` also matches before one final newline. Also here: the
  per-kind, per-mode choice of x values, axis labels and titles, including
  the TypeError of `".G" in -1` and the two exits.
- `solution_transform.dfy` (`SolutionTransform`): `data_prep_G`,
  `data_prep_B` and `data_prep_K` on masked three-index arrays (row, channel,
  correlation). Python's negative indices and IndexError are modelled as
  results. Transcendental numpy functions are parameters.
- `error_bars.dfy` (`ErrorBars`): the segment lists `errorbar` builds.
- `axis_ranges.dfy` (`AxisRanges`): how the plot ranges are computed. The
  per-antenna minimum/maximum fold is a class with the six running bounds as
  fields, proved against a pure fold. After the fold come the ±400 s and
  10 % padding and the six command-line overrides.
- `legend_batches.dfy` (`LegendBatches`): the number of legend batches, the
  batching loop, and the checkbox labels.
- `visibility.dfy` (`Visibility`): the four CustomJS handlers. Each is modelled
  as a pure transition of the page state. Their index loops run over arrays
  in the class `PlotControls`, where they are proved to make exactly those
  transitions. The batch handler's TypeError for tables with fewer than 64
  antennas is modelled, not excluded.
- `common.dfy` (`Common`): Option/Result, masked values, Python indexing.

Where the code and its documentation disagree, the model follows the code.
The code does not keep "select-all is on exactly when every checkbox is
ticked". `Visibility.SelectAllOutlivesUntick` and
`Visibility.ShortTableNeverSyncs` give counterexamples. The weaker invariant
that the code does keep is `Visibility.ReachableConsistent`.

## Model

| member | source | states |
|---|---|---|
| TableKind.Upper | ragavi/ragavi.py:52 | `upper()` changes each character by itself and keeps the length |
| TableKind.Body | ragavi/ragavi.py:47 | the text `$` anchors at: the name without its last character exactly when that character is a newline, otherwise the whole name |
| TableKind.FirstMatch | ragavi/ragavi.py:47-48 | finds the leftmost position where the pattern matches, or reports that none exists |
| TableKind.FirstMatchFinds | ragavi/ragavi.py:48 | when position m matches and no earlier one does, the search returns m |
| TableKind.MatchIsLastDot | ragavi/ragavi.py:47 | no '.' follows the dot a match starts at |
| TableKind.MatchShape | ragavi/ragavi.py:47-52 | an upper-cased match is '.', one of G/K/B, then only digits |
| TableKind.DetermineTable | ragavi/ragavi.py:42-53 | returns a tag iff the name has a kind suffix, and a tag is '.', an upper-case G/K/B and digits; `DetermineTableSound` and `DetermineTableComplete` pin which suffix |
| TableKind.DetermineTableSound | ragavi/ragavi.py:42-53 | a tag is found iff the name ends, before at most one newline, in '.', a kind letter of either case and digits; the tag is that suffix upper-cased |
| TableKind.DetermineTableComplete | ragavi/ragavi.py:42-53 | any prefix followed by '.', a kind letter, digits and an optional newline gives exactly that suffix, upper-cased and without the newline |
| TableKind.ContainsDotLetter | ragavi/ragavi.py:455-483 | on a tag, the `".X" in tag` test holds iff X is the tag's letter |
| TableKind.KindOf | ragavi/ragavi.py:454-496 | the `".G" in`, `".B" in`, `".K" in` tests in that order: TypeError exactly for -1, else the first kind whose test holds, else UnboundLocal (no source assigned) |
| TableKind.KindOfDetermineTable | ragavi/ragavi.py:454-496 | the dispatch picks the kind the suffix letter names, or raises TypeError when there is no suffix; the "Invalid table" branch is never reached |
| TableKind.PlotAxes | ragavi/ragavi.py:454-541 | a mode other than ap/ri exits with -1 (checked at lines 341-343); a dispatch error is passed on; gain plots against relative time, "Time [s]"; bandpass against channel, "Channel"; delay in ap against the antenna column, "Antenna"; delay in ri exits 0; the y labels are ("Amplitude", "Phase [Deg]") in ap and ("Real", "Imaginary") in ri; each title is `ylabel + " vs " + xlabel`, as at lines 617-618 |
| TableKind.NameSelectsAxes | ragavi/ragavi.py:42-541 | from the name to the axes: a name ending in '.', a G/B/K of either case and digits gets the time, channel or antenna x axis, and delay in ri exits 0 |
| TableKind.XValues | ragavi/ragavi.py:444-446 | raises IndexError iff the antenna has no rows; otherwise times relative to the first (starting at 0), channels 0..nchan-1, or the ANTENNA1 column |
| Common.PyIndex | ragavi/ragavi.py:182 | a Python index is valid iff -n <= i < n, and then denotes i or n + i |
| Common.Unmask | ragavi/ragavi.py:222 | `np.array` of a masked array keeps the values and clears every flag |
| SolutionTransform.Column | ragavi/ragavi.py:182 | the `[:, ch, co]` slice: one element per row |
| SolutionTransform.Channels | ragavi/ragavi.py:220 | the `[row, :, co]` slice: one element per channel |
| SolutionTransform.Apply | ragavi/ragavi.py:182 | an element-wise numpy function keeps each element's mask |
| SolutionTransform.Unwrap | ragavi/ragavi.py:186 | unwrapping keeps the length |
| SolutionTransform.DataPrepG | ragavi/ragavi.py:160-195 | succeeds iff corr indexes both arrays at channel 0, else IndexError; per row: amplitude, or real and imaginary part; the y1 error is the error's magnitude; the phase is unwrapped and in degrees; there is never a y2 error |
| SolutionTransform.DataPrepB | ragavi/ragavi.py:198-232 | the same per channel of row 0; in ap mode the phase and the y2 error (phase of the error) lose their masks before unwrapping; ri mode has no y2 error |
| SolutionTransform.OtherCorr | ragavi/ragavi.py:256 | `int(not corr)` is 1 iff corr is 0, else 0 |
| SolutionTransform.DataPrepK | ragavi/ragavi.py:235-260 | succeeds iff corr and `int(not corr)` both index the channel-0 slice; y1, y2 are those columns with their flags dropped; both errors are the whole error array |
| SolutionTransform.Transpose | ragavi/ragavi.py:220 | exchanges the row and channel axes, element by element |
| SolutionTransform.BandpassIsGainTransposed | ragavi/ragavi.py:160-232 | bandpass equals gain on the transposed arrays: the same failures, y1, y1 error and ri y2; in ap mode they differ only in the dropped mask |
| SolutionTransform.DelayCorrelationsSwap | ragavi/ragavi.py:253-258 | with two correlations, plotting corr 0 and corr 1 exchanges the panels |
| SolutionTransform.DelaySingleCorrelationFails | ragavi/ragavi.py:256 | with one correlation, corr 0 raises IndexError while corr -1 succeeds |
| ErrorBars.ZipLength | ragavi/ragavi.py:99 | zip stops at the shortest of its three lists |
| ErrorBars.VerticalCentres | ragavi/ragavi.py:110-113 | reading back vertical segments gives one point per segment |
| ErrorBars.HorizontalCentres | ragavi/ragavi.py:99-102 | reading back horizontal segments gives one point per segment |
| ErrorBars.ErrorBar | ragavi/ragavi.py:65-119 | None iff both errors are absent; the glyph starts hidden; segment k is (x±e, y) or (x, y±e); the y-error glyph wins if both are given; reading the segments back gives the truncated inputs |
| ErrorBars.VerticalRoundTrip | ragavi/ragavi.py:110-113 | the vertical segments read back to x, y and e |
| ErrorBars.HorizontalRoundTrip | ragavi/ragavi.py:99-102 | the horizontal segments read back to x, y and e |
| AxisRanges.Plain | ragavi/ragavi.py:564-567 | the times are an unflagged series |
| AxisRanges.Least | ragavi/ragavi.py:568-569 | `np.min` of a masked series: an unflagged element no larger than any other; None iff every element is flagged |
| AxisRanges.Greatest | ragavi/ragavi.py:570-571 | `np.max` of a masked series, stated in the same way |
| AxisRanges.Widen | ragavi/ragavi.py:564-575 | one compare-and-replace pair: the new extent encloses the old and every unflagged value; each bound is the old one or an unflagged value; an all-flagged series changes nothing |
| AxisRanges.Observe | ragavi/ragavi.py:564-575 | one antenna's pass never narrows an axis, and leaves a panel whose samples are all flagged untouched |
| AxisRanges.ObserveAll | ragavi/ragavi.py:421-575 | the fold over the antennas in loop order; its properties are `ObserveAllBounds`, `ObserveAllPermutation`, `ObserveAllRefold` and the lemmas on flagged panels |
| AxisRanges.PadY | ragavi/ragavi.py:584-593 | the y padding; stated by `PadWidens`, `PadLoIsTenPercentOut` and `PadClipsNegativeMax` |
| AxisRanges.Pad | ragavi/ragavi.py:579-593 | x by 400 on each side, y by `PadY`; stated by `PadWidens` |
| AxisRanges.Override | ragavi/ragavi.py:595-606 | each option that is not -1 replaces its bound; stated by `OverrideProperties` |
| AxisRanges.Finalize | ragavi/ragavi.py:411-606 | fold, pad, then override; stated by `FinalizeOrderInsensitive`, `LowerOverridesWin` and `AllFlaggedInvertsRange` |
| AxisRanges.CompareBounds | ragavi/ragavi.py:564-575 | one `if np.min(v) < lo` / `if np.max(v) > hi` pair computes exactly `Widen` |
| AxisRanges.AxisAccumulator.constructor | ragavi/ragavi.py:411-416 | the six bounds start at ±1e20 |
| AxisRanges.AxisAccumulator.Add | ragavi/ragavi.py:564-575 | the six compare-and-replace steps, taken pair by pair through `CompareBounds`, fold one antenna into the bounds exactly as `Observe` |
| AxisRanges.AxisAccumulator.AddAll | ragavi/ragavi.py:421-575 | the antenna loop folds every antenna in order |
| AxisRanges.AxisAccumulator.ApplyPadding | ragavi/ragavi.py:579-593 | x widens by 400 s; a y minimum moves 10 % outward; a y maximum is scaled by 1.1 |
| AxisRanges.AxisAccumulator.ApplyOverrides | ragavi/ragavi.py:595-606 | each option that is not -1 replaces its bound |
| AxisRanges.ObserveCommutes | ragavi/ragavi.py:564-575 | folding two antennas gives the same bounds in either order |
| AxisRanges.ObserveIdempotent | ragavi/ragavi.py:564-575 | folding the same antenna twice is folding it once |
| AxisRanges.FoldMoveToFront | ragavi/ragavi.py:421 | with a commuting step, any element can be folded first |
| AxisRanges.FoldPermutation | ragavi/ragavi.py:421 | with a commuting step, the fold depends only on the multiset of items |
| AxisRanges.ObserveStepsCommute | ragavi/ragavi.py:564-575 | the fold step commutes for every state and antenna pair |
| AxisRanges.ObserveAllPermutation | ragavi/ragavi.py:421-575 | plotting the antennas in any order gives the same bounds |
| AxisRanges.ObserveAllRefold | ragavi/ragavi.py:421-575 | folding an antenna already folded changes nothing |
| AxisRanges.ObserveAllBounds | ragavi/ragavi.py:564-575 | the bounds enclose the starting bounds and every time and every unflagged y1/y2 value |
| AxisRanges.ObserveAllUpperLoAttained | ragavi/ragavi.py:568-569 | a moved upper-panel minimum is an unflagged y1 value of some antenna |
| AxisRanges.PadWidens | ragavi/ragavi.py:579-593 | padding never narrows x, never raises a minimum, and never lowers a non-negative maximum |
| AxisRanges.PadClipsNegativeMax | ragavi/ragavi.py:588 | when the upper panel's maximum is negative, the point at the maximum lies outside the padded range |
| AxisRanges.PadLoIsTenPercentOut | ragavi/ragavi.py:584-587 | both branches move a minimum outward by 10 % of its magnitude |
| AxisRanges.FlaggedUpperUntouched | ragavi/ragavi.py:568-571 | when every y1 sample is flagged, the fold leaves the upper bounds at their starting values |
| AxisRanges.FlaggedLowerUntouched | ragavi/ragavi.py:572-575 | the same for y2 and the lower bounds |
| AxisRanges.AllFlaggedInvertsRange | ragavi/ragavi.py:411-611 | a panel whose every sample is flagged ends with its padded minimum (0.9e20) above its maximum (-1.1e20), and without its two options that inverted range is the one set on the figure |
| AxisRanges.OverrideProperties | ragavi/ragavi.py:595-606 | six given options make the result independent of the data; overriding is idempotent; no options change nothing |
| AxisRanges.LowerOverridesWin | ragavi/ragavi.py:599-602 | given yl0 and yl1, the finished lower range is exactly [yl0, yl1] |
| AxisRanges.FinalizeOrderInsensitive | ragavi/ragavi.py:411-606 | the finished ranges depend only on the multiset of plotted antennas |
| LegendBatches.NumBatches | ragavi/ragavi.py:624 | `int(ceil(n / 16.0))` is (n + 15) div 16 |
| LegendBatches.CeilingOfSixteenth | ragavi/ragavi.py:624 | the real-valued ceiling and the integer formula agree |
| LegendBatches.PySlice | ragavi/ragavi.py:643-646 | `items[lo:hi]` clamps both bounds to the length: min(hi, n) - min(lo, n) items, starting at lo |
| LegendBatches.Ranks | ragavi/ragavi.py:549-553 | the legend item lists hold the antennas in rank order 0..n-1 |
| LegendBatches.Batches | ragavi/ragavi.py:632-648 | there is one batch per legend object |
| LegendBatches.MakeBatches | ragavi/ragavi.py:632-648 | the loop builds batch i as items[16i : 16i + 16], clamped to the length |
| LegendBatches.FlattenPrefix | ragavi/ragavi.py:632-648 | the first k batches, concatenated, are the first 16k items |
| LegendBatches.BatchesConcatenate | ragavi/ragavi.py:632-648 | concatenating the batches gives back every antenna, in order |
| LegendBatches.BatchSizes | ragavi/ragavi.py:632-648 | every batch but the last has sixteen items; the last has 1 to 16 |
| LegendBatches.BatchOfRank | ragavi/ragavi.py:632-648 | the antenna of rank r is entry r mod 16 of batch r div 16 |
| LegendBatches.NatToString | ragavi/ragavi.py:696 | `str` of a natural number is a non-empty string of digits |
| LegendBatches.NatToStringValue | ragavi/ragavi.py:696 | that string denotes the number again |
| LegendBatches.LabelText | ragavi/ragavi.py:696 | `"A%s - A%s" % (s, e)`; stated by `LabelTextParses` |
| LegendBatches.CheckboxLabels | ragavi/ragavi.py:692-698 | label i is "A{16i} - A{16i+15}", one per batch |
| LegendBatches.TakeDigits | ragavi/ragavi.py:696 | takes the longest prefix of digits |
| LegendBatches.TakeDigitsOf | ragavi/ragavi.py:696 | digits followed by a non-digit split back exactly |
| LegendBatches.LabelTextParses | ragavi/ragavi.py:696 | a label reads back as the two numbers it was built from |
| LegendBatches.LabelNamesBatchRanks | ragavi/ragavi.py:692-698 | checkbox label i reads back as 16i and 16i+15, and an existing rank is in batch i iff it lies in that range (ranks, not antenna IDs; a short last batch's label also names ranks that do not exist) |
| Visibility.Initial | ragavi/ragavi.py:544-704 | antenna k starts shown iff its ID is not positive; error glyphs are hidden and no lower one exists; data legends are on, error legends off |
| Visibility.OnSelectAll | ragavi/ragavi.py:706-735 | every data glyph takes the toggle value; the label flips; the checkboxes become [0,1,2,3] or []; errors and legends are untouched |
| Visibility.OnErrors | ragavi/ragavi.py:737-767 | every upper error glyph, and each lower one that exists, takes the toggle value; the label flips; nothing else changes |
| Visibility.OnBatches | ragavi/ragavi.py:771-840 | ranks below min(n, 64) are shown iff their batch is ticked, other ranks are untouched; the handler throws iff n < 64; only without a throw do four boxes set select-all on and none set it off |
| Visibility.LegendsFor | ragavi/ragavi.py:843-901 | "alo" shows data legends only, "elo" error legends only, "all" both, and any other value neither |
| Visibility.OnLegends | ragavi/ragavi.py:843-901 | every legend batch takes the value's visibility; glyphs and the other controls are untouched |
| Visibility.Step | ragavi/ragavi.py:706-901 | one user action: glyph and legend counts are kept, a dropdown choice touches no glyph, any other action touches no legend |
| Visibility.Run | ragavi/ragavi.py:706-901 | a sequence of actions keeps the glyph and legend counts, and without a dropdown choice the legends stay as they were |
| Visibility.InitialConsistent | ragavi/ragavi.py:685-700 | the page starts consistent |
| Visibility.StepKeepsConsistent | ragavi/ragavi.py:706-901 | with at least 64 antennas every handler keeps labels, toggles and checkboxes consistent |
| Visibility.RunKeepsConsistent | ragavi/ragavi.py:706-901 | so does every sequence of actions |
| Visibility.ReachableConsistent | ragavi/ragavi.py:685-901 | every page reachable from the initial one, with at least 64 antennas, is consistent |
| Visibility.SelectAllOutlivesUntick | ragavi/ragavi.py:833-840 | after select-all and then unticking box 2, select-all still reads "Deselect all Antennas" while antenna 32 is hidden |
| Visibility.ShortTableNeverSyncs | ragavi/ragavi.py:771-840 | with 49 to 63 antennas, ticking all four boxes shows every antenna but leaves select-all off |
| Visibility.LowerErrorsNeverAppear | ragavi/ragavi.py:498 | no action creates a lower error glyph, since make_plots never gets a y2 error |
| Visibility.ErrorsCommuteWithSelectAll | ragavi/ragavi.py:706-767 | one error click and one select-all click give the same page in either order |
| Visibility.SelectAllLastWins | ragavi/ragavi.py:706-735 | only the last select-all click matters |
| Visibility.BatchesIdempotent | ragavi/ragavi.py:771-840 | a second identical checkbox change does nothing; what the reached antennas show depends only on the ticked list |
| Visibility.BatchEntry | ragavi/ragavi.py:771-830 | entry i of batch b exists iff rank 16b + i does, and then it is that rank |
| Visibility.ProcessedAtThrow | ragavi/ragavi.py:771-830 | where the handler throws, it has set exactly the existing ranks, and n < 64 |
| Visibility.ProcessedAtEnd | ragavi/ragavi.py:771-830 | when the handler finishes, it has set exactly ranks 0..63, and n >= 64 |
| Visibility.PlotControls.constructor | ragavi/ragavi.py:544-700 | the glyph, legend and control state main builds is the initial page |
| Visibility.PlotControls.ToggleSelectAll | ragavi/ragavi.py:706-735 | the handler's loop on the glyph array makes the select-all transition |
| Visibility.PlotControls.ToggleErrors | ragavi/ragavi.py:737-767 | the handler's loop on the glyph array makes the error-toggle transition |
| Visibility.PlotControls.ChangeBatches | ragavi/ragavi.py:771-840 | the handler's nested batch loops on the glyph array make the checkbox transition, including where it throws |
| Visibility.PlotControls.ChooseLegends | ragavi/ragavi.py:843-901 | the handler's four passes over the legend array make the dropdown transition |

## Left out

- Reading the table (casacore queries), command-line parsing, colour maps, figure layout, hover tools, and saving HTML/PNG/SVG: I/O and drawing calls. Their values enter as parameters.
- Antenna-list validation and the "no such antenna" exits (lines 367-381): these are part of argument handling, which is not modelled.
- The arithmetic of numpy's abs, angle, real, imag, unwrap and rad2deg: floating point. They are parameters of `Numerics`, so results are stated in terms of them.
- SolutionTransform.Unwrap: only the length and the per-element use of the given unwrap function are stated, because unwrap is floating-point arithmetic.
- AxisRanges.AxisAccumulator.Add: requires every series of the antenna to be non-empty (`Reducible`), because `np.min` of an empty array raises ValueError, and that path is not modelled.
- The x bounds are computed, but the source never applies them to a figure (only the y ranges are set at lines 610-611). The model computes them too and assigns them nowhere.
- A range override equal to -1 cannot be told apart from "not given", as in the source. This is not treated as an error.
- In delay tables, `np.array` drops the mask, so flagged FPARAM values are plotted and enter the ranges. The model keeps this behaviour.
- Bokeh's behaviour when the batch handler sets `antsel.active` from script: whether this may run the select-all callback as well depends on BokehJS, which is not part of this model. Each handler is modelled as one transition, without any re-entry.
- Legend clicks: `click_policy = 'hide'` (lines 117 and 661-664) lets a click on a legend entry hide or show that entry's glyph, outside the four handlers. These per-glyph toggles are not events of `Visibility.Step`, so `Visibility.ReachableConsistent` covers runs of the four controls only.
- ErrorBars.ErrorBar: the model takes plain value lists, but make_plots passes the masked `y1` and `y1_err` (lines 149-150), and a flagged point gives masked segment endpoints. The model does not carry those masks.
- The contracts of `Common.Unmask`, `TableKind.Upper`, `SolutionTransform.Column`, `SolutionTransform.Channels`, `SolutionTransform.Apply`, `SolutionTransform.Transpose`, `AxisRanges.Plain` and `LegendBatches.Ranks` define those slices and maps element by element. They are definitions, not derived properties.
- Floating-point rounding of the padding factors 1.1 and 0.9: the model uses exact reals.
- The error-bar glyph's colour, width and level: presentation only.
