/** The partition of the per-antenna legend items into legends of at most
    sixteen entries, and the labels of the checkboxes that stand for those
    batches. */
module LegendBatches {
  import opened Common

  const BatchSize: nat := 16

  function Min(a: int, b: int): int { if a <= b then a else b }

  /** `int(np.ceil(n / float(16)))`, the number of legend objects. */
  function NumBatches(n: nat): (m: nat)
    ensures m == (n + 15) / 16
  {
    CeilingOfSixteenth(n);
    -((-(n as real) / 16.0).Floor)
  }

  lemma CeilingOfSixteenth(n: nat)
    ensures -((-(n as real) / 16.0).Floor) == (n + 15) / 16
  {
    var q := (n + 15) / 16;
    assert 16 * q <= n + 15 < 16 * q + 16;
    var r := -(n as real) / 16.0;
    assert (-q) as real <= r < (-q) as real + 1.0;
  }

  /** `items[lo:hi]` for non-negative bounds: Python clamps them to the
      length. */
  function PySlice<T>(items: seq<T>, lo: nat, hi: nat): (r: seq<T>)
    requires lo <= hi
    ensures |r| == Min(hi, |items|) - Min(lo, |items|)
    ensures forall k :: 0 <= k < |r| ==> r[k] == items[lo + k]
  {
    items[Min(lo, |items|)..Min(hi, |items|)]
  }

  /** The batches as a reference definition: batch i holds the items of
      ranks 16i up to, but excluding, min(16i + 16, n). */
  function Batches<T>(items: seq<T>): (b: seq<seq<T>>)
    ensures |b| == NumBatches(|items|)
  {
    var n := |items|;
    seq(NumBatches(n), i requires 0 <= i < NumBatches(n) => items[16 * i..Min(16 * i + 16, n)])
  }

  /** The batching loop: `j` advances by the batch size and each pass
      appends `items[j:j+16]`. (Its `i == num_legend_objs` branch cannot be
      taken inside `range(num_legend_objs)`.) */
  method MakeBatches<T>(items: seq<T>) returns (batches: seq<seq<T>>)
    ensures batches == Batches(items)
  {
    var num := NumBatches(|items|);
    batches := [];
    var j := 0;
    for i := 0 to num
      invariant j == BatchSize * i
      invariant batches == Batches(items)[..i]
    {
      batches := batches + [PySlice(items, j, j + BatchSize)];
      j := j + BatchSize;
    }
  }

  /** The concatenation of a list of lists, in order. */
  function Flatten<T>(s: seq<seq<T>>): seq<T>
    decreases |s|
  {
    if s == [] then [] else Flatten(s[..|s| - 1]) + s[|s| - 1]
  }

  lemma {:induction false} FlattenPrefix<T>(items: seq<T>, k: nat)
    requires k <= NumBatches(|items|)
    ensures Flatten(Batches(items)[..k]) == items[..Min(16 * k, |items|)]
  {
    var b := Batches(items);
    if k > 0 {
      FlattenPrefix(items, k - 1);
      assert b[..k][..k - 1] == b[..k - 1];
      assert items[..Min(16 * k, |items|)] == items[..16 * (k - 1)] + b[k - 1];
    }
  }

  /** Concatenating the batches gives back the antennas in their order. */
  lemma BatchesConcatenate<T>(items: seq<T>)
    ensures Flatten(Batches(items)) == items
  {
    var b := Batches(items);
    FlattenPrefix(items, |b|);
    assert b[..|b|] == b;
  }

  /** Every batch but the last holds exactly sixteen items; the last is
      non-empty and holds at most sixteen. */
  lemma BatchSizes<T>(items: seq<T>)
    ensures var b := Batches(items);
      (forall i :: 0 <= i < |b| - 1 ==> |b[i]| == BatchSize) &&
      (|b| > 0 ==> 0 < |b[|b| - 1]| <= BatchSize)
  {
  }

  /** The item of rank r sits in batch r / 16 at position r % 16. */
  lemma BatchOfRank<T>(items: seq<T>, r: nat)
    requires r < |items|
    ensures var b := Batches(items);
      r / 16 < |b| && r % 16 < |b[r / 16]| && b[r / 16][r % 16] == items[r]
  {
  }

  function DigitChar(d: nat): char
    requires d < 10
  {
    ('0' as int + d) as char
  }

  /** `str(n)` of a non-negative int: its decimal digits, no leading zero. */
  function NatToString(n: nat): (s: string)
    ensures |s| > 0 && AllDigits(s)
    decreases n
  {
    if n < 10 then [DigitChar(n)] else NatToString(n / 10) + [DigitChar(n % 10)]
  }

  /** The number a string of decimal digits denotes. */
  function DigitsValue(s: string): nat
    requires AllDigits(s)
    decreases |s|
  {
    if s == [] then 0 else DigitsValue(s[..|s| - 1]) * 10 + (s[|s| - 1] as int - '0' as int)
  }

  lemma {:induction false} NatToStringValue(n: nat)
    ensures DigitsValue(NatToString(n)) == n
    decreases n
  {
    if n >= 10 {
      NatToStringValue(n / 10);
      var s := NatToString(n);
      assert s[..|s| - 1] == NatToString(n / 10);
    }
  }

  /** `"A%s - A%s" % (s, e)`. */
  function LabelText(s: nat, e: nat): string {
    "A" + NatToString(s) + " - A" + NatToString(e)
  }

  /** The label loop: `s` and `e` start at 0 and 15 and advance by the
      batch size, one label per batch. */
  method CheckboxLabels(num: nat) returns (labels: seq<string>)
    ensures |labels| == num
    ensures forall i :: 0 <= i < num ==> labels[i] == LabelText(BatchSize * i, BatchSize * i + BatchSize - 1)
  {
    labels := [];
    var s, e := 0, BatchSize - 1;
    for i := 0 to num
      invariant s == BatchSize * i && e == BatchSize * i + BatchSize - 1
      invariant |labels| == i
      invariant forall k :: 0 <= k < i ==> labels[k] == LabelText(BatchSize * k, BatchSize * k + BatchSize - 1)
    {
      labels := labels + [LabelText(s, e)];
      s := s + BatchSize;
      e := e + BatchSize;
    }
  }

  /** The longest prefix of decimal digits. */
  function TakeDigits(s: string): (d: string)
    ensures |d| <= |s| && d == s[..|d|] && AllDigits(d)
    ensures |d| < |s| ==> !IsDigit(s[|d|])
  {
    if s != [] && IsDigit(s[0]) then [s[0]] + TakeDigits(s[1..]) else []
  }

  lemma {:induction false} TakeDigitsOf(d: string, rest: string)
    requires AllDigits(d) && (rest == [] || !IsDigit(rest[0]))
    ensures TakeDigits(d + rest) == d
    decreases |d|
  {
    if d != [] {
      assert (d + rest)[1..] == d[1..] + rest;
      TakeDigitsOf(d[1..], rest);
    } else {
      assert d + rest == rest;
    }
  }

  /** Reading a checkbox label back into the two numbers it shows. */
  function ParseLabel(l: string): Option<(nat, nat)> {
    if |l| == 0 || l[0] != 'A' then None
    else
      var d1 := TakeDigits(l[1..]);
      var rest := l[1 + |d1|..];
      if |d1| == 0 || |rest| < 4 || rest[..4] != " - A" then None
      else
        var d2 := rest[4..];
        if |d2| == 0 || !AllDigits(d2) then None
        else Some((DigitsValue(d1), DigitsValue(d2)))
  }

  /** The label text round-trips: it shows exactly the two numbers it was
      made from. */
  lemma LabelTextParses(s: nat, e: nat)
    ensures ParseLabel(LabelText(s, e)) == Some((s, e))
  {
    var l := LabelText(s, e);
    var ds, de := NatToString(s), NatToString(e);
    assert l[1..] == ds + (" - A" + de);
    TakeDigitsOf(ds, " - A" + de);
    assert l[1 + |ds|..] == " - A" + de;
    assert (" - A" + de)[4..] == de;
    NatToStringValue(s);
    NatToStringValue(e);
  }

  /** Glyph ranks for n antennas, in plotting order: what the batches of
      the legend items are batches of. */
  function Ranks(n: nat): (r: seq<nat>)
    ensures |r| == n && forall k :: 0 <= k < n ==> r[k] == k
  {
    seq(n, k requires 0 <= k < n => k as nat)
  }

  /** Checkbox i reads "A16i - A16i+15", and an existing rank is in batch i
      exactly when that label's range covers it. The label shows ranks, not
      antenna IDs, and for a short last batch it also names ranks that do
      not exist. */
  lemma LabelNamesBatchRanks(n: nat, i: nat, r: nat)
    requires i < NumBatches(n) && r < n
    ensures ParseLabel(LabelText(BatchSize * i, BatchSize * i + BatchSize - 1)) == Some((16 * i, 16 * i + 15))
    ensures r in Batches(Ranks(n))[i] <==> 16 * i <= r <= 16 * i + 15
  {
    LabelTextParses(BatchSize * i, BatchSize * i + BatchSize - 1);
    var b := Batches(Ranks(n))[i];
    assert b == Ranks(n)[16 * i..Min(16 * i + 16, n)];
    if 16 * i <= r <= 16 * i + 15 {
      assert b[r - 16 * i] == r;
    }
    if r in b {
      var j :| 0 <= j < |b| && b[j] == r;
      assert b[j] == 16 * i + j;
    }
  }
}
