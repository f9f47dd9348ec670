/** Which kind of calibration table a name denotes (gain "G", bandpass "B",
    delay "K"), how the per-antenna loop dispatches on it, and which x
    coordinate and axis labels each kind and display mode gets. */
module TableKind {
  import opened Common

  /** What `determine_table` returns: the matched suffix, upper-cased, or
      the integer sentinel -1 (NoMatch). */
  datatype TableTag = Tag(text: string) | NoMatch

  datatype Kind = Gain | Bandpass | Delay

  /** The letters the pattern `(G|K|B)` accepts under re.I (ASCII only,
      as in Python 2). */
  predicate IsKindLetter(c: char) { c in "GKBgkb" }

  function UpperChar(c: char): char {
    if 'a' <= c <= 'z' then (c as int - 32) as char else c
  }

  function Upper(s: string): (r: string)
    ensures |r| == |s|
    ensures forall k :: 0 <= k < |s| ==> r[k] == UpperChar(s[k])
  {
    seq(|s|, k requires 0 <= k < |s| => UpperChar(s[k]))
  }

  /** The text `$` anchors against: without re.M it matches at the very end
      and also just before one final newline. */
  function Body(s: string): (b: string)
    ensures |s| > 0 && s[|s| - 1] == '\n' ==> b == s[..|s| - 1] && b + "\n" == s
    ensures !(|s| > 0 && s[|s| - 1] == '\n') ==> b == s
  {
    if |s| > 0 && s[|s| - 1] == '\n' then s[..|s| - 1] else s
  }

  /** `\.(G|K|B)\d*$` matches b starting at p. */
  predicate MatchAt(b: string, p: nat) {
    p + 2 <= |b| && b[p] == '.' && IsKindLetter(b[p + 1]) && AllDigits(b[p + 2..])
  }

  predicate HasKindSuffix(s: string) {
    exists p: nat | p < |Body(s)| :: MatchAt(Body(s), p)
  }

  /** `re.search`: the leftmost start position from p on where the pattern
      matches. */
  function FirstMatch(b: string, p: nat): (r: Option<nat>)
    decreases |b| - p
    ensures r.Some? ==> p <= r.value && MatchAt(b, r.value)
    ensures r.Some? ==> forall q: nat :: p <= q < r.value ==> !MatchAt(b, q)
    ensures r.None? ==> forall q: nat :: p <= q ==> !MatchAt(b, q)
  {
    if p + 2 > |b| then None
    else if MatchAt(b, p) then Some(p)
    else FirstMatch(b, p + 1)
  }

  /** determine_table: the match of `\.(G|K|B)\d*$` (case-insensitive),
      upper-cased, or -1 when there is none. */
  function DetermineTable(name: string): (r: TableTag)
    ensures r.Tag? <==> HasKindSuffix(name)
    ensures r.Tag? ==> 2 <= |r.text| && r.text[0] == '.' && r.text[1] in "GKB" && AllDigits(r.text[2..])
  {
    var b := Body(name);
    match FirstMatch(b, 0)
    case Some(p) =>
      MatchShape(b, p);
      Tag(Upper(b[p..]))
    case None => NoMatch
  }

  /** A match reaches from its '.' to the end: no other '.' follows. */
  lemma MatchIsLastDot(b: string, p: nat, q: nat)
    requires MatchAt(b, p) && p < q < |b|
    ensures b[q] != '.'
  {
    if q >= p + 2 {
      assert b[q] == b[p + 2..][q - p - 2];
    }
  }

  /** A tag always has the shape the pattern describes, upper-cased, and it
      is (up to case) the end of the name, before an optional final
      newline. No tag comes back when the name has no such suffix. */
  lemma DetermineTableSound(name: string)
    ensures DetermineTable(name).Tag? <==> HasKindSuffix(name)
    ensures DetermineTable(name).Tag? ==>
      var t := DetermineTable(name).text;
      var b := Body(name);
      2 <= |t| <= |b| && t[0] == '.' && t[1] in "GKB" && AllDigits(t[2..]) &&
      t == Upper(b[|b| - |t|..])
  {
    var b := Body(name);
    match FirstMatch(b, 0)
    case Some(p) =>
      MatchShape(b, p);
      assert p < |b| && MatchAt(Body(name), p);
    case None =>
  }

  /** The upper-cased text of a match is a dot, an upper-case kind letter
      and the digits that follow it. */
  lemma MatchShape(b: string, p: nat)
    requires MatchAt(b, p)
    ensures var t := Upper(b[p..]);
      |t| == |b| - p && t[0] == '.' && t[1] in "GKB" && t[2..] == b[p + 2..]
  {
    var t := Upper(b[p..]);
    assert t[1] == UpperChar(b[p + 1]);
    forall k | 2 <= k < |t| ensures t[k] == b[p + 2..][k - 2] {
      assert t[k] == UpperChar(b[p + k]);
      assert IsDigit(b[p + 2..][k - 2]);
    }
  }

  /** Conversely: a name that ends (before an optional newline) in a dot,
      a kind letter in either case and only digits is classified by
      exactly that suffix, upper-cased, whatever comes before it. */
  lemma {:induction false} DetermineTableComplete(pre: string, c: char, digits: string, nl: string)
    requires IsKindLetter(c) && AllDigits(digits) && (nl == "" || nl == "\n")
    ensures DetermineTable(pre + ['.', c] + digits + nl) == Tag(['.', UpperChar(c)] + digits)
  {
    var name := pre + ['.', c] + digits + nl;
    var b := pre + ['.', c] + digits;
    if nl == "" {
      assert b[|b| - 1] == if |digits| == 0 then c else digits[|digits| - 1];
      assert name == b;
    } else {
      assert name[..|name| - 1] == b;
    }
    assert Body(name) == b;
    var p := |pre|;
    assert b[p + 2..] == digits;
    assert MatchAt(b, p);
    forall q: nat | q < p ensures !MatchAt(b, q) {
      if MatchAt(b, q) {
        MatchIsLastDot(b, q, p);
      }
    }
    FirstMatchFinds(b, 0, p);
    assert b[p..] == ['.', c] + digits;
    assert Upper(b[p..]) == ['.', UpperChar(c)] + Upper(digits);
    assert forall k :: 0 <= k < |digits| ==> UpperChar(digits[k]) == digits[k];
    assert Upper(digits) == digits;
  }

  lemma {:induction false} FirstMatchFinds(b: string, p: nat, m: nat)
    requires p <= m && MatchAt(b, m)
    requires forall q: nat :: p <= q < m ==> !MatchAt(b, q)
    ensures FirstMatch(b, p) == Some(m)
    decreases m - p
  {
    if p < m {
      FirstMatchFinds(b, p + 1, m);
    }
  }

  /** Python's `sub in s` for strings. */
  predicate Contains(s: string, sub: string) {
    exists k: nat | k <= |s| :: OccursAt(s, sub, k)
  }

  predicate OccursAt(s: string, sub: string, k: nat) {
    k + |sub| <= |s| && s[k..k + |sub|] == sub
  }

  /** The dispatch of the per-antenna loop: `".G" in tag`, then ".B",
      then ".K". `".G" in -1` raises TypeError, and a tag containing none
      of the three falls through with no data source assigned. */
  function KindOf(r: TableTag): (k: Result<Kind>)
    ensures k == Err(TypeError) <==> r.NoMatch?
    ensures k == Ok(Gain) <==> r.Tag? && Contains(r.text, ".G")
    ensures k == Ok(Bandpass) <==> r.Tag? && !Contains(r.text, ".G") && Contains(r.text, ".B")
    ensures k == Ok(Delay) <==> r.Tag? && !Contains(r.text, ".G") && !Contains(r.text, ".B") && Contains(r.text, ".K")
    ensures k.Err? ==> k.halt == TypeError || k.halt == UnboundLocal
  {
    match r
    case NoMatch => Err(TypeError)
    case Tag(t) =>
      if Contains(t, ".G") then Ok(Gain)
      else if Contains(t, ".B") then Ok(Bandpass)
      else if Contains(t, ".K") then Ok(Delay)
      else Err(UnboundLocal)
  }

  function LetterKind(c: char): Kind
    requires c in "GKB"
  {
    if c == 'G' then Gain else if c == 'B' then Bandpass else Delay
  }

  lemma ContainsDotLetter(t: string, x: char)
    requires 2 <= |t| && t[0] == '.' && t[1] in "GKB" && AllDigits(t[2..])
    ensures Contains(t, ['.', x]) <==> t[1] == x
  {
    if t[1] == x {
      assert OccursAt(t, ['.', x], 0);
    }
    if Contains(t, ['.', x]) {
      var k: nat :| k <= |t| && OccursAt(t, ['.', x], k);
      assert t[k..k + 2] == ['.', x];
      assert t[k] == '.' && t[k + 1] == x;
      assert forall j :: 2 <= j < |t| ==> t[j] == t[2..][j - 2] && t[j] != '.';
    }
  }

  /** On every name the dispatch either stops with the TypeError of
      `".G" in -1` (no kind suffix) or selects the kind named by the
      suffix letter; the fall-through and the "Invalid table" branches are
      never taken. */
  lemma KindOfDetermineTable(name: string)
    ensures var k := KindOf(DetermineTable(name));
      (k == Err(TypeError) <==> !HasKindSuffix(name)) &&
      (k.Ok? <==> HasKindSuffix(name)) &&
      (k.Ok? ==> k.value == LetterKind(DetermineTable(name).text[1]))
  {
    DetermineTableSound(name);
    if DetermineTable(name).Tag? {
      KindOfTag(DetermineTable(name).text);
    }
  }

  /** A well-formed tag selects the kind its letter names. */
  lemma KindOfTag(t: string)
    requires 2 <= |t| && t[0] == '.' && t[1] in "GKB" && AllDigits(t[2..])
    ensures KindOf(Tag(t)) == Ok(LetterKind(t[1]))
  {
    ContainsDotLetter(t, 'G');
    ContainsDotLetter(t, 'B');
    ContainsDotLetter(t, 'K');
    assert ['.', 'G'] == ".G" && ['.', 'B'] == ".B" && ['.', 'K'] == ".K";
  }

  /** Where the x coordinates of an antenna's glyphs come from. */
  datatype XSource = RelativeTime | ChannelIndex | AntennaColumn

  /** The axis setup of one plot run: x coordinates, axis labels and the
      two panel titles. */
  datatype Axes = Axes(x: XSource, xLabel: string, y1Label: string, y2Label: string,
                       title1: string, title2: string)

  /** The per-kind, per-mode choices of the antenna loop and the titles
      built after it. A display mode other than "ap" or "ri" exits with
      status -1 before any table access; "ri" on a delay table exits with
      status 0. */
  function PlotAxes(r: TableTag, doplot: string): (res: Result<Axes>)
    ensures doplot != "ap" && doplot != "ri" ==> res == Err(Exit(-1))
    ensures r == NoMatch && (doplot == "ap" || doplot == "ri") ==> res == Err(TypeError)
    ensures res.Ok? ==>
      res.value.title1 == res.value.y1Label + " vs " + res.value.xLabel &&
      res.value.title2 == res.value.y2Label + " vs " + res.value.xLabel
    ensures (doplot == "ap" || doplot == "ri") && KindOf(r).Err? ==> res == Err(KindOf(r).halt)
    ensures (doplot == "ap" || doplot == "ri") && KindOf(r) == Ok(Gain) ==>
      res.Ok? && res.value.x == RelativeTime && res.value.xLabel == "Time [s]"
    ensures (doplot == "ap" || doplot == "ri") && KindOf(r) == Ok(Bandpass) ==>
      res.Ok? && res.value.x == ChannelIndex && res.value.xLabel == "Channel"
    ensures doplot == "ap" && KindOf(r) == Ok(Delay) ==>
      res.Ok? && res.value.x == AntennaColumn && res.value.xLabel == "Antenna"
    ensures doplot == "ri" && KindOf(r) == Ok(Delay) ==> res == Err(Exit(0))
    ensures res.Ok? ==>
      (res.value.y1Label, res.value.y2Label) ==
      (if doplot == "ap" then ("Amplitude", "Phase [Deg]") else ("Real", "Imaginary"))
  {
    if doplot != "ap" && doplot != "ri" then Err(Exit(-1))
    else
      match KindOf(r)
      case Err(h) => Err(h)
      case Ok(kind) =>
        if kind == Delay && doplot == "ri" then Err(Exit(0))
        else
          var (x, xl) :=
            match kind
            case Gain => (RelativeTime, "Time [s]")
            case Bandpass => (ChannelIndex, "Channel")
            case Delay => (AntennaColumn, "Antenna");
          var (l1, l2) := if doplot == "ap" then ("Amplitude", "Phase [Deg]") else ("Real", "Imaginary");
          Ok(Axes(x, xl, l1, l2, l1 + " vs " + xl, l2 + " vs " + xl))
  }

  /** From the table name to the axes: a name ending in '.', a kind letter
      of either case and digits is plotted against time (G), channel (B)
      or antenna (K), and a delay table in "ri" mode stops with status 0. */
  lemma NameSelectsAxes(pre: string, c: char, digits: string, doplot: string)
    requires IsKindLetter(c) && AllDigits(digits) && (doplot == "ap" || doplot == "ri")
    ensures var res := PlotAxes(DetermineTable(pre + ['.', c] + digits), doplot);
      (UpperChar(c) == 'G' ==> res.Ok? && res.value.x == RelativeTime && res.value.xLabel == "Time [s]") &&
      (UpperChar(c) == 'B' ==> res.Ok? && res.value.x == ChannelIndex && res.value.xLabel == "Channel") &&
      (UpperChar(c) == 'K' && doplot == "ap" ==> res.Ok? && res.value.x == AntennaColumn && res.value.xLabel == "Antenna") &&
      (UpperChar(c) == 'K' && doplot == "ri" ==> res == Err(Exit(0)))
  {
    var name := pre + ['.', c] + digits;
    DetermineTableComplete(pre, c, digits, "");
    assert name + "" == name;
    KindOfDetermineTable(name);
  }

  /** The x values of one antenna: times made relative to the first one
      (computed for every kind, so an empty query raises IndexError), the
      channel numbers 0 .. nchan-1, or the ANTENNA1 column of the query. */
  function XValues(src: XSource, times: seq<real>, nchan: nat, antenna: seq<int>): (r: Result<seq<real>>)
    ensures r.Err? <==> |times| == 0
    ensures r.Ok? && src == RelativeTime ==>
      |r.value| == |times| && r.value[0] == 0.0 &&
      forall k :: 0 <= k < |times| ==> r.value[k] == times[k] - times[0]
    ensures r.Ok? && src == ChannelIndex ==>
      |r.value| == nchan && forall k :: 0 <= k < nchan ==> r.value[k] == k as real
    ensures r.Ok? && src == AntennaColumn ==>
      |r.value| == |antenna| && forall k :: 0 <= k < |antenna| ==> r.value[k] == antenna[k] as real
  {
    if |times| == 0 then Err(IndexError)
    else
      match src
      case RelativeTime => Ok(seq(|times|, k requires 0 <= k < |times| => times[k] - times[0]))
      case ChannelIndex => Ok(seq(nchan, k => k as real))
      case AntennaColumn => Ok(seq(|antenna|, k requires 0 <= k < |antenna| => antenna[k] as real))
  }
}
