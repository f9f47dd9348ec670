/** Small shared vocabulary: optional values, results, numpy masked
    entries and Python-style integer indexing. */
module Common {

  datatype Option<+T> = None | Some(value: T)

  /** Why a step of the program stops instead of producing a value. */
  datatype Halt =
    | IndexError       // numpy or Python index out of bounds
    | TypeError        // an operation on a value of the wrong type
    | UnboundLocal     // a local variable read before any assignment
    | Exit(status: int) // sys.exit with the given status

  datatype Result<+T> = Ok(value: T) | Err(halt: Halt)

  /** One entry of a numpy masked array: the stored value and its mask bit
      (true means flagged, i.e. excluded from reductions). A plain array is
      one whose entries all carry flag false. */
  datatype Masked<+T> = Masked(value: T, flag: bool)

  /** Python/numpy indexing of an axis of length n by an integer: negative
      indices count from the end; anything else outside the axis is an
      IndexError (None here). */
  function PyIndex(i: int, n: nat): (r: Option<nat>)
    ensures r.Some? <==> -(n as int) <= i < n
    ensures r.Some? ==> r.value < n && (r.value == i || r.value == n + i)
  {
    if 0 <= i < n then Some(i)
    else if -(n as int) <= i < 0 then Some(n + i)
    else None
  }

  /** The same sequence with every mask bit cleared, as `np.array` of a
      masked array returns: the stored values, nothing masked. */
  function Unmask<T>(s: seq<Masked<T>>): (r: seq<Masked<T>>)
    ensures |r| == |s|
    ensures forall k :: 0 <= k < |s| ==> r[k].value == s[k].value && !r[k].flag
  {
    seq(|s|, k requires 0 <= k < |s| => Masked(s[k].value, false))
  }

  /** Python 2's `\d`: an ASCII decimal digit. */
  predicate IsDigit(c: char) { '0' <= c <= '9' }

  predicate AllDigits(s: string) { forall k :: 0 <= k < |s| ==> IsDigit(s[k]) }
}
