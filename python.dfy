/**
 The small part of Python's semantics that `open_grid` relies on: optional
 values (`None`), the exceptions it can raise, and the meaning of a slice
 `s[start:stop]` with step 1, including clamping and negative indices.
 */
module Python {

  /** A Python value that may be `None`. */
  datatype Option<+T> = None | Some(value: T)

  /** The exceptions that the modelled code can raise. */
  datatype Error =
    | KeyError(key: string)          // a variable or metadata entry that is not there
    | AttributeError(name: string)   // attribute-style access to a dataset attribute that is not there
    | TypeError(name: string)        // indexing a dataset attribute that is not a dictionary
    | ScalarConversion(name: string) // int() or bool() of an array that does not hold exactly one element
    | MissingDimension(dim: string)  // isel along a dimension the dataset does not have
    | AmbiguousTruth(name: string)   // bool() of a comparison over two or more cells (numpy's ValueError)
    | ConcatMismatch                 // xr.concat(..., compat='identical') found pieces that disagree
    | NotImplemented                 // the NotImplementedError raised for the y-boundary mismatch

  /** The value of an expression, or the exception it raised; usable with `:-`. */
  datatype Result<+T> = Ok(value: T) | Err(error: Error) {
    predicate IsFailure() { Err? }
    function PropagateFailure<U>(): Result<U> requires Err? { Err(error) }
    function Extract(): T requires Ok? { value }
  }

  /** Where a slice bound lands in a sequence of length n: a negative bound
      counts from the end, and the result is clamped to 0..n. */
  function SliceBound(i: int, n: nat): (r: nat)
    ensures r <= n
  {
    if i < 0 then (if i + n < 0 then 0 else i + n)
    else if i > n then n
    else i
  }

  /** Python's `s[start:stop]` (step 1); `None` bounds mean "from the start"
      and "to the end". It never fails. */
  function PySlice<T>(s: seq<T>, start: Option<int>, stop: Option<int>): (r: seq<T>)
    ensures |r| <= |s|
  {
    var lo := if start.None? then 0 else SliceBound(start.value, |s|);
    var hi := if stop.None? then |s| else SliceBound(stop.value, |s|);
    if lo < hi then s[lo..hi] else []
  }

  /** Every slice is a contiguous window of the sequence it was taken from. */
  lemma PySliceIsWindow<T>(s: seq<T>, start: Option<int>, stop: Option<int>)
    returns (lo: nat)
    ensures lo + |PySlice(s, start, stop)| <= |s|
    ensures PySlice(s, start, stop) == s[lo..lo + |PySlice(s, start, stop)|]
  {
    var r := PySlice(s, start, stop);
    var first := if start.None? then 0 else SliceBound(start.value, |s|);
    var last := if stop.None? then |s| else SliceBound(stop.value, |s|);
    lo := if first < last then first else 0;
  }

  /** A negative bound -k with k <= |s| means the same as |s| - k. */
  lemma PySliceNegativeBounds<T>(s: seq<T>, a: int, b: int)
    requires -|s| <= a < 0 && -|s| <= b < 0
    ensures PySlice(s, Some(a), Some(b)) == PySlice(s, Some(|s| + a), Some(|s| + b))
    ensures PySlice(s, Some(a), None) == s[|s| + a..]
    ensures PySlice(s, None, Some(b)) == s[..|s| + b]
  {
  }

  /** Bounds inside the sequence select exactly s[a..b]; bounds past the end
      are clamped, so slicing never raises. */
  lemma PySliceInRange<T>(s: seq<T>, a: int, b: int)
    requires 0 <= a <= b
    ensures b <= |s| ==> PySlice(s, Some(a), Some(b)) == s[a..b]
    ensures |s| <= a ==> PySlice(s, Some(a), Some(b)) == []
    ensures a <= |s| <= b ==> PySlice(s, Some(a), Some(b)) == s[a..]
  {
  }
}
