/** Python's subscript rules for sequences (lists and tuples): `s[i]` with
    negative indices and `s[i:j]` with omitted, negative and out-of-range
    bounds. Only step 1 is modelled, since that is all the tree uses. */
module PySeq {
  import opened PyValues

  /** The position that `s[i]` reads on a sequence of length `n`, or None when
      Python raises IndexError. A valid index is taken modulo `n` once. */
  function ResolveIndex(n: nat, i: int): (r: Option<nat>)
    ensures r.Some? <==> -(n as int) <= i < n
    ensures r.Some? ==> r.value < n && r.value == i % n
  {
    if i + n < 0 || n <= i then None
    else if i < 0 then Some(i + n)
    else Some(i)
  }

  /** `s[i]`. */
  function At<T>(s: seq<T>, i: int): (r: Result<T>)
    ensures r.Ok? <==> -|s| <= i < |s|
    ensures r.Ok? ==> r.value == s[i % |s|]
    ensures r.Err? ==> r.error == IndexError
  {
    match ResolveIndex(|s|, i)
    case None => Err(IndexError)
    case Some(k) => Ok(s[k])
  }

  /** One bound of a slice after Python's adjustment: a negative bound counts
      from the end, and the result is clamped into `[0, n]`. */
  function AdjustBound(n: nat, b: int): (r: nat)
    ensures r <= n
  {
    if b < 0 then (if b + n < 0 then 0 else b + n)
    else if b > n then n
    else b
  }

  /** The first position a slice `s[start:stop]` takes. */
  function SliceStart(n: nat, start: Option<int>): (r: nat)
    ensures r <= n
  {
    match start
    case None => 0
    case Some(b) => AdjustBound(n, b)
  }

  /** The position just past the last one a slice `s[start:stop]` takes. */
  function SliceStop(n: nat, stop: Option<int>): (r: nat)
    ensures r <= n
  {
    match stop
    case None => n
    case Some(b) => AdjustBound(n, b)
  }

  /** `s[start:stop]`: never raises; an empty range gives []. */
  function Slice<T>(s: seq<T>, start: Option<int>, stop: Option<int>): (r: seq<T>)
  {
    var lo, hi := SliceStart(|s|, start), SliceStop(|s|, stop);
    if lo < hi then s[lo..hi] else []
  }

  /** Reference reading of a slice bound, without clamping: a bound `b` on a
      sequence of length `n` stands for position `b` if `b >= 0` and `n + b`
      otherwise. */
  function BoundPosition(n: nat, b: int): int {
    if b < 0 then n + b else b
  }

  /** Reference definition of which positions a slice selects: those not before
      the start bound and before the stop bound. */
  predicate Selected(n: nat, start: Option<int>, stop: Option<int>, k: nat) {
    (start.None? || BoundPosition(n, start.value) <= k) &&
    (stop.None? || k < BoundPosition(n, stop.value))
  }

  /** A slice is the selected positions of `s`, in their original order, and
      nothing else. */
  lemma SliceSelects<T>(s: seq<T>, start: Option<int>, stop: Option<int>)
    ensures var r, lo := Slice(s, start, stop), SliceStart(|s|, start);
      && lo + |r| <= |s|
      && (forall t :: 0 <= t < |r| ==> r[t] == s[lo + t])
      && (forall k :: 0 <= k < |s| ==> (Selected(|s|, start, stop, k) <==> lo <= k < lo + |r|))
  {
  }

  /** A slice whose bounds reach past both ends of `s` is the whole of `s`. */
  lemma SliceWhole<T>(s: seq<T>, start: Option<int>, stop: Option<int>)
    requires start.None? || start.value == 0 || start.value <= -|s|
    requires stop.None? || stop.value >= |s|
    ensures Slice(s, start, stop) == s
  {
  }

  /** The length of a slice: the size of the clamped range, or 0. */
  lemma SliceLength<T>(s: seq<T>, start: Option<int>, stop: Option<int>)
    ensures |Slice(s, start, stop)| ==
      if SliceStart(|s|, start) < SliceStop(|s|, stop)
      then SliceStop(|s|, stop) - SliceStart(|s|, start) else 0
  {
  }
}
