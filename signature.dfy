/**
 * The positional/flag split of a command's `__call__` signature: `inspect.getfullargspec` yields
 * the parameter names (receiver first) and the tuple of defaults of the trailing parameters; the
 * parameters after the receiver and before the defaulted ones become positionals, the defaulted
 * ones become flags.
 */
module Signature {

  /** Python's clamping of a slice bound `k` (negative counts from the end) to a length `n`. */
  function SliceBound(k: int, n: nat): (b: nat)
    ensures b <= n
    ensures 0 <= k <= n ==> b == k
    ensures -(n as int) <= k < 0 ==> b == n + k
    ensures k > n ==> b == n
    ensures k < -(n as int) ==> b == 0
  {
    if k < 0 then (if k + n < 0 then 0 else k + n)
    else if k > n then n
    else k
  }

  /** `s[start:stop]`. */
  function PySlice<T>(s: seq<T>, start: int, stop: int): seq<T> {
    var lo, hi := SliceBound(start, |s|), SliceBound(stop, |s|);
    if lo < hi then s[lo..hi] else []
  }

  /**
   * `spec[0][1:-len(spec[3])]` and `spec[0][-len(spec[3]):]` when there are defaults,
   * `spec[0][1:]` and `[]` otherwise, where `spec[0]` is the receiver followed by `params`.
   * With no more defaults than parameters the positionals are the leading parameters and the flags
   * the last `defaultCount`, together the whole list in order; with more (only a defaulted receiver
   * allows that) Python's clamping leaves no positional and moves the receiver into the flags.
   */
  function SplitSignature(receiver: string, params: seq<string>, defaultCount: nat)
    : (r: (seq<string>, seq<string>))
    ensures defaultCount <= |params| ==>
              && r.0 == params[..|params| - defaultCount]
              && r.1 == params[|params| - defaultCount..]
              && r.0 + r.1 == params
              && |r.1| == defaultCount
    ensures defaultCount > |params| ==> r.0 == [] && r.1 == [receiver] + params
  {
    var args := [receiver] + params;
    if defaultCount > 0 then
      (PySlice(args, 1, -(defaultCount as int)), PySlice(args, -(defaultCount as int), |args|))
    else
      (PySlice(args, 1, |args|), [])
  }
}
