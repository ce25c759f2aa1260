/**
 * Python list slicing with one bound, `s[k:]` and `s[:k]`, for any integer
 * `k`: a negative bound counts from the end and every bound is clamped to
 * the list.
 */
module Slicing {

  /** The index Python uses for a slice bound `k` on a list of length `n`. */
  function ClampIndex(k: int, n: nat): (r: nat)
    ensures r <= n
    ensures 0 <= k <= n ==> r == k
    ensures k > n ==> r == n
    ensures k < 0 ==> r == if n + k >= 0 then n + k else 0
  {
    if k >= 0 then (if k <= n then k else n)
    else if n + k >= 0 then n + k else 0
  }

  /** `s[k:]`. */
  function Drop<T>(s: seq<T>, k: int): seq<T>
  {
    s[ClampIndex(k, |s|)..]
  }

  /** `s[:k]`. */
  function Take<T>(s: seq<T>, k: int): seq<T>
  {
    s[..ClampIndex(k, |s|)]
  }
}
