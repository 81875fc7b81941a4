/** Python list slicing with its clamping and negative-index rules, on Dafny sequences. */
module Lists {

  function Min(a: int, b: int): int { if a <= b then a else b }
  function Max(a: int, b: int): int { if a <= b then b else a }

  /** `s[:k]`: a prefix of `s`; a negative `k` counts from the end and out-of-range bounds are
      clamped. */
  function Take<T>(s: seq<T>, k: int): (r: seq<T>)
    ensures |r| == if k >= 0 then Min(k, |s|) else Max(0, |s| + k)
    ensures |r| == |s| ==> r == s
    ensures |r| < |s| ==> r == s[..|r|]
  {
    if k >= 0 then s[..Min(k, |s|)] else s[..Max(0, |s| + k)]
  }

  /** `s[-n:]`. For `n >= 1` these are the last `n` elements (all of them when there are fewer);
      `s[-0:]` is `s[0:]`, the whole list; a negative `n` drops the first `-n` elements. */
  function TakeLast<T>(s: seq<T>, n: int): (r: seq<T>)
    ensures |r| == if n >= 1 then Min(n, |s|) else if n == 0 then |s| else Max(0, |s| + n)
    ensures |r| == |s| ==> r == s
    ensures |r| < |s| ==> r == s[|s| - |r|..]
  {
    if n >= 1 then (if |s| <= n then s else s[|s| - n..])
    else if n == 0 then s
    else if -n >= |s| then []
    else s[-n..]
  }
}
