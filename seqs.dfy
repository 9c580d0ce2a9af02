/** Python slicing of lists and strings. */
module Seqs {

  /** Python's normalisation of a slice bound against a length. */
  function SliceBound(i: int, len: nat): (r: nat)
    ensures r <= len
    ensures 0 <= i <= len ==> r == i
    ensures -(len as int) <= i < 0 ==> r == len + i
  {
    if i < 0 then (if i + len < 0 then 0 else i + len) else (if i > len then len else i)
  }

  /** Python `s[a:b]`. */
  function PySlice<T>(s: seq<T>, a: int, b: int): (r: seq<T>)
    ensures |r| <= |s|
  {
    var lo := SliceBound(a, |s|);
    var hi := SliceBound(b, |s|);
    if lo < hi then s[lo..hi] else []
  }

  /** Python `s[a:]`. */
  function PySliceFrom<T>(s: seq<T>, a: int): (r: seq<T>)
    ensures r == s[SliceBound(a, |s|)..]
  {
    s[SliceBound(a, |s|)..]
  }

  /** `s[-k:]` keeps the last `k` elements when there are more than `k`. */
  lemma LastK<T>(s: seq<T>, k: nat)
    requires 0 < k <= |s|
    ensures PySliceFrom(s, -(k as int)) == s[|s| - k..] && |PySliceFrom(s, -(k as int))| == k
  {
  }

  /** `s[-0:]` is `s[0:]`: the whole sequence. */
  lemma MinusZero<T>(s: seq<T>)
    ensures PySliceFrom(s, -0) == s
  {
  }

  /** `s[-k:]` keeps everything when the sequence has at most `k` elements. */
  lemma LastKShort<T>(s: seq<T>, k: nat)
    requires |s| <= k
    ensures PySliceFrom(s, -(k as int)) == s
  {
  }
}
