/** Java's `String.compareTo`: the difference of the first differing
    characters, or else the difference of the lengths. */
module Lexicographic {

  /** Zero exactly for equal strings; the difference of the lengths when one
      string is a prefix of the other; otherwise the difference of the
      characters at the first index where they differ. */
  function CompareTo(a: string, b: string): (r: int)
    ensures r == 0 <==> a == b
    ensures |a| <= |b| && a == b[..|a|] ==> r == |a| - |b|
    ensures |b| <= |a| && b == a[..|b|] ==> r == |a| - |b|
    ensures forall k :: 0 <= k < |a| && k < |b| && a[..k] == b[..k] && a[k] != b[k] ==>
      r == a[k] as int - b[k] as int
  {
    if |a| == 0 || |b| == 0 then |a| - |b|
    else if a[0] != b[0] then
      assert forall k :: 0 < k < |a| && k < |b| ==> a[..k][0] == a[0] && b[..k][0] == b[0];
      a[0] as int - b[0] as int
    else
      assert a == [a[0]] + a[1..] && b == [b[0]] + b[1..];
      assert forall k :: 0 < k <= |a| && k <= |b| ==> a[1..][..k - 1] == a[..k][1..] && b[1..][..k - 1] == b[..k][1..];
      CompareTo(a[1..], b[1..])
  }
}
