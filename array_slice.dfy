/** `Array.prototype.slice` as the ECMAScript language specification defines
    it, for integer arguments: both bounds are taken relative to the length
    (counting from the end when negative), clamped into the array, and the
    elements from the start bound up to the end bound are copied in order. */
module ArraySlice {

  function Min(a: int, b: int): int { if a < b then a else b }

  /** The clamping of a relative index `relative` into [0, len]. */
  function Clamp(relative: int, len: nat): (k: nat)
    ensures k <= len
    ensures 0 <= relative <= len ==> k == relative
    ensures len < relative ==> k == len
    ensures relative < 0 <= len + relative ==> k == len + relative
    ensures len + relative < 0 ==> k == 0
  {
    if relative < 0 then
      (if len + relative < 0 then 0 else len + relative)
    else
      Min(relative, len)
  }

  /** The copying loop of the definition, element k up to element final - 1. */
  function CopyFrom<T>(s: seq<T>, k: nat, final: nat): (r: seq<T>)
    requires k <= final <= |s|
    ensures |r| == final - k
    ensures forall i :: 0 <= i < |r| ==> r[i] == s[k + i]
    decreases final - k
  {
    if k == final then [] else [s[k]] + CopyFrom(s, k + 1, final)
  }

  /** `s.slice(start, end)`. */
  function Slice<T>(s: seq<T>, start: int, end: int): (r: seq<T>)
    ensures Clamp(start, |s|) <= Clamp(end, |s|) ==> r == s[Clamp(start, |s|)..Clamp(end, |s|)]
    ensures Clamp(end, |s|) < Clamp(start, |s|) ==> r == []
  {
    var from := Clamp(start, |s|);
    var final := Clamp(end, |s|);
    if from < final then CopyFrom(s, from, final) else []
  }

  /** `s.slice(0, n)` keeps the first min(n, |s|) elements, in order. */
  lemma SliceHead<T>(s: seq<T>, n: nat)
    ensures Slice(s, 0, n) == s[..Min(n, |s|)]
    ensures |Slice(s, 0, n)| <= n
    ensures Slice(s, 0, n) <= s
  {
  }
}
