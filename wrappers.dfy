/** Option values: a Python `None` versus a present value. */
module Wrappers {

  datatype Option<+T> = None | Some(value: T) {

    /** The value, or `default` when absent (Python's `d.get(key, default)`). */
    function GetOr(default: T): T {
      match this
      case Some(v) => v
      case None => default
    }
  }

  /** The present values of `s`, in order. */
  function Somes<T>(s: seq<Option<T>>): (r: seq<T>)
    ensures |r| <= |s|
  {
    if s == [] then []
    else Somes(s[..|s| - 1]) + if s[|s| - 1].Some? then [s[|s| - 1].value] else []
  }

  /**
   * The positions of the present values of `s`, in increasing order: Somes(s) is exactly
   * the present values of `s`, each once, in their order in `s`.
   */
  function SomeIndices<T>(s: seq<Option<T>>): (r: seq<nat>)
    ensures |r| == |Somes(s)|
    ensures forall j :: 0 <= j < |r| ==> r[j] < |s| && s[r[j]] == Some(Somes(s)[j])
    ensures forall j, k :: 0 <= j < k < |r| ==> r[j] < r[k]
    ensures forall i :: 0 <= i < |s| && s[i].Some? ==> i in r
  {
    if s == [] then []
    else
      var n := |s| - 1;
      var init := SomeIndices(s[..n]);
      assert forall i :: 0 <= i < n ==> s[..n][i] == s[i];
      if s[n].Some? then init + [n] else init
  }
}
