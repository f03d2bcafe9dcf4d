/** utils/lang.go: the generic membership search used by the admission gate. */
module Lang {

  /** True exactly when some element of `arr` equals `val`; the search stops at the first match. */
  function Contains<T(==)>(arr: seq<T>, val: T): (found: bool)
    ensures found <==> exists i :: 0 <= i < |arr| && arr[i] == val
  {
    if arr == [] then false
    else if arr[0] == val then true
    else
      var rest := Contains(arr[1..], val);
      assert forall i :: 1 <= i < |arr| ==> arr[i] == arr[1..][i - 1];
      rest
  }

  /** The only use of the search: a one-element slice holds `val` iff its element is `val`. */
  lemma ContainsSingleton<T>(p: T, val: T)
    ensures Contains([p], val) <==> p == val
  {
    assert [p][0] == p;
  }

  /** Nothing is found in an empty slice. */
  lemma ContainsEmpty<T>(val: T)
    ensures !Contains([], val)
  {
  }

  /** Appending elements never loses a match. */
  lemma {:induction false} ContainsAppend<T>(arr: seq<T>, more: seq<T>, val: T)
    requires Contains(arr, val)
    ensures Contains(arr + more, val)
  {
    var i :| 0 <= i < |arr| && arr[i] == val;
    assert (arr + more)[i] == val;
  }
}
