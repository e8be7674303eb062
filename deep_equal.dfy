/**
 * The two shapes of `reflect.DeepEqual` the predicates rely on, taken at the
 * top level only: a label map (`map[string]string`) and a slice of status
 * entries. A Go map or slice may be nil, which is modelled as `None`; a nil
 * value is deeply equal only to another nil value, never to an empty one.
 * Elements and map values are compared with Dafny equality.
 */
module DeepEqual {
  import opened Optional

  /** Go's rule for maps: both nil, or both non-nil with the same length
      and every key of the first mapped to an equal value in the second. */
  function MapDeepEqual<K, V(==)>(a: Option<map<K, V>>, b: Option<map<K, V>>): (r: bool)
    ensures r <==> a == b
  {
    match (a, b)
    case (None, None) => true
    case (Some(x), Some(y)) =>
      if |x| == |y| && forall k :: k in x ==> k in y && x[k] == y[k] then
        SameSizeSubmapIsEqual(x, y);
        true
      else
        false
    case _ => false
  }

  /** Go's rule for slices: both nil, or both non-nil with the same length
      and equal elements at every index. */
  function SliceDeepEqual<T(==)>(a: Option<seq<T>>, b: Option<seq<T>>): (r: bool)
    ensures r <==> a == b
  {
    match (a, b)
    case (None, None) => true
    case (Some(x), Some(y)) =>
      if |x| == |y| && forall i :: 0 <= i < |x| ==> x[i] == y[i] then
        assert x == y;
        true
      else
        false
    case _ => false
  }

  /** A map whose entries all occur in a map of the same size is that map:
      the second map cannot hold a key the first one lacks. */
  lemma SameSizeSubmapIsEqual<K, V>(x: map<K, V>, y: map<K, V>)
    requires |x| == |y|
    requires forall k :: k in x ==> k in y && x[k] == y[k]
    ensures x == y
  {
    assert x.Keys <= y.Keys;
    var extra := y.Keys - x.Keys;
    assert y.Keys == x.Keys + extra;
    assert |y.Keys| == |x.Keys| + |extra|;
    assert x.Keys == y.Keys;
  }
}
