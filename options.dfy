/** Optional values, standing in for Python's `None`-or-value variables. */
module Options {

  datatype Option<+T> = None | Some(value: T)

  /** Python truthiness of an `Optional[str]`: `None` and `""` are both falsy. */
  predicate Truthy(o: Option<string>) {
    o.Some? && o.value != ""
  }

  /** The values `f` gives to the elements of `xs` it keeps, in order: the
      shape of a loop that appends to a list under a condition. */
  function FilterMap<T, U>(xs: seq<T>, f: T -> Option<U>): (ys: seq<U>)
    ensures |ys| <= |xs|
  {
    if xs == [] then []
    else
      var front := FilterMap(xs[..|xs| - 1], f);
      match f(xs[|xs| - 1])
      case None => front
      case Some(y) => front + [y]
  }

  /** A value is in the result exactly when `f` gives it to some element. */
  lemma {:induction false} FilterMapComplete<T, U>(xs: seq<T>, f: T -> Option<U>, y: U)
    ensures y in FilterMap(xs, f) <==> exists k :: 0 <= k < |xs| && f(xs[k]) == Some(y)
  {
    if xs != [] {
      var n := |xs| - 1;
      FilterMapComplete(xs[..n], f, y);
      if y in FilterMap(xs, f) && y in FilterMap(xs[..n], f) {
        var k :| 0 <= k < n && f(xs[..n][k]) == Some(y);
        assert xs[..n][k] == xs[k];
      }
      if exists k :: 0 <= k < |xs| && f(xs[k]) == Some(y) {
        var k :| 0 <= k < |xs| && f(xs[k]) == Some(y);
        if k < n {
          assert xs[..n][k] == xs[k];
        }
      }
    }
  }
}
