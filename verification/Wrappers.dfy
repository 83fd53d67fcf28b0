/** What several modules need. */
module Wrappers {

  datatype Option<T> = None | Some(value: T)

  newtype byte = x: int | 0 <= x < 256

  lemma SubsetSize<T>(small: set<T>, large: set<T>)
    requires small <= large
    ensures |small| <= |large|
  {
    if small != {} {
      var x :| x in small;
      SubsetSize(small - {x}, large - {x});
    }
  }

  /** A subset that is not smaller is the whole set. */
  lemma SameSet<T>(small: set<T>, large: set<T>)
    requires small <= large && |small| >= |large|
    ensures small == large
  {
    if small != large {
      var x :| x in large && x !in small;
      SubsetSize(small, large - {x});
    }
  }
}
