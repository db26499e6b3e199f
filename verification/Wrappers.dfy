/** What every other module shares. */
module Wrappers {
  datatype Option<+T> = None | Some(value: T)

  /** A part of a set is no larger. */
  lemma {:induction false} Fewer<T>(a: set<T>, b: set<T>)
    requires a <= b
    ensures |a| <= |b|
  {
    if a != {} {
      var k :| k in a;
      Fewer(a - {k}, b - {k});
    }
  }
}
