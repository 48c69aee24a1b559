module Collections {
  /** An arbitrary element, as iterating over a map gives. */
  method AnyOf<T>(s: set<T>) returns (x: T)
    requires s != {}
    ensures x in s
  {
    x :| x in s;
  }
}
