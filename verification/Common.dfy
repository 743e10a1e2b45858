/** Small shared vocabulary: optional values and enumerations of finite sets. */
module Common {

  datatype Option<+T> = None | Some(value: T)

  ghost predicate Distinct<T>(s: seq<T>) {
    forall i, j :: 0 <= i < j < |s| ==> s[i] != s[j]
  }

  /** s lists every element of xs exactly once, in some order. */
  ghost predicate Enumerates<T(!new)>(s: seq<T>, xs: set<T>) {
    Distinct(s) && forall x :: x in s <==> x in xs
  }

  /** Go ranges over a map in an arbitrary order; so does this. */
  method Enumerate<T(!new)>(xs: set<T>) returns (s: seq<T>)
    ensures Enumerates(s, xs)
  {
    s := [];
    var rest := xs;
    while rest != {}
      invariant rest <= xs
      invariant Enumerates(s, xs - rest)
    {
      var x :| x in rest;
      s, rest := s + [x], rest - {x};
    }
  }

  lemma AppendDistinct<T>(s: seq<T>, x: T)
    requires Distinct(s) && x !in s
    ensures Distinct(s + [x])
  {
  }

  lemma DistinctLength<T>(s: seq<T>, xs: set<T>)
    requires Distinct(s)
    requires forall i :: 0 <= i < |s| ==> s[i] in xs
    ensures |s| <= |xs|
  {
    if s != [] {
      var last := s[|s| - 1];
      DistinctLength(s[..|s| - 1], xs - {last});
    }
  }
}
