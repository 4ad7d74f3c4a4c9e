/** How the protocol layer moves repeated fields between the wire and the
    domain: a `List` keeps length, order and duplicates; a `Set` keeps only
    which values occur. */
module Collections {

  /** `list.stream().map(f).collect(toList())`. */
  function MapSeq<A, B>(s: seq<A>, f: A -> B): (r: seq<B>)
    ensures |r| == |s|
    ensures forall i :: 0 <= i < |s| ==> r[i] == f(s[i])
  {
    if s == [] then [] else [f(s[0])] + MapSeq(s[1..], f)
  }

  /** `list.stream().map(f).collect(toSet())`. */
  function MapToSet<A(==), B>(s: seq<A>, f: A -> B): (r: set<B>)
    ensures forall i :: 0 <= i < |s| ==> f(s[i]) in r
    ensures forall y :: y in r ==> exists i :: 0 <= i < |s| && f(s[i]) == y
    ensures r == {} <==> s == []
  {
    assert s != [] ==> f(s[0]) in set x | x in s :: f(x);
    set x | x in s :: f(x)
  }

  /** Repeated elements collapse: the set is never larger than the list. */
  lemma {:induction false} MapToSetSize<A, B>(s: seq<A>, f: A -> B)
    ensures |MapToSet(s, f)| <= |s|
  {
    if s != [] {
      MapToSetSize(s[1..], f);
      assert MapToSet(s, f) == {f(s[0])} + MapToSet(s[1..], f) by {
        forall y | y in MapToSet(s, f) ensures y in {f(s[0])} + MapToSet(s[1..], f) {
          var i :| 0 <= i < |s| && f(s[i]) == y;
          if i > 0 { assert s[1..][i - 1] == s[i]; }
        }
        forall y | y in MapToSet(s[1..], f) ensures y in MapToSet(s, f) {
          var i :| 0 <= i < |s[1..]| && f(s[1..][i]) == y;
          assert s[i + 1] == s[1..][i];
        }
      }
    }
  }

  /** Some enumeration of a set, without repetitions: the order in which a
      `HashSet` hands its elements to a repeated wire field. The order is
      unspecified, so the model leaves it unspecified too. */
  ghost function SetToSeq<T>(s: set<T>): (r: seq<T>)
    ensures |r| == |s|
    ensures forall x :: x in s ==> x in r
    ensures forall i :: 0 <= i < |r| ==> r[i] in s
    ensures forall i, j :: 0 <= i < j < |r| ==> r[i] != r[j]
  {
    if s == {} then []
    else
      var x :| x in s;
      [x] + SetToSeq(s - {x})
  }

  /** A `java.util.HashSet`: an object that several other objects can point
      to, so an addition through one of them is seen by all. */
  class HashSet<T(==)> {
    var elements: set<T>

    constructor ()
      ensures elements == {}
    {
      elements := {};
    }

    /** `addAll(asList(xs))`: adds every given element. */
    method AddAll(xs: seq<T>)
      modifies this
      ensures elements == old(elements) + set x | x in xs
    {
      elements := elements + set x | x in xs;
    }
  }
}
