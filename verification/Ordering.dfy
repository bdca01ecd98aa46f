/** Locking order: rows of one kind are visited by ascending identifier. */
module Ordering {
  ghost function LeastOf(s: set<nat>): (m: nat)
    requires s != {}
    ensures m in s && forall y :: y in s ==> m <= y
  {
    var x :| x in s;
    assert s == (s - {x}) + {x};
    if s == {x} then x
    else
      var m := LeastOf(s - {x});
      assert forall y :: y in s ==> y == x || y in s - {x};
      if x < m then x else m
  }

  function Least(s: set<nat>): (m: nat)
    requires s != {}
    ensures m in s && forall y :: y in s ==> m <= y
  {
    ghost var least := LeastOf(s);
    assert least in s && forall y :: y in s ==> least <= y;
    var m :| m in s && forall y :: y in s ==> m <= y;
    m
  }

  predicate Distinct(ids: seq<nat>) {
    forall i, j :: 0 <= i < j < |ids| ==> ids[i] != ids[j]
  }

  function Ascending(s: set<nat>): (ids: seq<nat>)
    ensures forall x :: x in ids <==> x in s
    ensures Distinct(ids)
    ensures forall i, j :: 0 <= i < j < |ids| ==> ids[i] < ids[j]
  {
    if s == {} then [] else [Least(s)] + Ascending(s - {Least(s)})
  }
}
