/** Counting occurrences in queues. */
module Counting {

  function One(b: bool): nat { if b then 1 else 0 }

  function Count(s: seq<nat>, x: nat): nat { multiset(s)[x] }

  lemma CountAppend(s: seq<nat>, y: nat, x: nat)
    ensures Count(s + [y], x) == Count(s, x) + One(x == y)
  {
  }

  lemma CountPop(s: seq<nat>, x: nat)
    requires s != []
    ensures Count(s, x) == One(x == s[0]) + Count(s[1..], x)
  {
    assert s == [s[0]] + s[1..];
  }
}
