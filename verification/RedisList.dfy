/** The Redis list commands the queue is built from. Index 0 is the head. */
module RedisList {

  function One(b: bool): nat {
    if b then 1 else 0
  }

  function Less(n: nat, m: nat): nat {
    if n < m then 0 else n - m
  }

  /** How often x occurs in the list. */
  function Count<T(==)>(list: seq<T>, x: T): (n: nat)
    ensures n > 0 <==> x in list
  {
    multiset(list)[x]
  }

  function LPush<T(==,!new)>(list: seq<T>, x: T): (r: seq<T>)
    ensures forall y :: Count(r, y) == Count(list, y) + One(y == x)
    ensures forall y :: y in r <==> y in list || y == x
  {
    [x] + list
  }

  /** The element BRPOPLPUSH takes, and what it leaves behind. */
  function Tail<T>(list: seq<T>): (x: T)
    requires list != []
    ensures x in list
  {
    list[|list| - 1]
  }

  function RPop<T(==,!new)>(list: seq<T>): (r: seq<T>)
    requires list != []
    ensures forall y :: Count(list, y) == Count(r, y) + One(y == Tail(list))
    ensures forall y :: y in r ==> y in list
  {
    assert list == list[..|list| - 1] + [Tail(list)];
    list[..|list| - 1]
  }

  /** LREM key 1 x: drops the first occurrence counted from the head, if any. */
  function LRem<T(==,!new)>(list: seq<T>, x: T): (r: seq<T>)
    ensures forall y :: Count(r, y) == Less(Count(list, y), One(y == x))
    ensures forall y :: y in r ==> y in list
    ensures x !in list ==> r == list
  {
    if list == [] then []
    else
      assert list == [list[0]] + list[1..];
      if list[0] == x then list[1..] else [list[0]] + LRem(list[1..], x)
  }

  lemma CountFrom<T>(list: seq<T>, i: nat, x: T)
    requires i < |list|
    ensures Count(list[i..], x) == One(x == list[i]) + Count(list[i + 1..], x)
  {
    assert list[i..] == [list[i]] + list[i + 1..];
  }

  lemma CountSplit<T>(list: seq<T>, i: nat, x: T)
    requires i <= |list|
    ensures Count(list, x) == Count(list[..i], x) + Count(list[i..], x)
  {
    assert list == list[..i] + list[i..];
  }
}
