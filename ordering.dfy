/** Ordering record ids by a key, largest first, as Django's `order_by('-field')` does. */
module Ordering {

  predicate SortedDesc(s: seq<nat>, key: nat -> int)
  {
    forall i, j :: 0 <= i < j < |s| ==> key(s[i]) >= key(s[j])
  }

  /** Insert `x` into a list sorted by descending key, after every element with a key at least as large. */
  function InsertDesc(x: nat, s: seq<nat>, key: nat -> int): (r: seq<nat>)
    requires SortedDesc(s, key)
    ensures SortedDesc(r, key)
    ensures multiset(r) == multiset(s) + multiset{x}
    ensures |r| == |s| + 1 && (r[0] == x || (s != [] && r[0] == s[0]))
    decreases |s|
  {
    if s == [] then [x]
    else if key(s[0]) >= key(x) then
      var rest := InsertDesc(x, s[1..], key);
      InsertBehindHead(x, s, rest, key);
      [s[0]] + rest
    else
      ConsSorted(x, s, key);
      [x] + s
  }

  /** Inserting behind the head keeps the order and adds `x` to the elements. */
  lemma InsertBehindHead(x: nat, s: seq<nat>, rest: seq<nat>, key: nat -> int)
    requires SortedDesc(s, key) && s != [] && key(s[0]) >= key(x)
    requires SortedDesc(rest, key) && multiset(rest) == multiset(s[1..]) + multiset{x}
    requires |rest| == |s| && (rest[0] == x || (s[1..] != [] && rest[0] == s[1..][0]))
    ensures SortedDesc([s[0]] + rest, key)
    ensures multiset([s[0]] + rest) == multiset(s) + multiset{x}
  {
    assert s == [s[0]] + s[1..];
    ConsSorted(s[0], rest, key);
  }

  /** An element with a key at least the head's extends a sorted list at the front. */
  lemma ConsSorted(h: nat, t: seq<nat>, key: nat -> int)
    requires SortedDesc(t, key) && (t == [] || key(h) >= key(t[0]))
    ensures SortedDesc([h] + t, key)
  {
    var r := [h] + t;
    forall i, j | 0 <= i < j < |r| ensures key(r[i]) >= key(r[j]) {
      if i == 0 && j > 1 {
        assert key(t[0]) >= key(t[j - 1]);
      }
    }
  }

  /** The ids ordered by descending key: sorted, and a permutation of the input. */
  function SortDesc(s: seq<nat>, key: nat -> int): (r: seq<nat>)
    ensures SortedDesc(r, key)
    ensures multiset(r) == multiset(s)
    decreases |s|
  {
    if s == [] then []
    else
      assert s == s[..|s| - 1] + [s[|s| - 1]];
      InsertDesc(s[|s| - 1], SortDesc(s[..|s| - 1], key), key)
  }
}
