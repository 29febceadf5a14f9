/** The parts of a MongoDB cursor the routes and resolvers use:
    `sort({ createdAt: -1 })`, `skip` and `limit`.  Documents are never
    re-dated, so newest first is reverse insertion order. */
module Cursor {

  function Abs(x: int): nat {
    if x < 0 then -x else x
  }

  /** `sort({ createdAt: -1 })` over documents kept in insertion order. */
  function NewestFirst<T>(s: seq<T>): (r: seq<T>)
    ensures |r| == |s|
    ensures forall i :: 0 <= i < |s| ==> r[i] == s[|s| - 1 - i]
  {
    if |s| == 0 then [] else [s[|s| - 1]] + NewestFirst(s[..|s| - 1])
  }

  /** `.skip(skip).limit(n)` on a non-negative skip and a positive limit. */
  function Window<T>(s: seq<T>, skip: nat, n: nat): (r: seq<T>)
    ensures |r| <= n
    ensures skip <= |s| ==> r == s[skip..if skip + n <= |s| then skip + n else |s|]
    ensures skip >= |s| ==> r == []
  {
    var lo := if skip <= |s| then skip else |s|;
    var hi := if skip + n <= |s| then skip + n else |s|;
    s[lo..hi]
  }

  /** `.limit(n)` alone: MongoDB reads 0 as "no limit" and a negative
      limit as its absolute value. */
  function Limit<T>(s: seq<T>, n: int): (r: seq<T>)
    ensures n == 0 ==> r == s
    ensures n != 0 ==> r == Window(s, 0, Abs(n))
    ensures r == s[..|r|]
  {
    if n == 0 then s else Window(s, 0, Abs(n))
  }

  /** How many documents a window holds. */
  lemma WindowLength<T>(s: seq<T>, skip: nat, n: nat)
    ensures |Window(s, skip, n)| == if skip >= |s| then 0 else if skip + n <= |s| then n else |s| - skip
  {
  }

  /** Two consecutive pages of one size are the page of twice the size. */
  lemma PagesAreAdjacent<T>(s: seq<T>, skip: nat, n: nat)
    ensures Window(s, skip, n) + Window(s, skip + n, n) == Window(s, skip, 2 * n)
  {
  }

  lemma WindowMembers<T>(s: seq<T>, skip: nat, n: nat)
    ensures forall x :: x in Window(s, skip, n) ==> x in s
  {
    forall x | x in Window(s, skip, n)
      ensures x in s
    {
      var w := Window(s, skip, n);
      var k :| 0 <= k < |w| && w[k] == x;
      assert s[skip + k] == x;
    }
  }

  lemma NewestFirstMembers<T>(s: seq<T>)
    ensures forall x :: x in NewestFirst(s) <==> x in s
  {
    var r := NewestFirst(s);
    forall x | x in r
      ensures x in s
    {
      var k :| 0 <= k < |r| && r[k] == x;
      assert s[|s| - 1 - k] == x;
    }
    forall x | x in s
      ensures x in r
    {
      var k :| 0 <= k < |s| && s[k] == x;
      assert r[|s| - 1 - k] == x;
    }
  }
}
