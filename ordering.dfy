/** `ORDER BY created_at DESC`, used by the item and bill listings. */
module Ordering {

  /** Newest first: creation times never increase along the sequence. */
  ghost predicate NewestFirstOrder<K>(s: seq<K>, created: map<K, int>) {
    forall i, j :: 0 <= i < j < |s| ==> s[i] in created && s[j] in created && created[s[i]] >= created[s[j]]
  }

  /** No key occurs twice. */
  ghost predicate Distinct<K>(s: seq<K>) {
    forall i, j :: 0 <= i < j < |s| ==> s[i] != s[j]
  }

  /** Puts `k` in front of the first key that is not newer than it. */
  function InsertNewestFirst<K(!new)>(s: seq<K>, k: K, created: map<K, int>): (r: seq<K>)
    requires k in created && forall i :: 0 <= i < |s| ==> s[i] in created
    ensures |r| == |s| + 1
    ensures forall x :: x in r <==> x in s || x == k
    ensures r[0] == k || (s != [] && r[0] == s[0])
    ensures NewestFirstOrder(s, created) ==> NewestFirstOrder(r, created)
    ensures Distinct(s) && k !in s ==> Distinct(r)
    decreases |s|
  {
    if s == [] || created[k] >= created[s[0]] then [k] + s
    else
      var rest := InsertNewestFirst(s[1..], k, created);
      assert forall x :: x in s[1..] ==> x in s;
      assert Distinct(s) ==> s[0] !in s[1..];
      [s[0]] + rest
  }

  /** The given keys in newest-first order, each exactly once. */
  method NewestFirst<K(!new)>(keys: set<K>, created: map<K, int>) returns (r: seq<K>)
    requires keys <= created.Keys
    ensures forall x :: x in r <==> x in keys
    ensures Distinct(r)
    ensures NewestFirstOrder(r, created)
  {
    r := [];
    var rest := keys;
    while rest != {}
      invariant rest <= keys
      invariant forall x :: x in r <==> x in keys && x !in rest
      invariant Distinct(r)
      invariant NewestFirstOrder(r, created)
      decreases |rest|
    {
      var k :| k in rest;
      r := InsertNewestFirst(r, k, created);
      rest := rest - {k};
    }
  }
}
