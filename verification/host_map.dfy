/**
 * What the store relies on from the host's unordered map: its `entries()`
 * yield every key/value pair exactly once, in an order the host chooses.
 */
module HostMap {

  /** `pairs` lists the entries of `m`, each key exactly once, in some order. */
  predicate Enumerates(pairs: seq<(string, string)>, m: map<string, string>) {
    && (forall i :: 0 <= i < |pairs| ==> pairs[i].0 in m && m[pairs[i].0] == pairs[i].1)
    && (forall k :: k in m ==> exists i :: 0 <= i < |pairs| && pairs[i].0 == k)
    && (forall i, j :: 0 <= i < j < |pairs| ==> pairs[i].0 != pairs[j].0)
  }

  /** Every map has an enumeration, so the views that iterate can always run. */
  ghost function SomeEnumeration(m: map<string, string>): (pairs: seq<(string, string)>)
    ensures Enumerates(pairs, m)
    decreases |m|
  {
    if |m| == 0 then []
    else
      var k :| k in m;
      var rest := SomeEnumeration(m - {k});
      EnumerationSnoc(rest, m, k);
      rest + [(k, m[k])]
  }

  /** Appending a key's pair to an enumeration of the rest of the map enumerates the map. */
  lemma EnumerationSnoc(rest: seq<(string, string)>, m: map<string, string>, k: string)
    requires k in m
    requires Enumerates(rest, m - {k})
    ensures Enumerates(rest + [(k, m[k])], m)
  {
    var pairs := rest + [(k, m[k])];
    forall k' | k' in m
      ensures exists i :: 0 <= i < |pairs| && pairs[i].0 == k'
    {
      if k' == k {
        assert pairs[|rest|].0 == k';
      } else {
        assert k' in m - {k};
        var i :| 0 <= i < |rest| && rest[i].0 == k';
        assert pairs[i].0 == k';
      }
    }
  }

  /** Dropping the last pair of an enumeration enumerates the map without its key. */
  lemma EnumerationDropLast(pairs: seq<(string, string)>, m: map<string, string>)
    requires Enumerates(pairs, m)
    requires |pairs| > 0
    ensures Enumerates(pairs[..|pairs| - 1], m - {pairs[|pairs| - 1].0})
  {
  }

  /** The number of enumerated entries is the number of keys. */
  lemma {:induction false} EnumerationLength(pairs: seq<(string, string)>, m: map<string, string>)
    requires Enumerates(pairs, m)
    ensures |pairs| == |m|
    decreases |pairs|
  {
    if |pairs| > 0 {
      var k := pairs[|pairs| - 1].0;
      EnumerationDropLast(pairs, m);
      EnumerationLength(pairs[..|pairs| - 1], m - {k});
    }
  }
}
