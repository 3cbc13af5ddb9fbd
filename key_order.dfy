/**
 * Hour keys ("YYYY-MM-DDTHH:00") and day keys ("YYYY-MM-DD") are ordered as
 * JavaScript compares strings. Every stage that collects records in a `Map`
 * and then sorts the values by key ends with the keys in strictly increasing
 * order; `SortKeys` is that sort.
 */
module KeyOrder {
  import opened Text

  /** Strictly increasing keys: sorted, with no key twice. */
  predicate StrictlySorted(s: seq<string>) {
    forall i, j :: 0 <= i < j < |s| ==> StrLess(s[i], s[j])
  }

  /** Inserts a new key into a strictly sorted sequence at its place. */
  function Insert(s: seq<string>, k: string): (r: seq<string>)
    requires StrictlySorted(s) && k !in s
    ensures StrictlySorted(r)
    ensures |r| == |s| + 1
    ensures forall x :: x in r <==> x in s || x == k
  {
    if s == [] then [k]
    else if StrLess(k, s[0]) then
      assert forall j :: 0 < j < |s| ==> StrLess(k, s[j]) by {
        forall j | 0 < j < |s| ensures StrLess(k, s[j]) {
          StrLessTransitive(k, s[0], s[j]);
        }
      }
      [k] + s
    else
      var rest := Insert(s[1..], k);
      assert StrLess(s[0], k) by {
        StrLessTotal(k, s[0]);
      }
      assert forall x :: x in rest ==> StrLess(s[0], x);
      [s[0]] + rest
  }

  /** Orders a finite set of keys: the `.sort((a, b) => a.key.localeCompare(b.key))` of the source. */
  method SortKeys(keys: set<string>) returns (s: seq<string>)
    ensures StrictlySorted(s)
    ensures |s| == |keys|
    ensures forall x :: x in s <==> x in keys
  {
    s := [];
    var rest := keys;
    while rest != {}
      invariant StrictlySorted(s)
      invariant rest <= keys
      invariant forall x :: x in s <==> x in keys && x !in rest
      invariant |s| + |rest| == |keys|
      decreases |rest|
    {
      var k :| k in rest;
      s := Insert(s, k);
      rest := rest - {k};
    }
  }

  /** Strictly sorted keys are pairwise distinct. */
  lemma SortedDistinct(s: seq<string>, i: int, j: int)
    requires StrictlySorted(s) && 0 <= i < |s| && 0 <= j < |s| && i != j
    ensures s[i] != s[j]
  {
    if i < j {
      StrLessIrreflexive(s[i]);
    } else {
      StrLessIrreflexive(s[j]);
    }
  }
}
