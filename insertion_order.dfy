/**
 * The key order of a JavaScript object used as a dictionary.  Keys that are
 * not array indices enumerate in the order in which they were first
 * assigned; assigning to a key that is already present keeps its place.
 */
module InsertionOrder {

  /** The key order after an assignment to key `k`. */
  function AddKey(keys: seq<string>, k: string): seq<string> {
    if k in keys then keys else keys + [k]
  }

  ghost predicate Distinct(keys: seq<string>) {
    forall i, j :: 0 <= i < j < |keys| ==> keys[i] != keys[j]
  }

  /** The key order of an empty object after assigning to `ks[0]`, `ks[1]`, …
      in turn: the distinct elements of `ks` in order of first appearance. */
  function FirstAppearances(ks: seq<string>): (r: seq<string>)
    ensures Distinct(r)
    ensures forall k :: k in r <==> k in ks
    ensures |r| <= |ks|
  {
    if ks == [] then []
    else
      var init, last := ks[..|ks| - 1], ks[|ks| - 1];
      assert ks == init + [last];
      AddKey(FirstAppearances(init), last)
  }

  /** Assigning once more to `ks` followed by `k`. */
  lemma FirstAppearancesSnoc(ks: seq<string>, k: string)
    ensures FirstAppearances(ks + [k]) == AddKey(FirstAppearances(ks), k)
  {
    assert (ks + [k])[..|ks|] == ks;
  }

  /** A key assigned twice is listed once. */
  lemma RepeatedKey(k: string)
    ensures FirstAppearances([k, k]) == [k]
  {
    FirstAppearancesSnoc([], k);
    FirstAppearancesSnoc([k], k);
    assert [] + [k] == [k] && [k] + [k] == [k, k];
  }

  /** Position of the first occurrence of `k` in `ks`. */
  function FirstIndex(ks: seq<string>, k: string): (i: nat)
    requires k in ks
    ensures i < |ks| && ks[i] == k
    ensures forall j :: 0 <= j < i ==> ks[j] != k
  {
    if ks[0] == k then 0 else 1 + FirstIndex(ks[1..], k)
  }

  lemma {:induction false} FirstIndexOfPrefix(ks: seq<string>, x: string, k: string)
    requires k in ks
    ensures FirstIndex(ks + [x], k) == FirstIndex(ks, k)
  {
    if ks[0] != k {
      assert (ks + [x])[1..] == ks[1..] + [x];
      FirstIndexOfPrefix(ks[1..], x, k);
    }
  }

  /** The keys are listed in the order of their first occurrences in `ks`:
      together with the contract of FirstAppearances this determines the
      key order completely. */
  lemma {:induction false} FirstAppearancesOrdered(ks: seq<string>)
    ensures forall i, j :: 0 <= i < j < |FirstAppearances(ks)| ==>
      FirstIndex(ks, FirstAppearances(ks)[i]) < FirstIndex(ks, FirstAppearances(ks)[j])
  {
    if ks != [] {
      var init, last := ks[..|ks| - 1], ks[|ks| - 1];
      assert ks == init + [last];
      FirstAppearancesOrdered(init);
      var before, r := FirstAppearances(init), FirstAppearances(ks);
      assert r == AddKey(before, last);
      forall i, j | 0 <= i < j < |r| ensures FirstIndex(ks, r[i]) < FirstIndex(ks, r[j]) {
        FirstIndexOfPrefix(init, last, r[i]);
        if j < |before| {
          FirstIndexOfPrefix(init, last, r[j]);
        } else {
          assert r[j] == last && last !in init;
        }
      }
    }
  }
}
