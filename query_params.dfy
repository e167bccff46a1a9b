/**
 * The query-string filters of the quiz page and of the analytics tracker.
 * Both walk `URLSearchParams.entries()` in order and copy the kept keys
 * into a record, so a repeated key keeps its last value. The page keeps
 * the `utm_` keys; the tracker also keeps `variant`.
 */
module QueryParams {
  import opened JsText

  /** Whether a key is copied: it starts with "utm_", or, for the tracker, it is "variant". */
  predicate Kept(key: string, withVariant: bool) {
    StartsWith(key, "utm_") || (withVariant && key == "variant")
  }

  /** The record built from the entries, as a function of the entries. */
  function KeptParams(query: seq<(string, string)>, withVariant: bool): map<string, string>
    decreases |query|
  {
    if query == [] then map[]
    else
      var m := KeptParams(query[..|query| - 1], withVariant);
      var last := query[|query| - 1];
      if Kept(last.0, withVariant) then m[last.0 := last.1] else m
  }

  /** The record's keys are exactly the kept keys that occur in the query. */
  lemma {:induction false} KeptParamsKeys(query: seq<(string, string)>, withVariant: bool, k: string)
    ensures k in KeptParams(query, withVariant) <==> Kept(k, withVariant) && exists i :: 0 <= i < |query| && query[i].0 == k
    decreases |query|
  {
    if query != [] {
      var front := query[..|query| - 1];
      KeptParamsKeys(front, withVariant, k);
      if Kept(k, withVariant) && (exists i :: 0 <= i < |query| && query[i].0 == k) && query[|query| - 1].0 != k {
        var i :| 0 <= i < |query| && query[i].0 == k;
        assert front[i].0 == k;
      }
    }
  }

  /** Each kept key carries the value of its last occurrence. */
  lemma {:induction false} KeptParamsLastWins(query: seq<(string, string)>, withVariant: bool, i: int)
    requires 0 <= i < |query| && Kept(query[i].0, withVariant)
    requires forall j :: i < j < |query| ==> query[j].0 != query[i].0
    ensures query[i].0 in KeptParams(query, withVariant) && KeptParams(query, withVariant)[query[i].0] == query[i].1
    decreases |query|
  {
    if i < |query| - 1 {
      KeptParamsLastWins(query[..|query| - 1], withVariant, i);
    }
  }

  /** The page's filter keeps a subset of what the tracker's keeps, with the same values. */
  lemma {:induction false} PageKeepsLess(query: seq<(string, string)>)
    ensures forall k :: k in KeptParams(query, false) ==>
      k in KeptParams(query, true) && KeptParams(query, true)[k] == KeptParams(query, false)[k]
    decreases |query|
  {
    if query != [] {
      var front := query[..|query| - 1];
      PageKeepsLess(front);
      var last := query[|query| - 1];
      var page, tracker := KeptParams(front, false), KeptParams(front, true);
      assert KeptParams(query, false) == if Kept(last.0, false) then page[last.0 := last.1] else page;
      assert KeptParams(query, true) == if Kept(last.0, true) then tracker[last.0 := last.1] else tracker;
      forall k | k in KeptParams(query, false)
        ensures k in KeptParams(query, true) && KeptParams(query, true)[k] == KeptParams(query, false)[k]
      {
        if k != last.0 || !Kept(last.0, false) {
          assert k in page;
          KeptParamsKeys(front, false, k);
        }
      }
    }
  }

  /** The `for (const [key, value] of params.entries())` loop. */
  method FilterQuery(entries: seq<(string, string)>, withVariant: bool) returns (kept: map<string, string>)
    ensures kept == KeptParams(entries, withVariant)
  {
    kept := map[];
    var i := 0;
    while i < |entries|
      invariant 0 <= i <= |entries|
      invariant kept == KeptParams(entries[..i], withVariant)
    {
      assert entries[..i + 1][..i] == entries[..i];
      var (key, value) := entries[i];
      if StartsWith(key, "utm_") || (withVariant && key == "variant") {
        kept := kept[key := value];
      }
      i := i + 1;
    }
    assert entries[..i] == entries;
  }
}
