/**
 * The in-memory lead store shared by the lead endpoint and the checkout
 * endpoint: leads keyed by session id in insertion order, a set of
 * processed idempotency keys, and the e-mail mask used in log lines.
 * Payloads are the parsed request bodies.
 */
module LeadStorage {
  import opened Wrappers
  import opened JsText
  import opened JsValue

  /** The position of key `k` among the entries, or -1. */
  function KeyIndex(entries: seq<(string, Json)>, k: string): (i: int)
    ensures -1 <= i < |entries|
    ensures i >= 0 ==> entries[i].0 == k
    ensures i < 0 ==> forall j :: 0 <= j < |entries| ==> entries[j].0 != k
  {
    if entries == [] then -1
    else if entries[|entries| - 1].0 == k then |entries| - 1
    else KeyIndex(entries[..|entries| - 1], k)
  }

  /** `map.get(k)`. */
  function Find(entries: seq<(string, Json)>, k: string): Option<Json> {
    var i := KeyIndex(entries, k);
    if i < 0 then None else Some(entries[i].1)
  }

  /** `map.set(k, v)`: an existing key keeps its place and takes the new value; a new key goes last. */
  function Put(entries: seq<(string, Json)>, k: string, v: Json): seq<(string, Json)> {
    var i := KeyIndex(entries, k);
    if i < 0 then entries + [(k, v)] else entries[i := (k, v)]
  }

  predicate DistinctKeys(entries: seq<(string, Json)>) {
    forall i, j :: 0 <= i < j < |entries| ==> entries[i].0 != entries[j].0
  }

  /**
   * A put is read back, leaves every other key's value alone, keeps keys
   * distinct, and keeps the order of the keys already there.
   */
  lemma PutFind(entries: seq<(string, Json)>, k: string, v: Json, other: string)
    requires DistinctKeys(entries)
    ensures Find(Put(entries, k, v), k) == Some(v)
    ensures other != k ==> Find(Put(entries, k, v), other) == Find(entries, other)
    ensures DistinctKeys(Put(entries, k, v))
    ensures forall j :: 0 <= j < |entries| ==> Put(entries, k, v)[j].0 == entries[j].0
  {
    var p := Put(entries, k, v);
    var i := KeyIndex(entries, k);
    if i < 0 {
      assert p[|p| - 1] == (k, v);
      KeyIndexLast(p, k);
      if other != k {
        KeyIndexAppend(entries, (k, v), other);
      }
    } else {
      KeyIndexUnique(p, i, k);
      if other != k {
        var o := KeyIndex(entries, other);
        if o >= 0 {
          KeyIndexUnique(p, o, other);
        } else {
          assert forall j :: 0 <= j < |p| ==> p[j].0 != other;
        }
      }
    }
  }

  lemma KeyIndexLast(entries: seq<(string, Json)>, k: string)
    requires entries != [] && entries[|entries| - 1].0 == k
    ensures KeyIndex(entries, k) == |entries| - 1
  {
  }

  lemma KeyIndexAppend(entries: seq<(string, Json)>, e: (string, Json), k: string)
    requires e.0 != k
    ensures KeyIndex(entries + [e], k) == KeyIndex(entries, k)
  {
    assert (entries + [e])[..|entries|] == entries;
  }

  /** With distinct keys, the index of a key is the one place it occurs. */
  lemma {:induction false} KeyIndexUnique(entries: seq<(string, Json)>, i: int, k: string)
    requires 0 <= i < |entries| && entries[i].0 == k
    requires forall j :: 0 <= j < |entries| && j != i ==> entries[j].0 != k
    ensures KeyIndex(entries, k) == i
  {
    if i < |entries| - 1 {
      var front := entries[..|entries| - 1];
      KeyIndexUnique(front, i, k);
    }
  }

  /** What `getLeadBySessionId` and `getLeadByEmail` hand back. */
  datatype StoredLead = StoredLead(
    sessionId: Json,
    nome: Json,
    email: Json,
    consent: Json,
    answers: Json,
    flags: Json,
    meta: Json,
    completedAt: Json,
    createdAt: int)

  /** The stored payload's fields, with the creation time taken from the clock at read time. */
  function ToStored(lead: Json, now: int): StoredLead
    requires lead.JObj?
  {
    StoredLead(Get(lead, "sessionId"), Get(lead, "nome"), Get(lead, "email"), Get(lead, "consent"),
               Get(lead, "answers"), Get(lead, "flags"), Get(lead, "meta"), Get(lead, "completedAt"), now)
  }

  /** The first lead, in insertion order, whose e-mail is exactly the given string. */
  function FirstByEmail(entries: seq<(string, Json)>, email: string): (i: int)
    requires forall j :: 0 <= j < |entries| ==> entries[j].1.JObj?
    ensures -1 <= i < |entries|
  {
    if entries == [] then -1
    else
      var i := FirstByEmail(entries[..|entries| - 1], email);
      if i >= 0 then i
      else if Get(entries[|entries| - 1].1, "email") == JStr(email) then |entries| - 1
      else -1
  }

  /** The index found is the earliest lead with that e-mail; -1 means no lead has it. */
  lemma {:induction false} FirstByEmailIsEarliest(entries: seq<(string, Json)>, email: string)
    requires forall j :: 0 <= j < |entries| ==> entries[j].1.JObj?
    ensures var i := FirstByEmail(entries, email);
      (i >= 0 ==> Get(entries[i].1, "email") == JStr(email)) &&
      forall j :: 0 <= j < |entries| && (i < 0 || j < i) ==> Get(entries[j].1, "email") != JStr(email)
  {
    if entries != [] {
      var front := entries[..|entries| - 1];
      FirstByEmailIsEarliest(front, email);
      assert forall j :: 0 <= j < |front| ==> front[j] == entries[j];
    }
  }

  /** `'*'.repeat(n)`. */
  function Stars(n: nat): (r: string)
    ensures |r| == n && forall i :: 0 <= i < n ==> r[i] == '*'
  {
    if n == 0 then [] else Stars(n - 1) + ['*']
  }

  function Min(a: int, b: int): int {
    if a < b then a else b
  }

  /**
   * `maskEmail`: the text before the first `@` keeps its first character and
   * shows up to three stars for the rest; a one-character local part leaves
   * the address as it is. The domain is the text between the first and the
   * second `@`, or the text "undefined" when there is no `@`.
   */
  function MaskEmail(email: string): string {
    var pieces := Split(email, '@');
    var user := pieces[0];
    var domain := if |pieces| > 1 then pieces[1] else "undefined";
    if JsLength(user) <= 1 then email
    else [user[0]] + Stars(Min(JsLength(user) - 1, 3)) + "@" + domain
  }

  /**
   * For an address with exactly one `@` and a longer local part, the mask
   * keeps the first character and the domain, hides the rest behind one to
   * three stars, and splits on `@` into the masked part and the same domain.
   */
  lemma {:induction false} MaskEmailKeepsDomain(user: string, domain: string)
    requires |user| >= 2
    requires forall i :: 0 <= i < |user| ==> user[i] != '@'
    requires forall i :: 0 <= i < |domain| ==> domain[i] != '@'
    ensures var m := MaskEmail(user + "@" + domain);
      var stars := Min(JsLength(user) - 1, 3);
      1 <= stars <= 3 &&
      m == [user[0]] + Stars(stars) + "@" + domain &&
      Split(m, '@') == [[user[0]] + Stars(stars), domain]
  {
    SplitJoin([user, domain], '@');
    assert Join([user, domain], "@") == user + "@" + domain;
    JsLengthAppend(user[..1], user[1..]);
    assert user[..1] + user[1..] == user;
    assert JsLength(user) >= 2 by {
      assert |CodeUnits(user[1..])| >= 1;
      assert |CodeUnits(user[..1])| >= 1;
    }
    var masked := [user[0]] + Stars(Min(JsLength(user) - 1, 3));
    SplitJoin([masked, domain], '@');
    assert Join([masked, domain], "@") == masked + "@" + domain;
  }

  /** A local part of at most one code unit leaves the address as it is. */
  lemma MaskEmailShortLocal(user: string, domain: string)
    requires JsLength(user) <= 1
    requires forall i :: 0 <= i < |user| ==> user[i] != '@'
    requires forall i :: 0 <= i < |domain| ==> domain[i] != '@'
    ensures MaskEmail(user + "@" + domain) == user + "@" + domain
  {
    SplitJoin([user, domain], '@');
    assert Join([user, domain], "@") == user + "@" + domain;
  }

  /** An address without `@` and with a longer local part gets the text "undefined" as its domain. */
  lemma MaskEmailWithoutAt()
    ensures MaskEmail("ab") == "a*@undefined"
  {
    SplitWord("ab", [], '@');
    assert "ab" + [] == "ab";
    assert Split([], '@') == [[]];
    assert Split("ab", '@') == ["ab"];
    CodeUnitsBmp("ab");
  }

  /** The lead map and the processed idempotency keys. */
  class Store {
    /** `leadStore`, in insertion order. */
    var leads: seq<(string, Json)>
    /** The keys of `idempotencyStore`. */
    var processed: set<string>

    /** Keys are distinct, and each lead is an object whose session id is its key. */
    ghost predicate Valid()
      reads this
    {
      DistinctKeys(leads) &&
      forall i :: 0 <= i < |leads| ==> leads[i].1.JObj? && Get(leads[i].1, "sessionId") == JStr(leads[i].0)
    }

    constructor ()
      ensures Valid() && leads == [] && processed == {}
    {
      leads := [];
      processed := {};
    }

    /**
     * `storeLead`: the lead is written under its session id first; reading
     * `meta` afterwards throws when it is missing, which makes the call report
     * failure although the lead is stored.
     */
    method StoreLead(payload: Json) returns (ok: bool)
      requires Valid() && payload.JObj? && Get(payload, "sessionId").JStr?
      modifies this
      ensures Valid()
      ensures leads == Put(old(leads), Get(payload, "sessionId").s, payload)
      ensures processed == old(processed)
      ensures ok <==> !Nullish(Get(payload, "meta"))
    {
      var key := Get(payload, "sessionId").s;
      PutFind(leads, key, payload, key);
      PutKeepsLeads(leads, key, payload);
      leads := Put(leads, key, payload);
      var meta := Get(payload, "meta");
      if Nullish(meta) {
        return false;
      }
      return true;
    }

    /** `getLeadBySessionId`: nothing for an unknown id, otherwise the stored fields. */
    method GetLeadBySessionId(sessionId: string, now: int) returns (lead: Option<StoredLead>)
      requires Valid()
      ensures lead == if Find(leads, sessionId).None? then None else Some(ToStored(Find(leads, sessionId).value, now))
    {
      var i := KeyIndex(leads, sessionId);
      if i < 0 {
        return None;
      }
      return Some(ToStored(leads[i].1, now));
    }

    /** `getLeadByEmail`: the first lead in insertion order whose e-mail is exactly `email`. */
    method GetLeadByEmail(email: string, now: int) returns (lead: Option<StoredLead>)
      requires Valid()
      ensures var i := FirstByEmail(leads, email);
        lead == if i < 0 then None else Some(ToStored(leads[i].1, now))
    {
      var i := 0;
      while i < |leads|
        invariant 0 <= i <= |leads|
        invariant FirstByEmail(leads[..i], email) == -1
      {
        assert leads[..i + 1][..i] == leads[..i];
        if Get(leads[i].1, "email") == JStr(email) {
          FirstByEmailPrefix(leads, i + 1, email);
          return Some(ToStored(leads[i].1, now));
        }
        i := i + 1;
      }
      assert leads[..i] == leads;
      return None;
    }

    /** `checkIdempotency`: true while the key has not been marked. */
    method CheckIdempotency(key: string) returns (unseen: bool)
      ensures unseen <==> key !in processed
    {
      return key !in processed;
    }

    /** `markProcessed`. */
    method MarkProcessed(key: string)
      modifies this
      ensures processed == old(processed) + {key} && leads == old(leads)
    {
      processed := processed + {key};
    }
  }

  /** A found index in a prefix stays the answer for the whole list. */
  lemma {:induction false} FirstByEmailPrefix(entries: seq<(string, Json)>, n: nat, email: string)
    requires n <= |entries|
    requires forall j :: 0 <= j < |entries| ==> entries[j].1.JObj?
    requires FirstByEmail(entries[..n], email) >= 0
    ensures FirstByEmail(entries, email) == FirstByEmail(entries[..n], email)
    decreases |entries| - n
  {
    if n < |entries| {
      assert entries[..n + 1][..n] == entries[..n];
      FirstByEmailPrefix(entries, n + 1, email);
    } else {
      assert entries[..n] == entries;
    }
  }

  /** A put of an object under its own session id keeps every lead an object filed under its session id. */
  lemma PutKeepsLeads(entries: seq<(string, Json)>, k: string, v: Json)
    requires forall i :: 0 <= i < |entries| ==> entries[i].1.JObj? && Get(entries[i].1, "sessionId") == JStr(entries[i].0)
    requires v.JObj? && Get(v, "sessionId") == JStr(k)
    ensures var p := Put(entries, k, v);
      forall i :: 0 <= i < |p| ==> p[i].1.JObj? && Get(p[i].1, "sessionId") == JStr(p[i].0)
  {
  }

  /** Storing a lead and reading it back by its session id gives the stored fields, whatever else is stored. */
  lemma StoreThenGet(entries: seq<(string, Json)>, payload: Json, now: int)
    requires DistinctKeys(entries) && payload.JObj? && Get(payload, "sessionId").JStr?
    ensures var p := Put(entries, Get(payload, "sessionId").s, payload);
      Find(p, Get(payload, "sessionId").s) == Some(payload) &&
      ToStored(payload, now).sessionId == Get(payload, "sessionId") &&
      ToStored(payload, now).email == Get(payload, "email")
  {
    var k := Get(payload, "sessionId").s;
    PutFind(entries, k, payload, k);
  }
}
