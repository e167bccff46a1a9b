/**
 * Client telemetry: the recursive stripper that removes personal data from
 * an event's detail object, the guard that drops events without a session,
 * and the module-level session id that gates the page-view helpers. The
 * database insert is the row the client hands over; its outcome is not
 * modelled.
 */
module Telemetry {
  import opened Wrappers
  import opened JsText
  import opened JsValue

  /** The keys removed at every level of a detail object. */
  const PiiFields: seq<string> :=
    ["email", "nome", "name", "firstName", "lastName", "phone", "address", "ip", "userAgent",
     "password", "token", "key", "secret"]

  /** `typeof v === 'object' && v !== null`. */
  predicate IsObject(v: Json) {
    v.JObj? || v.JArr?
  }

  /** The own properties of `{...v}`: an object's properties, or an array's elements under their indices. */
  function Entries(v: Json): seq<(string, Json)>
    requires IsObject(v)
  {
    if v.JObj? then v.props
    else seq(|v.items|, i requires 0 <= i < |v.items| => (NatToString(i), v.items[i]))
  }

  /** The entries whose key is not among `fs`, in order. */
  function KeepOut(es: seq<(string, Json)>, fs: seq<string>): (r: seq<(string, Json)>)
    ensures |r| <= |es|
    ensures forall i :: 0 <= i < |r| ==> r[i].0 !in fs
  {
    if es == [] then []
    else
      var last := es[|es| - 1];
      KeepOut(es[..|es| - 1], fs) + (if last.0 in fs then [] else [last])
  }

  /** `sanitizeDetail`: a falsy detail becomes `{}`, any other non-object is kept, and an object loses its personal keys level by level. */
  function Sanitized(v: Json): Json
    decreases v, 1
  {
    if !Truthy(v) then JObj([])
    else if !IsObject(v) then v
    else JObj(SanitizedUpTo(v, |Entries(v)|))
  }

  /** The value a kept key ends up with: an object is sanitised in turn, anything else is left alone. */
  function SanitizedValue(x: Json): Json
    decreases x, 2
  {
    if IsObject(x) then Sanitized(x) else x
  }

  /** The sanitised entries among the first `n` entries of `v`. */
  function SanitizedUpTo(v: Json, n: nat): seq<(string, Json)>
    requires IsObject(v) && n <= |Entries(v)|
    decreases v, 0, n
  {
    if n == 0 then []
    else
      var e := Entries(v)[n - 1];
      assert v.JArr? ==> e.1 == v.items[n - 1];
      assert v.JObj? ==> e == v.props[n - 1];
      SanitizedUpTo(v, n - 1) + KeptEntry(e)
  }

  /** What one entry contributes: nothing for a personal key, else the key with its value sanitised. */
  function KeptEntry(e: (string, Json)): seq<(string, Json)>
    decreases e.1, 3
  {
    if e.0 in PiiFields then [] else [(e.0, SanitizedValue(e.1))]
  }

  /** A value with no personal key at any depth. */
  predicate PiiFree(v: Json) {
    match v
    case JObj(props) => forall i :: 0 <= i < |props| ==> props[i].0 !in PiiFields && PiiFree(props[i].1)
    case JArr(items) => forall i :: 0 <= i < |items| ==> PiiFree(items[i])
    case _ => true
  }

  /** The sanitised detail holds none of the personal keys, at any nesting depth. */
  lemma {:induction false} SanitizedIsPiiFree(v: Json)
    ensures PiiFree(Sanitized(v))
    decreases v, 1
  {
    if Truthy(v) && IsObject(v) {
      UpToIsPiiFree(v, |Entries(v)|);
      assert Sanitized(v) == JObj(SanitizedUpTo(v, |Entries(v)|));
    } else if Truthy(v) {
      assert Sanitized(v) == v;
      assert !v.JObj? && !v.JArr?;
    }
  }

  /** Entries none of whose keys is personal and none of whose values holds a personal key. */
  predicate EntriesPiiFree(es: seq<(string, Json)>) {
    forall i :: 0 <= i < |es| ==> es[i].0 !in PiiFields && PiiFree(es[i].1)
  }

  lemma EntriesPiiFreeAppend(front: seq<(string, Json)>, tail: seq<(string, Json)>)
    requires EntriesPiiFree(front) && EntriesPiiFree(tail)
    ensures EntriesPiiFree(front + tail)
  {
    forall i | 0 <= i < |front + tail|
      ensures (front + tail)[i].0 !in PiiFields && PiiFree((front + tail)[i].1)
    {
      if i >= |front| {
        assert (front + tail)[i] == tail[i - |front|];
      }
    }
  }

  lemma KeptEntryPiiFree(e: (string, Json))
    requires PiiFree(SanitizedValue(e.1))
    ensures EntriesPiiFree(KeptEntry(e))
  {
  }

  lemma {:induction false} UpToIsPiiFree(v: Json, n: nat)
    requires IsObject(v) && n <= |Entries(v)|
    ensures EntriesPiiFree(SanitizedUpTo(v, n))
    decreases v, 0, n
  {
    if n > 0 {
      UpToIsPiiFree(v, n - 1);
      var e := Entries(v)[n - 1];
      assert v.JArr? ==> e.1 == v.items[n - 1];
      assert v.JObj? ==> e == v.props[n - 1];
      if IsObject(e.1) {
        SanitizedIsPiiFree(e.1);
      }
      KeptEntryPiiFree(e);
      EntriesPiiFreeAppend(SanitizedUpTo(v, n - 1), KeptEntry(e));
    }
  }

  /** Entry by entry, the sanitised prefix is the kept prefix with each value sanitised. */
  lemma {:induction false} UpToIsKeptEntries(v: Json, n: nat)
    requires IsObject(v) && n <= |Entries(v)|
    ensures var k := KeepOut(Entries(v)[..n], PiiFields);
      var r := SanitizedUpTo(v, n);
      |r| == |k| && forall i :: 0 <= i < |k| ==> r[i] == (k[i].0, SanitizedValue(k[i].1))
  {
    if n > 0 {
      UpToIsKeptEntries(v, n - 1);
      assert Entries(v)[..n][..n - 1] == Entries(v)[..n - 1];
    }
  }

  /** Deleting one more key from the kept entries is keeping out one more key. */
  lemma {:induction false} KeepOutMore(es: seq<(string, Json)>, fs: seq<string>, f: string)
    ensures KeepOut(KeepOut(es, fs), [f]) == KeepOut(es, fs + [f])
  {
    if es != [] {
      var front := es[..|es| - 1];
      var last := es[|es| - 1];
      KeepOutMore(front, fs, f);
      var kept := KeepOut(front, fs) + (if last.0 in fs then [] else [last]);
      KeepOutAppend(KeepOut(front, fs), if last.0 in fs then [] else [last], [f]);
    }
  }

  lemma {:induction false} KeepOutAppend(xs: seq<(string, Json)>, ys: seq<(string, Json)>, fs: seq<string>)
    requires |ys| <= 1
    ensures KeepOut(xs + ys, fs) == KeepOut(xs, fs) + KeepOut(ys, fs)
  {
    if ys == [] {
      assert xs + ys == xs;
    } else {
      assert (xs + ys)[..|xs + ys| - 1] == xs;
      assert ys[..0] == [];
    }
  }

  /** Keeping out a key that is not asked for leaves its value, as read back, unchanged. */
  lemma {:induction false} LookupKeepOut(es: seq<(string, Json)>, fs: seq<string>, k: string)
    requires k !in fs
    ensures Lookup(KeepOut(es, fs), k) == Lookup(es, k)
  {
    if es != [] {
      var front := es[..|es| - 1];
      var last := es[|es| - 1];
      LookupKeepOut(front, fs, k);
      var kept := KeepOut(front, fs) + (if last.0 in fs then [] else [last]);
      if last.0 !in fs {
        assert kept[..|kept| - 1] == KeepOut(front, fs);
      } else {
        assert kept == KeepOut(front, fs);
      }
    }
  }

  /** Reading a key from entries whose values were each sanitised gives the sanitised value read from the originals. */
  lemma {:induction false} LookupMapped(r: seq<(string, Json)>, k: seq<(string, Json)>, key: string)
    requires |r| == |k| && forall i :: 0 <= i < |k| ==> r[i] == (k[i].0, SanitizedValue(k[i].1))
    ensures Lookup(r, key) == SanitizedValue(Lookup(k, key))
  {
    if r != [] {
      LookupMapped(r[..|r| - 1], k[..|k| - 1], key);
    }
  }

  /**
   * Every key of an object that is not a personal key survives sanitising,
   * with its value sanitised in turn; the personal keys read as `undefined`.
   */
  lemma NonPiiKeysSurvive(props: seq<(string, Json)>, key: string)
    ensures key !in PiiFields ==>
      Lookup(Sanitized(JObj(props)).props, key) == SanitizedValue(Lookup(props, key))
    ensures key in PiiFields ==> Lookup(Sanitized(JObj(props)).props, key) == JUndefined
  {
    var v := JObj(props);
    UpToIsKeptEntries(v, |props|);
    assert props[..|props|] == props;
    var kept := KeepOut(props, PiiFields);
    if key !in PiiFields {
      LookupMapped(SanitizedUpTo(v, |props|), kept, key);
      LookupKeepOut(props, PiiFields, key);
    } else {
      assert !HasKey(Sanitized(v).props, key);
      LookupAbsent(Sanitized(v).props, key);
    }
  }

  /** A falsy detail gives `{}`; a truthy value that is not an object comes back unchanged; an array comes back as an object. */
  lemma SanitizedScalars(v: Json)
    ensures !Truthy(v) ==> Sanitized(v) == JObj([])
    ensures Truthy(v) && !IsObject(v) ==> Sanitized(v) == v
    ensures Truthy(v) ==> (Sanitized(v).JObj? <==> IsObject(v))
    ensures v.JArr? ==> |Sanitized(v).props| == |v.items|
  {
    if v.JArr? {
      UpToIsKeptEntries(v, |v.items|);
      var es := Entries(v);
      assert es[..|es|] == es;
      NumericKeysKept(es, |es|);
    }
  }

  /** No array index is a personal key, so nothing is removed from an array's entries. */
  lemma {:induction false} NumericKeysKept(es: seq<(string, Json)>, n: nat)
    requires n <= |es|
    requires forall i :: 0 <= i < |es| ==> |es[i].0| >= 1 && IsDigit(es[i].0[0])
    ensures KeepOut(es[..n], PiiFields) == es[..n]
  {
    if n > 0 {
      NumericKeysKept(es, n - 1);
      assert es[..n][..n - 1] == es[..n - 1];
      assert es[n - 1].0 !in PiiFields by {
        assert IsDigit(es[n - 1].0[0]);
      }
      assert es[..n] == es[..n - 1] + [es[n - 1]];
    }
  }

  /**
   * `sanitizeDetail` as the source runs it: copy the entries, delete each
   * personal key in turn, then replace every object-valued entry by its
   * sanitised form. The input is a value, so it is never changed.
   */
  method SanitizeDetail(detail: Json) returns (r: Json)
    ensures r == Sanitized(detail)
  {
    if !Truthy(detail) {
      return JObj([]);
    }
    if !IsObject(detail) {
      return detail;
    }
    var kept := DeletePii(Entries(detail));
    var es := SanitizeValues(kept);
    UpToIsKeptEntries(detail, |Entries(detail)|);
    assert Entries(detail)[..|Entries(detail)|] == Entries(detail);
    r := JObj(es);
  }

  /** The first pass: `delete` each personal key from the copy, one key after another. */
  method DeletePii(entries: seq<(string, Json)>) returns (es: seq<(string, Json)>)
    ensures es == KeepOut(entries, PiiFields)
  {
    es := entries;
    NoKeysKeepAll(entries);
    var j := 0;
    while j < |PiiFields|
      invariant 0 <= j <= |PiiFields|
      invariant es == KeepOut(entries, PiiFields[..j])
    {
      KeepOutMore(entries, PiiFields[..j], PiiFields[j]);
      assert PiiFields[..j + 1] == PiiFields[..j] + [PiiFields[j]];
      es := KeepOut(es, [PiiFields[j]]);
      j := j + 1;
    }
    assert PiiFields[..j] == PiiFields;
  }

  /** The second pass: replace every object-valued entry by its sanitised form. */
  method SanitizeValues(kept: seq<(string, Json)>) returns (es: seq<(string, Json)>)
    ensures |es| == |kept|
    ensures forall l :: 0 <= l < |es| ==> es[l] == (kept[l].0, SanitizedValue(kept[l].1))
  {
    es := kept;
    var i := 0;
    while i < |es|
      invariant 0 <= i <= |es| == |kept|
      invariant forall l :: 0 <= l < i ==> es[l] == (kept[l].0, SanitizedValue(kept[l].1))
      invariant forall l :: i <= l < |es| ==> es[l] == kept[l]
    {
      if IsObject(es[i].1) {
        es := es[i := (es[i].0, Sanitized(es[i].1))];
      }
      i := i + 1;
    }
  }

  lemma {:induction false} NoKeysKeepAll(es: seq<(string, Json)>)
    ensures KeepOut(es, []) == es
  {
    if es != [] {
      NoKeysKeepAll(es[..|es| - 1]);
    }
  }

  /** A row handed to the `product_events` table. */
  datatype EventRow = EventRow(sessionId: string, event: string, detail: Json)

  /** `logEvent`: nothing without a non-empty string session id, otherwise the row with its detail sanitised. */
  function LogEvent(sessionId: Json, event: string, detail: Json): Option<EventRow> {
    if !Truthy(sessionId) || !sessionId.JStr? then None
    else Some(EventRow(sessionId.s, event, Sanitized(detail)))
  }

  /** An event is logged exactly when the session id is a non-empty string, and what is logged carries no personal key. */
  lemma LogEventGuard(sessionId: Json, event: string, detail: Json)
    ensures LogEvent(sessionId, event, detail).Some? <==> sessionId.JStr? && sessionId.s != []
    ensures LogEvent(sessionId, event, detail).Some? ==>
      LogEvent(sessionId, event, detail).value.sessionId == sessionId.s &&
      PiiFree(LogEvent(sessionId, event, detail).value.detail)
  {
    SanitizedIsPiiFree(detail);
  }

  /** The detail of a page-view event. */
  function PageViewDetail(page: string, variant: Json): Json {
    JObj([("page", JStr(page)), ("variant", variant)])
  }

  /** The detail of a page-exit event: the time on the page when a truthy start time was given. */
  function PageExitDetail(page: string, startTime: Option<int>, now: int): Json {
    var timeOnPage := if startTime.Some? && startTime.value != 0 then JNum(now - startTime.value) else JUndefined;
    JObj([("page", JStr(page)), ("timeOnPage", timeOnPage)])
  }

  /** The module-level session id and the rows the page helpers have logged. */
  class Session {
    var currentSessionId: Option<string>
    var logged: seq<EventRow>

    constructor ()
      ensures currentSessionId == None && logged == []
    {
      currentSessionId := None;
      logged := [];
    }

    /** Whether the page helpers log anything: a non-empty session id has been set. */
    predicate Active()
      reads this
    {
      currentSessionId.Some? && currentSessionId.value != []
    }

    method SetSessionId(sessionId: string)
      modifies this
      ensures currentSessionId == Some(sessionId) && logged == old(logged)
    {
      currentSessionId := Some(sessionId);
    }

    method GetSessionId() returns (sessionId: Option<string>)
      ensures sessionId == currentSessionId
    {
      sessionId := currentSessionId;
    }

    /** `trackPageView`: logs a page-view row only while a session id is set. */
    method TrackPageView(page: string, variant: Json)
      modifies this
      ensures currentSessionId == old(currentSessionId)
      ensures logged == if old(Active()) then
                          old(logged) + [EventRow(currentSessionId.value, "page_view", Sanitized(PageViewDetail(page, variant)))]
                        else old(logged)
    {
      if currentSessionId.Some? && currentSessionId.value != [] {
        var row := LogEvent(JStr(currentSessionId.value), "page_view", PageViewDetail(page, variant));
        logged := logged + [row.value];
      }
    }

    /** `trackPageExit`: logs a page-exit row only while a session id is set. */
    method TrackPageExit(page: string, startTime: Option<int>, now: int)
      modifies this
      ensures currentSessionId == old(currentSessionId)
      ensures logged == if old(Active()) then
                          old(logged) + [EventRow(currentSessionId.value, "page_exit", Sanitized(PageExitDetail(page, startTime, now)))]
                        else old(logged)
    {
      if currentSessionId.Some? && currentSessionId.value != [] {
        var row := LogEvent(JStr(currentSessionId.value), "page_exit", PageExitDetail(page, startTime, now));
        logged := logged + [row.value];
      }
    }
  }

  /** Before any session id is set, page views and exits log nothing; after a non-empty one is set, each logs one row. */
  method PageTrackingGated(page: string, sessionId: string, now: int) returns (before: nat, after: nat)
    requires sessionId != []
    ensures before == 0 && after == 2
  {
    var t := new Session();
    t.TrackPageView(page, JUndefined);
    t.TrackPageExit(page, Some(now - 1000), now);
    before := |t.logged|;
    t.SetSessionId(sessionId);
    t.TrackPageView(page, JUndefined);
    t.TrackPageExit(page, None, now);
    after := |t.logged|;
  }
}
