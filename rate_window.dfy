/**
 * The fixed-window rate limiter that the lead endpoint and the e-mail sender
 * each keep: a record per key holding a count and the end of the key's
 * window. A call after the window (or for a new key) opens a window of its
 * own; inside the window calls are admitted until the count reaches the cap.
 */
module RateWindow {
  import opened Wrappers

  datatype RateRecord = RateRecord(count: int, resetTime: int)

  /** One call at `now`: whether it is admitted, and the key's record afterwards. */
  function Admit(rec: Option<RateRecord>, now: int, maxRequests: int, windowMs: int): (bool, RateRecord) {
    if rec.None? || now > rec.value.resetTime then (true, RateRecord(1, now + windowMs))
    else if rec.value.count >= maxRequests then (false, rec.value)
    else (true, rec.value.(count := rec.value.count + 1))
  }

  /**
   * A first call, or one after its window, is admitted and opens a window
   * ending `windowMs` later; a refused call changes nothing; an admitted call
   * inside the window counts one more and keeps the window's end; the end
   * itself still belongs to the window.
   */
  lemma AdmitRules(rec: Option<RateRecord>, now: int, maxRequests: int, windowMs: int)
    ensures rec.None? || now > rec.value.resetTime ==>
      Admit(rec, now, maxRequests, windowMs) == (true, RateRecord(1, now + windowMs))
    ensures !Admit(rec, now, maxRequests, windowMs).0 ==>
      rec.Some? && Admit(rec, now, maxRequests, windowMs).1 == rec.value && now <= rec.value.resetTime
    ensures rec.Some? && now <= rec.value.resetTime ==>
      Admit(rec, now, maxRequests, windowMs).1.resetTime == rec.value.resetTime &&
      (Admit(rec, now, maxRequests, windowMs).0 <==> rec.value.count < maxRequests) &&
      (Admit(rec, now, maxRequests, windowMs).0 ==> Admit(rec, now, maxRequests, windowMs).1.count == rec.value.count + 1)
  {
  }

  /** Replay the calls at `times` in order: how many were admitted, and the record left behind. */
  function Replay(rec: Option<RateRecord>, times: seq<int>, maxRequests: int, windowMs: int): (nat, Option<RateRecord>) {
    if times == [] then (0, rec)
    else
      var (admitted, r) := Replay(rec, times[..|times| - 1], maxRequests, windowMs);
      var (ok, next) := Admit(r, times[|times| - 1], maxRequests, windowMs);
      (admitted + (if ok then 1 else 0), Some(next))
  }

  /**
   * Within one window, opened by the first of the calls, at most
   * `maxRequests` calls are admitted: the count kept equals the number
   * admitted, and the window's end stays where the first call put it.
   */
  lemma {:induction false} WindowCap(times: seq<int>, maxRequests: int, windowMs: int)
    requires times != [] && maxRequests >= 1
    requires forall i :: 0 <= i < |times| ==> times[i] <= times[0] + windowMs
    ensures var (admitted, r) := Replay(None, times, maxRequests, windowMs);
      r == Some(RateRecord(admitted, times[0] + windowMs)) && 1 <= admitted <= maxRequests
  {
    if |times| == 1 {
      assert times[..0] == [];
    } else {
      var front := times[..|times| - 1];
      assert front[0] == times[0];
      WindowCap(front, maxRequests, windowMs);
    }
  }

  /** With a cap of one, every call after the first inside the window is refused. */
  lemma SingleRequestWindow(rec: RateRecord, now: int, windowMs: int)
    requires rec.count >= 1 && now <= rec.resetTime
    ensures Admit(Some(rec), now, 1, windowMs) == (false, rec)
  {
  }

  /** The per-key records of one limiter. */
  class Limiter {
    var records: map<string, RateRecord>

    constructor ()
      ensures records == map[]
    {
      records := map[];
    }

    /** The record of `key`, if any. */
    function Record(key: string): Option<RateRecord>
      reads this
    {
      if key in records then Some(records[key]) else None
    }

    /** One call for `key` at `now`; only that key's record changes. */
    method Check(key: string, now: int, maxRequests: int, windowMs: int) returns (allowed: bool)
      modifies this
      ensures key in records && (allowed, records[key]) == Admit(old(Record(key)), now, maxRequests, windowMs)
      ensures forall k :: k != key ==>
        (k in records <==> k in old(records)) && (k in records ==> records[k] == old(records)[k])
    {
      if key !in records || now > records[key].resetTime {
        records := records[key := RateRecord(1, now + windowMs)];
        return true;
      }
      var record := records[key];
      if record.count >= maxRequests {
        return false;
      }
      records := records[key := record.(count := record.count + 1)];
      return true;
    }
  }
}
