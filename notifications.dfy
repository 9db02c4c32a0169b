/** The local notification centre as seen by the settings screen: an
    authorization status and the pending daily trigger requests. Delivery,
    content and the calendar machinery are not part of this model. */
module Notifications {

  type Hour = h: int | 0 <= h < 24
  type Minute = m: int | 0 <= m < 60

  /** The hour and minute components of a date, as `Calendar.component` gives them. */
  datatype TimeOfDay = TimeOfDay(hour: Hour, minute: Minute)

  /** `UNAuthorizationStatus`. */
  datatype AuthorizationStatus = NotDetermined | Denied | Authorized | Provisional | Ephemeral

  /** A `UNNotificationRequest`: its identifier and the time of day of its
      repeating calendar trigger (the message is the same for every request). */
  datatype Request = Request(id: nat, time: TimeOfDay)

  /** The trigger times of a list of requests, in the same order. */
  function Times(rs: seq<Request>): (ts: seq<TimeOfDay>)
    ensures |ts| == |rs|
    ensures forall k :: 0 <= k < |rs| ==> ts[k] == rs[k].time
  {
    if rs == [] then [] else Times(rs[..|rs| - 1]) + [rs[|rs| - 1].time]
  }

  lemma TimesSnoc(rs: seq<Request>, r: Request)
    ensures Times(rs + [r]) == Times(rs) + [r.time]
  {
    assert (rs + [r])[..|rs|] == rs;
  }

  /** No identifier is used by two requests. */
  predicate DistinctIds(rs: seq<Request>)
  {
    forall i, j :: 0 <= i < j < |rs| ==> rs[i].id != rs[j].id
  }

  /** Every identifier lies in `lo` .. `hi - 1`. */
  predicate IdsWithin(rs: seq<Request>, lo: nat, hi: nat)
  {
    forall k :: 0 <= k < |rs| ==> lo <= rs[k].id < hi
  }

  /** The requests whose identifier is not `id`. */
  function WithoutId(rs: seq<Request>, id: nat): (r: seq<Request>)
    ensures forall q :: q in r <==> q in rs && q.id != id
    ensures (forall k :: 0 <= k < |rs| ==> rs[k].id != id) ==> r == rs
  {
    if rs == [] then []
    else
      assert rs == [rs[0]] + rs[1..];
      if rs[0].id == id then WithoutId(rs[1..], id) else [rs[0]] + WithoutId(rs[1..], id)
  }

  /** Adding under an identifier above every pending one replaces nothing and
      keeps the identifiers distinct. */
  lemma AddFresh(rs: seq<Request>, r: Request, lo: nat)
    requires DistinctIds(rs) && IdsWithin(rs, lo, r.id) && lo <= r.id
    ensures WithoutId(rs, r.id) == rs
    ensures DistinctIds(rs + [r]) && IdsWithin(rs + [r], lo, r.id + 1)
  {
    var rs' := rs + [r];
    forall k | 0 <= k < |rs'| ensures lo <= rs'[k].id <= r.id && (k < |rs| ==> rs'[k].id < r.id) {
      if k < |rs| {
        assert rs'[k] == rs[k];
      }
    }
  }

  /** `UNUserNotificationCenter`. */
  class NotificationCenter {
    var authorizationStatus: AuthorizationStatus
    var pending: seq<Request>

    constructor (status: AuthorizationStatus, pending: seq<Request>)
      ensures authorizationStatus == status && this.pending == pending
    {
      authorizationStatus := status;
      this.pending := pending;
    }

    /** `removeAllPendingNotificationRequests()`. */
    method RemoveAllPendingNotificationRequests()
      modifies this`pending
      ensures pending == []
    {
      pending := [];
    }

    /** `add(_:)`, which throws when `fails`. A request whose identifier is
        already pending replaces the earlier one. */
    method Add(r: Request, fails: bool) returns (ok: bool)
      modifies this`pending
      ensures ok == !fails
      ensures pending == if ok then WithoutId(old(pending), r.id) + [r] else old(pending)
    {
      if fails {
        return false;
      }
      pending := WithoutId(pending, r.id) + [r];
      return true;
    }
  }
}
