/** The settings view model: the hourly reminder schedule computed from the
    start and end times, its installation into the notification centre, and
    the notification permission flags. */
module Settings {
  import opened Wrappers
  import opened Uuids
  import opened DayPicker
  import opened Notifications

  // ---------------------------------------------------------------------------
  // The reminder schedule
  // ---------------------------------------------------------------------------

  /** The minute a reminder in `hour` fires at: the start minute, except in the
      end hour when the end minute is earlier than the start minute. */
  function MinuteAt(hour: int, start: TimeOfDay, end: TimeOfDay): (m: Minute)
    ensures hour != end.hour ==> m == start.minute
    ensures hour == end.hour ==> m == Min(start.minute, end.minute)
  {
    if hour == end.hour && end.minute < start.minute then end.minute else start.minute
  }

  /** One reminder for each hour from `from` up to `end.hour`. */
  function TimesFrom(from: nat, start: TimeOfDay, end: TimeOfDay): (ts: seq<TimeOfDay>)
    ensures |ts| == if from <= end.hour then end.hour + 1 - from else 0
    ensures forall t :: t in ts ==> from <= t.hour <= end.hour
    decreases end.hour + 1 - from
  {
    if from > end.hour then []
    else [TimeOfDay(from, MinuteAt(from, start, end))] + TimesFrom(from + 1, start, end)
  }

  /** The daily reminders for the window `start` .. `end`, earliest first. The
      window must not pass midnight: `startHour...endHour` needs `start.hour <= end.hour`. */
  function ReminderTimes(start: TimeOfDay, end: TimeOfDay): (ts: seq<TimeOfDay>)
    requires start.hour <= end.hour
    ensures |ts| == end.hour - start.hour + 1
    ensures ts[0] == TimeOfDay(start.hour, MinuteAt(start.hour, start, end))
    ensures ts[|ts| - 1] == TimeOfDay(end.hour, Min(start.minute, end.minute))
    ensures forall t :: t in ts ==> start.hour <= t.hour <= end.hour
  {
    TimesFromShape(start.hour, start, end);
    TimesFrom(start.hour, start, end)
  }

  lemma {:induction false} TimesFromShape(from: nat, start: TimeOfDay, end: TimeOfDay)
    requires from <= end.hour + 1
    ensures |TimesFrom(from, start, end)| == end.hour + 1 - from
    ensures forall k :: 0 <= k < end.hour + 1 - from ==>
      TimesFrom(from, start, end)[k] == TimeOfDay(from + k, MinuteAt(from + k, start, end))
    decreases end.hour + 1 - from
  {
    if from <= end.hour {
      TimesFromShape(from + 1, start, end);
      var ts := TimesFrom(from, start, end);
      forall k | 0 <= k < end.hour + 1 - from
        ensures ts[k] == TimeOfDay(from + k, MinuteAt(from + k, start, end))
      {
        if k > 0 {
          assert ts[k] == TimesFrom(from + 1, start, end)[k - 1];
        }
      }
    }
  }

  /** One reminder per hour from the start hour to the end hour inclusive, in
      ascending order; each fires at the start minute, except that the end hour
      fires at the earlier of the start and end minutes. */
  lemma ReminderTimesShape(start: TimeOfDay, end: TimeOfDay)
    requires start.hour <= end.hour
    ensures |ReminderTimes(start, end)| == end.hour - start.hour + 1
    ensures forall k :: 0 <= k < |ReminderTimes(start, end)| ==>
      ReminderTimes(start, end)[k].hour == start.hour + k
    ensures forall k :: 0 <= k < |ReminderTimes(start, end)| ==>
      ReminderTimes(start, end)[k].minute ==
        if start.hour + k == end.hour then Min(start.minute, end.minute) else start.minute
  {
    TimesFromShape(start.hour, start, end);
  }

  function Min(a: int, b: int): int
  {
    if a <= b then a else b
  }

  /** Hours strictly increase along the list, so no hour occurs twice. */
  predicate HoursAscending(ts: seq<TimeOfDay>)
  {
    forall i, j :: 0 <= i < j < |ts| ==> ts[i].hour < ts[j].hour
  }

  lemma ReminderTimesAscending(start: TimeOfDay, end: TimeOfDay)
    requires start.hour <= end.hour
    ensures HoursAscending(ReminderTimes(start, end))
  {
    ReminderTimesShape(start, end);
  }

  /** The reminders of the window 08:30 .. 10:15, 08:30 .. 10:45, 08:00 .. 08:00
      and 08:30 .. 08:15. */
  lemma ReminderTimesExamples()
    ensures ReminderTimes(TimeOfDay(8, 30), TimeOfDay(10, 15))
         == [TimeOfDay(8, 30), TimeOfDay(9, 30), TimeOfDay(10, 15)]
    ensures ReminderTimes(TimeOfDay(8, 30), TimeOfDay(10, 45))
         == [TimeOfDay(8, 30), TimeOfDay(9, 30), TimeOfDay(10, 30)]
    ensures ReminderTimes(TimeOfDay(8, 0), TimeOfDay(8, 0)) == [TimeOfDay(8, 0)]
    ensures ReminderTimes(TimeOfDay(8, 30), TimeOfDay(8, 15)) == [TimeOfDay(8, 15)]
  {
    ReminderTimesShape(TimeOfDay(8, 30), TimeOfDay(10, 15));
    ReminderTimesShape(TimeOfDay(8, 30), TimeOfDay(10, 45));
    ReminderTimesShape(TimeOfDay(8, 0), TimeOfDay(8, 0));
    ReminderTimesShape(TimeOfDay(8, 30), TimeOfDay(8, 15));
  }

  /** The reminders that end up pending when the add of every reminder whose
      hour is in `rejected` throws: the others, in their order. */
  function Installed(ts: seq<TimeOfDay>, rejected: set<int>): (r: seq<TimeOfDay>)
    ensures |r| <= |ts|
  {
    if ts == [] then []
    else
      var last := ts[|ts| - 1];
      Installed(ts[..|ts| - 1], rejected) + (if last.hour in rejected then [] else [last])
  }

  /** A reminder ends up pending exactly when it is in the schedule and its
      add does not throw. */
  lemma {:induction false} InstalledMembers(ts: seq<TimeOfDay>, rejected: set<int>)
    ensures forall t :: t in Installed(ts, rejected) <==> t in ts && t.hour !in rejected
  {
    if ts != [] {
      var init, last := ts[..|ts| - 1], ts[|ts| - 1];
      InstalledMembers(init, rejected);
      assert ts == init + [last];
    }
  }

  lemma {:induction false} InstalledAscending(ts: seq<TimeOfDay>, rejected: set<int>)
    requires HoursAscending(ts)
    ensures HoursAscending(Installed(ts, rejected))
  {
    if ts != [] {
      var init, last := ts[..|ts| - 1], ts[|ts| - 1];
      InstalledAscending(init, rejected);
      InstalledMembers(init, rejected);
      var r := Installed(init, rejected);
      forall t | t in r ensures t.hour < last.hour {
        var k :| 0 <= k < |init| && init[k] == t;
        assert ts[k] == t;
      }
    }
  }

  /** Whatever the old pending requests, installing a window leaves one request
      per hour at most: reinstalling never accumulates duplicates. */
  lemma InstalledHasNoDuplicates(start: TimeOfDay, end: TimeOfDay, rejected: set<int>)
    requires start.hour <= end.hour
    ensures var r := Installed(ReminderTimes(start, end), rejected);
      forall i, j :: 0 <= i < j < |r| ==> r[i] != r[j]
  {
    ReminderTimesAscending(start, end);
    InstalledAscending(ReminderTimes(start, end), rejected);
  }

  /** With no failing add, every reminder of the window is installed. */
  lemma {:induction false} InstalledNoneRejected(ts: seq<TimeOfDay>)
    ensures Installed(ts, {}) == ts
  {
    if ts != [] {
      InstalledNoneRejected(ts[..|ts| - 1]);
      assert ts == ts[..|ts| - 1] + [ts[|ts| - 1]];
    }
  }

  predicate Authorizes(status: AuthorizationStatus): (b: bool)
    ensures b <==> status != NotDetermined && status != Denied && status != Ephemeral
  {
    status == Authorized || status == Provisional
  }

  // ---------------------------------------------------------------------------
  // Persisted preferences and the view model
  // ---------------------------------------------------------------------------

  /** The keys of `UserDefaults.standard` the settings screen uses. The
      enabled flag is a plain `bool`, read by `bool(forKey:)`, which gives
      `false` when the key is absent; the other three are read with `as?`, so
      an absent or ill-typed value is `None`. */
  class UserDefaults {
    var notificationsEnabled: bool
    var notificationStartTime: Option<TimeOfDay>
    var notificationEndTime: Option<TimeOfDay>
    var notificationDays: Option<seq<string>>

    constructor (enabled: bool, start: Option<TimeOfDay>, end: Option<TimeOfDay>, days: Option<seq<string>>)
      ensures notificationsEnabled == enabled && notificationStartTime == start
      ensures notificationEndTime == end && notificationDays == days
    {
      notificationsEnabled := enabled;
      notificationStartTime := start;
      notificationEndTime := end;
      notificationDays := days;
    }
  }

  class SettingsViewModel {
    var notificationsDenied: bool
    var notificationsEnabled: bool
    var notificationStartTime: TimeOfDay
    var notificationEndTime: TimeOfDay
    var notificationDays: seq<Day>
    const notifCenter: NotificationCenter
    const defaults: UserDefaults
    const uuids: UuidSource

    /** `init()`: loads the stored values (`now` stands for `Date()`, the
        fallback time), decodes the stored days and checks for denial. */
    constructor (defaults: UserDefaults, center: NotificationCenter, uuids: UuidSource, now: TimeOfDay)
      modifies defaults`notificationsEnabled
      ensures this.defaults == defaults && notifCenter == center && this.uuids == uuids
      ensures notificationStartTime == old(defaults.notificationStartTime).GetOr(now)
      ensures notificationEndTime == old(defaults.notificationEndTime).GetOr(now)
      ensures notificationDays == DecodeDays(old(defaults.notificationDays).GetOr([]))
      ensures center.authorizationStatus == Denied ==>
        notificationsDenied && !notificationsEnabled && !defaults.notificationsEnabled
      ensures center.authorizationStatus != Denied ==>
        !notificationsDenied && notificationsEnabled == old(defaults.notificationsEnabled)
        && defaults.notificationsEnabled == old(defaults.notificationsEnabled)
    {
      this.defaults := defaults;
      notifCenter := center;
      this.uuids := uuids;
      notificationsDenied := false;
      notificationsEnabled := defaults.notificationsEnabled;
      notificationStartTime := defaults.notificationStartTime.GetOr(now);
      notificationEndTime := defaults.notificationEndTime.GetOr(now);
      var rawNotificationDays := defaults.notificationDays.GetOr([]);
      notificationDays := DecodeDays(rawNotificationDays);
      new;
      CheckNotificationDenied();
    }

    /** `checkNotificationDenied()`: a denied status turns reminders off and
        persists that; any other status only clears the denial flag. */
    method CheckNotificationDenied()
      modifies this`notificationsDenied, this`notificationsEnabled, defaults`notificationsEnabled
      ensures notifCenter.authorizationStatus == Denied ==>
        notificationsDenied && !notificationsEnabled && !defaults.notificationsEnabled
      ensures notifCenter.authorizationStatus != Denied ==>
        !notificationsDenied && notificationsEnabled == old(notificationsEnabled)
        && defaults.notificationsEnabled == old(defaults.notificationsEnabled)
    {
      if notifCenter.authorizationStatus == Denied {
        notificationsDenied := true;
        notificationsEnabled := false;
        defaults.notificationsEnabled := notificationsEnabled;
      } else {
        notificationsDenied := false;
      }
    }

    /** `requestNotificationAuth()`; `success` is the answer the system gives.
        A refusal turns reminders off and raises the denial flag, without
        persisting; a grant changes nothing. */
    method RequestNotificationAuth(success: bool)
      modifies this`notificationsDenied, this`notificationsEnabled
      ensures !success ==> !notificationsEnabled && notificationsDenied
      ensures success ==>
        notificationsEnabled == old(notificationsEnabled) && notificationsDenied == old(notificationsDenied)
    {
      if !success {
        notificationsEnabled := false;
        notificationsDenied := true;
      }
    }

    /** `removeAllNotifications()`. */
    method RemoveAllNotifications()
      modifies notifCenter`pending
      ensures notifCenter.pending == []
    {
      notifCenter.RemoveAllPendingNotificationRequests();
    }

    /** `setNotifications()`. Unless notifications are authorized (or
        provisional) nothing happens. Otherwise every pending request is
        removed, and one repeating request per reminder time is added under a
        fresh identifier; an add whose hour is in `rejected` throws, which is
        logged and does not stop the remaining adds. An end hour before the
        start hour makes the closed range trap after the removal. */
    method SetNotifications(rejected: set<int>) returns (outcome: Outcome)
      modifies notifCenter`pending, uuids
      ensures !Authorizes(notifCenter.authorizationStatus) ==>
        outcome == Done && notifCenter.pending == old(notifCenter.pending) && uuids.next == old(uuids.next)
      ensures Authorizes(notifCenter.authorizationStatus) && notificationEndTime.hour < notificationStartTime.hour ==>
        outcome == Aborted && notifCenter.pending == [] && uuids.next == old(uuids.next)
      ensures Authorizes(notifCenter.authorizationStatus) && notificationStartTime.hour <= notificationEndTime.hour ==>
        && outcome == Done
        && Times(notifCenter.pending) == Installed(ReminderTimes(notificationStartTime, notificationEndTime), rejected)
        && DistinctIds(notifCenter.pending)
        && IdsWithin(notifCenter.pending, old(uuids.next), uuids.next)
        && uuids.next == old(uuids.next) + (notificationEndTime.hour - notificationStartTime.hour + 1)
    {
      var settings := notifCenter.authorizationStatus;
      if !(settings == Authorized || settings == Provisional) {
        return Done;
      }
      notifCenter.RemoveAllPendingNotificationRequests();

      if notificationEndTime.hour < notificationStartTime.hour {
        return Aborted;
      }
      var startHour: int := notificationStartTime.hour;
      var endHour: int := notificationEndTime.hour;
      ghost var lo := uuids.next;
      ghost var slots := ReminderTimes(notificationStartTime, notificationEndTime);
      SlotAt(notificationStartTime, notificationEndTime, startHour);
      assert slots[..0] == [];
      for currentHour: int := startHour to endHour + 1
        invariant Tracking(notifCenter.pending, slots, currentHour - startHour, rejected, lo, uuids.next)
        invariant uuids.next == lo + (currentHour - startHour)
      {
        AddReminder(currentHour, notificationStartTime, notificationEndTime, rejected, slots, lo);
      }
      assert slots[..endHour + 1 - startHour] == slots;
      outcome := Done;
    }

    /** One turn of the loop of `setNotifications()`: the request for `hour`,
        at the start minute, or at the end minute in the end hour when that
        is earlier, added under a fresh identifier. */
    method AddReminder(hour: int, start: TimeOfDay, end: TimeOfDay, rejected: set<int>,
                       ghost slots: seq<TimeOfDay>, ghost lo: nat)
      requires start.hour <= hour <= end.hour && slots == ReminderTimes(start, end)
      requires Tracking(notifCenter.pending, slots, hour - start.hour, rejected, lo, uuids.next)
      modifies notifCenter`pending, uuids
      ensures Tracking(notifCenter.pending, slots, hour - start.hour + 1, rejected, lo, uuids.next)
      ensures uuids.next == old(uuids.next) + 1
    {
      var minute := start.minute;
      if hour == end.hour && end.minute < start.minute {
        minute := end.minute;
      }
      ghost var before := notifCenter.pending;
      var id := uuids.Fresh();
      var request := Request(id, TimeOfDay(hour, minute));
      var added := notifCenter.Add(request, hour in rejected);
      ghost var after := notifCenter.pending;
      assert after == if added then WithoutId(before, id) + [request] else before;
      assert request.time == slots[hour - start.hour] by {
        SlotAt(start, end, hour);
      }
      AddedStep(before, after, request, added, slots, hour - start.hour, rejected, lo);
      assert uuids.next == id + 1;
    }
  }

  lemma SlotAt(start: TimeOfDay, end: TimeOfDay, hour: int)
    requires start.hour <= hour <= end.hour
    ensures |ReminderTimes(start, end)| == end.hour - start.hour + 1
    ensures ReminderTimes(start, end)[hour - start.hour] == TimeOfDay(hour, MinuteAt(hour, start, end))
  {
    TimesFromShape(start.hour, start, end);
  }

  /** Handling one more reminder adds it to the end when its add succeeds. */
  lemma InstalledSnoc(slots: seq<TimeOfDay>, i: nat, rejected: set<int>)
    requires i < |slots|
    ensures Installed(slots[..i + 1], rejected)
         == Installed(slots[..i], rejected) + (if slots[i].hour in rejected then [] else [slots[i]])
  {
    assert slots[..i + 1][..i] == slots[..i];
    assert slots[..i + 1][i] == slots[i];
  }

  /** The pending requests correspond to the first `i` reminders minus the
      failed adds, under distinct identifiers in `lo` .. `hi - 1`. */
  ghost predicate Tracking(pending: seq<Request>, slots: seq<TimeOfDay>, i: int, rejected: set<int>, lo: nat, hi: nat)
  {
    && 0 <= i <= |slots|
    && Times(pending) == Installed(slots[..i], rejected)
    && DistinctIds(pending)
    && IdsWithin(pending, lo, hi)
    && lo <= hi
  }

  /** One turn of the installation loop keeps the pending requests in step
      with the reminders handled so far, and their identifiers distinct. */
  lemma AddedStep(before: seq<Request>, after: seq<Request>, request: Request, added: bool,
                  slots: seq<TimeOfDay>, i: nat, rejected: set<int>, lo: nat)
    requires i < |slots| && slots[i] == request.time
    requires Tracking(before, slots, i, rejected, lo, request.id)
    requires added <==> request.time.hour !in rejected
    requires after == if added then WithoutId(before, request.id) + [request] else before
    ensures Tracking(after, slots, i + 1, rejected, lo, request.id + 1)
  {
    InstalledSnoc(slots, i, rejected);
    if added {
      AddFresh(before, request, lo);
      TimesSnoc(before, request);
    }
  }
}
