# WaterMe core in Dafny

WaterMe is an iOS water tracker. It reads and writes the day's water samples in
the health record store, and it reminds the user every hour within a daily
window. This project models the logic behind that and proves what it does.

- **Settings** (`settings.dfy`, `notifications.dfy`). The settings view model
  turns the reminder window's start and end times into a list of daily
  repeating triggers. It installs them into the notification centre after
  clearing the pending ones. It also keeps two permission flags:
  `notificationsEnabled` and `notificationsDenied`.
- **Health** (`health_store.dfy`, `health_kit_manager.dfy`). The health manager
  keeps today's total by start-of-day and a handle on the latest sample the app
  wrote. It adds one 500 ml sample, deletes the sample the handle names, and
  re-queries both values.
- **Day picker** (`day_picker.dfy`). This covers the `Day` enumeration, the
  decoding of the stored day names, and the tap handler that toggles a day in
  the bound selection.
- **Support**: `wrappers.dfy` holds `Option`, and `Outcome` for a call that
  returns or aborts the process. `uuids.dfy` holds a stand-in for `UUID()` that
  never repeats.

The state the source changes in place is written as classes:

- the view model;
- the notification centre;
- the health store;
- the manager;
- the picker.

Each method's `ensures` gives the fields it may change in terms of the old state
and the specification functions `ReminderTimes`, `Installed`, `Sum`, `Latest`,
`Refreshed`, `RemoveId`, `Toggled` and `DecodeDays`, on every failure path as well
as on success. There is one exception: for the requests `setNotifications`
installs, the contract gives their trigger times exactly, but for their fresh
identifiers only a range. The identifier counter itself is given exactly: it
advances by one per hour of the window. Lemmas prove what the specification functions mean.

The clock, the user's answers and the platform's failures are all parameters:

- `today` is `Date.startOfToday`, `now` is `Date()`, and times of day are hour
  and minute components;
- `success` is the answer to the notification permission prompt;
- `fails` / `rejected` say which store call or notification add throws.

Behaviour followed from the code:

- **Inverted window.** An end hour before the start hour makes `startHour...endHour`
  trap. This happens after the pending requests were removed. It is not treated
  as an empty window.
- **`setNotifications` never checks `notificationsEnabled`.** It only checks the
  authorization status.
- **The undo handle is never cleared.** After the last own sample of the day is
  deleted, `mostRecentWater` still names it. A second undo then asks the store to
  delete an object it no longer holds. Whether that call succeeds is up to the
  store, which is the free `fails` parameter here. If it succeeds, nothing is
  deleted and the total stays the same. If it fails, `fatalError` is reached.
- **An undo can reach back to an earlier day.** The handle survives midnight. An
  undo the next day, before any own sample of the new day exists, deletes
  yesterday's sample when the delete succeeds, and today's total does not change.
- **No sum clears the entry.** When the statistics have no sum, the entry for
  today is removed from `consumption`, and the screen shows 0. On a query error
  the old entry stays.
- **Only the code's 500 ml add exists.** Custom amounts, unit preferences and
  increment seeding have no code in the manager, so they are not modelled.

## Model

| member | source | states |
|---|---|---|
| `DayPicker.AllCasesAreTheSevenDays` | WaterMe/Settings/DayPicker/DayPicker.swift:47-48 | `Day.allCases` lists exactly the seven days, Sunday first, each once |
| `DayPicker.RawValue` | WaterMe/Settings/DayPicker/DayPicker.swift:47-48 | every raw value is a non-empty name, so its first letter exists |
| `DayPicker.FromRaw` | WaterMe/Settings/SettingsViewModel.swift:23 | `Day(rawValue:)` gives the day with that name, and `nil` exactly when no day has that name |
| `DayPicker.FromRawInvertsRawValue` | WaterMe/Settings/DayPicker/DayPicker.swift:47-48 | reading back a day's raw value gives the same day |
| `DayPicker.LabelsOfAllCases` | WaterMe/Settings/DayPicker/DayPicker.swift:17-18 | the labels read S M T W T F S; two days share a label only for Tuesday/Thursday and Sunday/Saturday |
| `DayPicker.Label` | WaterMe/Settings/DayPicker/DayPicker.swift:18 | the label drawn for a day is one of the five letters S, M, T, W, F |
| `DayPicker.EncodeDays` | WaterMe/Settings/SettingsViewModel.swift:22 | the stored form (one raw value per day) has one string per day |
| `DayPicker.DecodeDays` | WaterMe/Settings/SettingsViewModel.swift:22-23 | decoding yields no more days than strings, and every decoded day's name is in the stored list |
| `DayPicker.DecodeDaysAppend` | WaterMe/Settings/SettingsViewModel.swift:23 | decoding distributes over concatenation, so the stored order is kept |
| `DayPicker.DecodeDaysSingle` | WaterMe/Settings/SettingsViewModel.swift:23 | an unknown name is dropped; a known name becomes its day |
| `DayPicker.DecodeEncodeDays` | WaterMe/Settings/SettingsViewModel.swift:22-23 | every list of days, stored and decoded, comes back unchanged |
| `DayPicker.Without` | WaterMe/Settings/DayPicker/DayPicker.swift:31-32 | `removeAll(where:)` removes every occurrence of the day; every other day keeps its count; the list is unchanged if the day was absent |
| `DayPicker.WithoutAppend` | WaterMe/Settings/DayPicker/DayPicker.swift:32 | removal distributes over concatenation, so the remaining days keep their relative order |
| `DayPicker.WithoutKeepsDistinct` | WaterMe/Settings/DayPicker/DayPicker.swift:32 | removal never creates a duplicate |
| `DayPicker.Toggled` | WaterMe/Settings/DayPicker/DayPicker.swift:31-35 | after a tap, the tapped day's membership flips and every other day's membership stays the same |
| `DayPicker.ToggledKeepsDistinct` | WaterMe/Settings/DayPicker/DayPicker.swift:31-35 | a selection without duplicates has none after a tap |
| `DayPicker.ToggleTwiceAbsent` | WaterMe/Settings/DayPicker/DayPicker.swift:31-35 | tapping an unselected day twice restores the exact selection |
| `DayPicker.ToggleTwicePresent` | WaterMe/Settings/DayPicker/DayPicker.swift:31-35 | tapping a selected day twice restores membership, but moves the day to the end |
| `DayPicker.DaysPicker.constructor` | WaterMe/Settings/DayPicker/DayPicker.swift:10-13 | the picker holds the bound selection, the disabled flag and whether a submit callback exists |
| `DayPicker.DaysPicker.Tap` | WaterMe/Settings/DayPicker/DayPicker.swift:27-41 | disabled: nothing changes and there is no callback; enabled: the day's occurrences are removed, or the day is appended, and `onSubmit` runs exactly once if set and never if not |
| `Uuids.UuidSource.Fresh` | WaterMe/Settings/SettingsViewModel.swift:104 | each `UUID()` is new: above all earlier identifiers |
| `Notifications.Times` | WaterMe/Settings/SettingsViewModel.swift:101-104 | the trigger times of the requests, one per request in order |
| `Notifications.WithoutId` | WaterMe/Settings/SettingsViewModel.swift:107 | the requests not under a given identifier; this is all of them when none uses it |
| `Notifications.AddFresh` | WaterMe/Settings/SettingsViewModel.swift:104-107 | a request whose identifier is above every pending one replaces nothing and keeps identifiers distinct |
| `Notifications.NotificationCenter.RemoveAllPendingNotificationRequests` | WaterMe/Settings/SettingsViewModel.swift:74 | the pending set becomes empty |
| `Notifications.NotificationCenter.Add` | WaterMe/Settings/SettingsViewModel.swift:106-110 | a throwing add changes nothing; a successful add puts the request in, replacing any request with its identifier |
| `Settings.MinuteAt` | WaterMe/Settings/SettingsViewModel.swift:94-98 | a reminder fires at the start minute, except in the end hour, where it fires at `min(startMin, endMin)` |
| `Settings.TimesFrom` | WaterMe/Settings/SettingsViewModel.swift:92-98 | from hour `from` to the end hour: one reminder per hour, each at an hour in that range |
| `Settings.ReminderTimes` | WaterMe/Settings/SettingsViewModel.swift:88-98 | the schedule has `endHour - startHour + 1` reminders, all within the window's hours; the first is at the start hour, and the last is at the end hour with minute `min(startMin, endMin)` |
| `Settings.TimesFromShape` | WaterMe/Settings/SettingsViewModel.swift:92-98 | from a given hour to the end hour there is one trigger per hour, at hour `from + k` with the rule's minute |
| `Settings.ReminderTimesShape` | WaterMe/Settings/SettingsViewModel.swift:86-98 | there are `endHour - startHour + 1` triggers; the k-th is at hour `startHour + k`; each fires at the start minute except the end hour, which fires at `min(startMin, endMin)` |
| `Settings.ReminderTimesAscending` | WaterMe/Settings/SettingsViewModel.swift:92 | trigger hours strictly increase, so each hour occurs once |
| `Settings.ReminderTimesExamples` | WaterMe/Settings/SettingsViewModel.swift:91-98 | 08:30–10:15 gives 08:30, 09:30, 10:15; 08:30–10:45 gives 08:30, 09:30, 10:30; 08:00–08:00 gives 08:00; 08:30–08:15 gives 08:15 |
| `Settings.Installed` | WaterMe/Settings/SettingsViewModel.swift:106-110 | installing never leaves more triggers pending than the schedule has |
| `Settings.InstalledMembers` | WaterMe/Settings/SettingsViewModel.swift:106-110 | a trigger ends up pending exactly when it is in the schedule and its add did not throw, so a failed add does not stop later ones |
| `Settings.InstalledAscending` | WaterMe/Settings/SettingsViewModel.swift:92-110 | skipping failed adds keeps the hours strictly increasing |
| `Settings.InstalledHasNoDuplicates` | WaterMe/Settings/SettingsViewModel.swift:74-110 | an installed schedule never holds the same trigger twice, so reinstalling never accumulates duplicates |
| `Settings.Authorizes` | WaterMe/Settings/SettingsViewModel.swift:71-72 | reminders are scheduled unless the status is not determined, denied or ephemeral |
| `Settings.InstalledNoneRejected` | WaterMe/Settings/SettingsViewModel.swift:101-110 | with no failing add, every computed trigger is installed |
| `Settings.UserDefaults.constructor` | WaterMe/Settings/SettingsViewModel.swift:15-22 | the stored preferences as the loads read them. `bool(forKey:)` gives a plain flag, `false` when absent. The `as?` loads of the two times and of the day names give `nil` when the value is absent or ill-typed |
| `Settings.SettingsViewModel.constructor` | WaterMe/Settings/SettingsViewModel.swift:12-26 | the fields are loaded from the stored values, with `Date()` as fallback times, the stored days decoded, and then the denial check applied |
| `Settings.SettingsViewModel.CheckNotificationDenied` | WaterMe/Settings/SettingsViewModel.swift:28-38 | denied: `notificationsDenied` is set, reminders are turned off, and `false` is persisted; otherwise only `notificationsDenied` is cleared |
| `Settings.SettingsViewModel.RequestNotificationAuth` | WaterMe/Settings/SettingsViewModel.swift:40-53 | failure turns reminders off and sets `notificationsDenied`, without persisting; success changes neither flag |
| `Settings.SettingsViewModel.RemoveAllNotifications` | WaterMe/Settings/SettingsViewModel.swift:55-57 | no request stays pending |
| `Settings.SettingsViewModel.SetNotifications` | WaterMe/Settings/SettingsViewModel.swift:67-112 | not authorized or provisional: nothing changes. Otherwise all pending requests are removed first. An inverted window then traps with nothing pending. Else the pending times are exactly the schedule minus the failed adds, under distinct fresh identifiers, and one identifier is drawn per hour of the window, failed adds included |
| `Settings.SettingsViewModel.AddReminder` | WaterMe/Settings/SettingsViewModel.swift:92-110 | one turn of the hour loop: the next reminder's request, at the rule's minute, is added under a fresh identifier, keeping the pending requests in step with the reminders handled so far |
| `HealthStore.InWindow` | WaterMe/HealthKitManager.swift:42 | a sample matches the day's date predicate exactly when it neither ends before the window's start nor starts after its end; a sample that starts inside the window and does not end before it starts always matches |
| `HealthStore.IsCandidate` | WaterMe/HealthKitManager.swift:59-61 | a candidate for the most-recent query is in the window and written by this app |
| `HealthStore.Sum` | WaterMe/HealthKitManager.swift:42-44 | the day's sum is 0 when no sample is in the window, and at least the quantity of each sample in the window |
| `HealthStore.SumAppend` | WaterMe/HealthKitManager.swift:42-51 | one more sample raises the sum by exactly its quantity when in the window, and by nothing otherwise |
| `HealthStore.RemoveId` | WaterMe/HealthKitManager.swift:102 | deleting keeps exactly the samples with a different UUID, and changes nothing when no sample has that UUID |
| `HealthStore.RemoveIdKeepsUnique` | WaterMe/HealthKitManager.swift:102 | deletion never makes two samples share a UUID |
| `HealthStore.RemoveIdKeepsBound` | WaterMe/HealthKitManager.swift:102 | deletion keeps every UUID below the next fresh one |
| `HealthStore.SumRemoveIdAtMost` | WaterMe/HealthKitManager.swift:102 | deleting never raises the day's sum |
| `HealthStore.SumRemoveId` | WaterMe/HealthKitManager.swift:42-51 | deleting a sample stored once lowers the sum by exactly its quantity when in the window |
| `HealthStore.Latest` | WaterMe/HealthKitManager.swift:59-64 | the result is an own-source sample in the window with the greatest end date; it is `nil` exactly when there is none |
| `HealthStore.Store.ExecuteStatisticsQuery` | WaterMe/HealthKitManager.swift:42-45 | an error exactly when the query fails; otherwise the sum, which is `nil` exactly when no sample is in the window |
| `HealthStore.Store.ExecuteSampleQuery` | WaterMe/HealthKitManager.swift:58-65 | an error exactly when the query fails; otherwise at most one sample: empty exactly when there is no candidate, else the latest own-source sample |
| `HealthStore.Store.Save` | WaterMe/HealthKitManager.swift:90 | a failed save changes nothing; a successful save appends the sample |
| `HealthStore.Store.Delete` | WaterMe/HealthKitManager.swift:102 | a failed delete changes nothing; a successful delete removes the object with that UUID |
| `HealthKit.DisplayedTotal` | WaterMe/ContentView.swift:26 | the total shown is today's entry, or 0 when there is none |
| `HealthKit.Refreshed` | WaterMe/HealthKitManager.swift:67-78 | after a refresh, the handle is the old one or an own sample of the window. It is never cleared, is unchanged on an error, and is a latest candidate whenever the query succeeds and one exists |
| `HealthKit.HealthKitManager.constructor` | WaterMe/HealthKitManager.swift:17-20 | `consumption` starts empty and `mostRecentWater` starts `nil` |
| `HealthKit.HealthKitManager.Startup` | WaterMe/HealthKitManager.swift:22-38 | no health data, or an authorization error (which aborts): nothing changes. Otherwise today's entry is as `fetchTodayWater` leaves it: unchanged on a statistics error, else the sum, with other days kept. The handle is as `fetchMostRecentWater` leaves it: `Refreshed` |
| `HealthKit.HealthKitManager.FetchTodayWater` | WaterMe/HealthKitManager.swift:40-55 | an error changes nothing. Otherwise today's entry exists exactly when a sample is in the window, the shown total is the sum from all sources, and no other day's entry changes |
| `HealthKit.HealthKitManager.FetchMostRecentWater` | WaterMe/HealthKitManager.swift:57-83 | a non-empty result sets the handle to the latest own-source sample; an error or an empty result keeps it, so a set handle is never reset to `nil`; the new handle is `Refreshed` of the old |
| `HealthKit.HealthKitManager.AddTodayWater` | WaterMe/HealthKitManager.swift:85-94 | exactly one new own-source 500 ml sample is saved, with start = end = now, under a fresh UUID; a save error aborts and leaves the store as it was; the total and the handle are untouched |
| `HealthKit.HealthKitManager.RemoveTodayWater` | WaterMe/HealthKitManager.swift:96-106 | with no handle, the store is untouched. Otherwise exactly the handle's sample is deleted, nothing if no longer stored. A delete error aborts |
| `HealthKit.HealthKitManager.AddButton` | WaterMe/ContentView.swift:16-22 | on a save error, nothing changes and the tap aborts. Otherwise the store gains the new sample. Today's entry is unchanged on a statistics error; else it is present exactly when a sample lies in the window, it shows the new sum, other days are kept, and the total is exactly 500 above the sum before the tap. The handle is `Refreshed`, and with no query error it names an own sample ending no earlier than now |
| `HealthKit.HealthKitManager.RemoveButton` | WaterMe/ContentView.swift:28-34 | a delete error with a handle set aborts, changing nothing. Otherwise the store loses the handle's UUID. Today's entry is unchanged on a statistics error. Otherwise the entry is present exactly when a sample is left in the window; it is removed once the undo deletes the window's last sample. It shows the new sum, other days are kept, and the total is never higher than before. When the handle's sample is stored and lies in today's window, the total falls by exactly its quantity. The total stays the same in three cases: the stored sample lies outside the window, there was no handle, or no stored sample has the handle's UUID. With no own sample left, the handle still names the deleted sample. The manager's invariant `Valid` keeps the handle either stored or sharing its UUID with no stored sample, so these cases cover every handle |

## Left out

- The notification's title, body and sound (SettingsViewModel.swift:76-80) are one fixed message that no request carries. The calendar trigger is represented only by its hour and minute, always repeating.
- `Date`, `Calendar` and `Date.startOfToday` are replaced by integer instants and hour/minute components. The two `Date()` calls for a sample's start and end are taken as one instant. So are the two `Date()` fallbacks for the stored start and end times (SettingsViewModel.swift:16 and 17), which the view model's constructor reads from one `now`. `.startOfToday` is evaluated again in the completion handler (HealthKitManager.swift:51). These are taken as the same `today`, so a refresh running across midnight is not modelled.
- `HealthKit.HealthKitManager.AddButton` and `HealthKit.HealthKitManager.RemoveButton` pass one `now` to the write and to both refreshes. The source calls `Date()` again in each refresh's date predicate (HealthKitManager.swift:42 and 59), after the write's `Date()` (88). The exact +500 of `AddButton` depends on these being one instant and on the window being closed at its end (`InWindow`). The closed end is the model's own choice; the store's rule at the window's boundaries is not modelled.
- `HealthStore.Store.ExecuteStatisticsQuery` assumes `sumQuantity()` is the cumulative sum of the window's samples. The query at HealthKitManager.swift:44 passes no `options:`, so `.cumulativeSum` is never requested explicitly. The model takes the sum the code reads at line 51 to be that cumulative sum. It also assumes the store answers a window with no samples with statistics whose sum is `nil`, not with an error; the guard at line 45 accepts either, and an error there is the free `statisticsFails`, which keeps the old entry.
- `DayPicker.DaysPicker`: `@Binding var selection` becomes a field the picker owns. The write-through to the view that owns the bound state (the settings screen's `notificationDays`) is not modelled, nor is any aliasing between the two.
- `Task`, `async`/`await`, completion handlers and `DispatchQueue.main.async` are sequential steps. Interleaved refreshes are not modelled.
- Quantities are whole millilitres instead of `Double`, and the unit conversion `.literUnit(with: .milli)` is the identity.
- The health store's deduplication of overlapping samples from different sources in statistics queries is not modelled. The sum is the plain sum over all sources.
- `HKHealthStore.isHealthDataAvailable()` and the authorization request in `init` are parameters of `Startup`. Per-type authorization status is not modelled.
- The notification centre's own change of status after the permission prompt is not modelled. The app's code only reads the prompt's answer, which is a parameter, and the logged error is dropped.
- `increment` and `goal` (SettingsViewModel.swift:12-13) are only loaded, with no logic. `getNotifications` (59-65) only prints. The commented-out delegate and category code (115-151) is dead.
- `notificationDays` is loaded but never used by `setNotifications`, so no weekday filter is applied.
- Logging (`print`, `debugPrint`) is not modelled.
- Which notification adds throw is a parameter (the set of hours whose add fails).
- The SwiftUI views are not part of this model: layout, colours and button wiring. The two button methods only reproduce the call order of ContentView.swift.
- `HealthStore.Latest`: the store does not say which of two own samples with the same end date comes first; the model picks the one stored last.
- `HealthKit.HealthKitManager.AddButton`: states that the handle ends no earlier than now, not that it names the new sample. An own sample ending after `now` can still meet the window and would be the latest.
