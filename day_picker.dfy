/** The weekday picker: the `Day` enumeration, the decoding of stored day
    names, and the tap handler that toggles a day in the bound selection. */
module DayPicker {
  import opened Wrappers

  /** `enum Day: String`, whose raw values are the case names. */
  datatype Day = Sunday | Monday | Tuesday | Wednesday | Thursday | Friday | Saturday

  /** `Day.allCases`, in declaration order: the order the picker draws them. */
  const AllCases: seq<Day> := [Sunday, Monday, Tuesday, Wednesday, Thursday, Friday, Saturday]

  lemma AllCasesAreTheSevenDays()
    ensures |AllCases| == 7
    ensures forall d: Day :: d in AllCases
    ensures forall i, j :: 0 <= i < j < |AllCases| ==> AllCases[i] != AllCases[j]
  {
    forall d: Day ensures d in AllCases {
      match d
      case Sunday => assert AllCases[0] == d;
      case Monday => assert AllCases[1] == d;
      case Tuesday => assert AllCases[2] == d;
      case Wednesday => assert AllCases[3] == d;
      case Thursday => assert AllCases[4] == d;
      case Friday => assert AllCases[5] == d;
      case Saturday => assert AllCases[6] == d;
    }
  }

  /** `day.rawValue`. */
  function RawValue(d: Day): (s: string)
    ensures |s| > 0
  {
    match d
    case Sunday => "Sunday"
    case Monday => "Monday"
    case Tuesday => "Tuesday"
    case Wednesday => "Wednesday"
    case Thursday => "Thursday"
    case Friday => "Friday"
    case Saturday => "Saturday"
  }

  /** `Day(rawValue:)`: the day whose name is `s`, or `nil` for any other string. */
  function FromRaw(s: string): (r: Option<Day>)
    ensures r.Some? ==> RawValue(r.value) == s
    ensures r.None? ==> forall d: Day :: RawValue(d) != s
  {
    if s == "Sunday" then Some(Sunday)
    else if s == "Monday" then Some(Monday)
    else if s == "Tuesday" then Some(Tuesday)
    else if s == "Wednesday" then Some(Wednesday)
    else if s == "Thursday" then Some(Thursday)
    else if s == "Friday" then Some(Friday)
    else if s == "Saturday" then Some(Saturday)
    else None
  }

  lemma FromRawInvertsRawValue(d: Day)
    ensures FromRaw(RawValue(d)) == Some(d)
  {
  }

  /** The one-letter label drawn for a day: the first character of its name. */
  function Label(d: Day): (c: char)
    ensures c in "SMTWF"
  {
    RawValue(d)[0]
  }

  /** The picker's row reads S M T W T F S, so two pairs of days share a label. */
  lemma LabelsOfAllCases()
    ensures seq(|AllCases|, i requires 0 <= i < |AllCases| => Label(AllCases[i])) == "SMTWTFS"
    ensures forall a: Day, b: Day :: Label(a) == Label(b) <==>
      a == b || (a in {Tuesday, Thursday} && b in {Tuesday, Thursday}) || (a in {Sunday, Saturday} && b in {Sunday, Saturday})
  {
  }

  /** The stored form that the read of `notificationDays` in the settings view
      model decodes: the list of the days' raw values. */
  function EncodeDays(days: seq<Day>): (raw: seq<string>)
    ensures |raw| == |days|
  {
    if days == [] then [] else [RawValue(days[0])] + EncodeDays(days[1..])
  }

  /** `rawNotificationDays.compactMap { Day(rawValue: $0) }`: the known day names,
      in their stored order, with every unknown string dropped. */
  function DecodeDays(raw: seq<string>): (days: seq<Day>)
    ensures |days| <= |raw|
    ensures forall d :: d in days ==> RawValue(d) in raw
  {
    if raw == [] then []
    else
      match FromRaw(raw[0])
      case Some(d) => [d] + DecodeDays(raw[1..])
      case None => DecodeDays(raw[1..])
  }

  /** Decoding goes element by element, so it keeps the stored order. */
  lemma {:induction false} DecodeDaysAppend(a: seq<string>, b: seq<string>)
    ensures DecodeDays(a + b) == DecodeDays(a) + DecodeDays(b)
  {
    if a == [] {
      assert a + b == b;
    } else {
      assert (a + b)[0] == a[0];
      assert (a + b)[1..] == a[1..] + b;
      DecodeDaysAppend(a[1..], b);
    }
  }

  /** A string that names no day is dropped; one that names a day is kept. */
  lemma DecodeDaysSingle(s: string)
    ensures FromRaw(s).None? ==> DecodeDays([s]) == []
    ensures FromRaw(s).Some? ==> DecodeDays([s]) == [FromRaw(s).value]
  {
    assert [s][1..] == [];
  }

  /** Every list of days survives being stored and read back. */
  lemma {:induction false} DecodeEncodeDays(days: seq<Day>)
    ensures DecodeDays(EncodeDays(days)) == days
  {
    if days != [] {
      var raw := EncodeDays(days);
      FromRawInvertsRawValue(days[0]);
      assert raw[0] == RawValue(days[0]);
      assert raw[1..] == EncodeDays(days[1..]);
      DecodeEncodeDays(days[1..]);
      assert days == [days[0]] + days[1..];
    }
  }

  /** No day occurs twice. */
  predicate Distinct(s: seq<Day>)
  {
    forall i, j :: 0 <= i < j < |s| ==> s[i] != s[j]
  }

  /** `selection.removeAll(where: { $0 == day })`. */
  function Without(s: seq<Day>, day: Day): (r: seq<Day>)
    ensures day !in r
    ensures forall x :: x != day ==> (x in r <==> x in s)
    ensures forall x :: x != day ==> multiset(r)[x] == multiset(s)[x]
    ensures day !in s ==> r == s
  {
    if s == [] then []
    else
      assert s == [s[0]] + s[1..];
      if s[0] == day then Without(s[1..], day) else [s[0]] + Without(s[1..], day)
  }

  /** Removal works element by element, so the kept days stay in their order. */
  lemma {:induction false} WithoutAppend(a: seq<Day>, b: seq<Day>, day: Day)
    ensures Without(a + b, day) == Without(a, day) + Without(b, day)
  {
    if a == [] {
      assert a + b == b;
    } else {
      assert (a + b)[0] == a[0];
      assert (a + b)[1..] == a[1..] + b;
      WithoutAppend(a[1..], b, day);
    }
  }

  lemma {:induction false} WithoutKeepsDistinct(s: seq<Day>, day: Day)
    requires Distinct(s)
    ensures Distinct(Without(s, day))
  {
    if s != [] {
      WithoutKeepsDistinct(s[1..], day);
      assert s[0] !in s[1..] by {
        forall k | 0 <= k < |s[1..]| ensures s[1..][k] != s[0] {
          assert s[1..][k] == s[k + 1];
        }
      }
    }
  }

  /** The selection after an enabled tap on `day`: every occurrence removed if
      it was selected, otherwise `day` appended at the end. */
  function Toggled(selection: seq<Day>, day: Day): (r: seq<Day>)
    ensures day in r <==> day !in selection
    ensures forall x :: x != day ==> (x in r <==> x in selection)
  {
    if day in selection then Without(selection, day) else selection + [day]
  }

  lemma ToggledKeepsDistinct(selection: seq<Day>, day: Day)
    requires Distinct(selection)
    ensures Distinct(Toggled(selection, day))
  {
    if day in selection {
      WithoutKeepsDistinct(selection, day);
    }
  }

  /** Tapping an unselected day twice gives back exactly the old selection. */
  lemma ToggleTwiceAbsent(selection: seq<Day>, day: Day)
    requires day !in selection
    ensures Toggled(Toggled(selection, day), day) == selection
  {
    WithoutAppend(selection, [day], day);
    assert Without([day], day) == [];
  }

  /** Tapping a selected day twice gives back the same set of days, but the
      tapped day now stands at the end. */
  lemma ToggleTwicePresent(selection: seq<Day>, day: Day)
    requires day in selection
    ensures Toggled(Toggled(selection, day), day) == Without(selection, day) + [day]
    ensures forall x :: x in Toggled(Toggled(selection, day), day) <==> x in selection
  {
  }

  /** `struct DaysPicker`: the bound selection, the disabled flag and the
      optional submit callback, whose calls are counted. */
  class DaysPicker {
    /** `@Binding var selection: [Day]`. */
    var selection: seq<Day>
    const disabled: bool
    /** `onSubmit != nil`. */
    const hasSubmit: bool
    /** How many times `onSubmit` has been called. */
    var submitCalls: nat

    constructor (selection: seq<Day>, disabled: bool, hasSubmit: bool)
      ensures this.selection == selection && this.disabled == disabled && this.hasSubmit == hasSubmit
      ensures submitCalls == 0
    {
      this.selection := selection;
      this.disabled := disabled;
      this.hasSubmit := hasSubmit;
      submitCalls := 0;
    }

    /** The `onTapGesture` handler of the button for `day`. */
    method Tap(day: Day)
      modifies this`selection, this`submitCalls
      ensures disabled ==> selection == old(selection) && submitCalls == old(submitCalls)
      ensures !disabled && day in old(selection) ==> selection == Without(old(selection), day)
      ensures !disabled && day !in old(selection) ==> selection == old(selection) + [day]
      ensures !disabled ==> submitCalls == old(submitCalls) + (if hasSubmit then 1 else 0)
      ensures !disabled ==> selection == Toggled(old(selection), day)
    {
      if disabled {
        return;
      }
      if day in selection {
        selection := Without(selection, day);
      } else {
        selection := selection + [day];
      }
      if !hasSubmit {
        return;
      }
      submitCalls := submitCalls + 1;
    }
  }
}
