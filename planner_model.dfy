/**
 * The data model and the pure views of `src/pages/Planner.tsx`: trips, date buckets of
 * activities, the list of trip days, the countdown, the 12-hour time display, the
 * activity emoji and the by-time ordering of a day's activities.
 *
 * Calendar dates are day numbers (`int`). A bucket key `format(date, 'yyyy-MM-dd')` is an
 * injective function of the day, so buckets are keyed by the day number itself.
 */
module PlannerModel {
  import opened Wrappers
  import opened Text
  import Seqs

  datatype Activity = Activity(id: string, title: string, description: string, time: string,
                               location: string, kind: string)

  /** The activity form (`Omit<Activity, 'id'>`). */
  datatype ActivityDraft = ActivityDraft(title: string, description: string, time: string,
                                         location: string, kind: string)
  {
    function WithId(id: string): (a: Activity)
      ensures a.id == id && a.title == title && a.time == time
    {
      Activity(id, title, description, time, location, kind)
    }
  }

  const EmptyDraft := ActivityDraft("", "", "", "", "attraction")

  datatype Trip = Trip(id: string, title: string, startDate: int, endDate: int, location: string,
                       activities: map<int, seq<Activity>>)

  /** JavaScript truthiness of `string | null`: present and non-empty. */
  predicate Truthy(o: Option<string>)
  {
    o.Some? && o.value != ""
  }

  // ------------------------------------------------------------ lookups

  /** `trips.find(trip => trip.id === id)`: the first trip with that id. */
  function FindTrip(trips: seq<Trip>, id: Option<string>): (r: Option<Trip>)
    ensures r.None? <==> (id.None? || forall i :: 0 <= i < |trips| ==> trips[i].id != id.value)
    ensures r.Some? ==> r.value in trips && Some(r.value.id) == id
    ensures forall i :: 0 <= i < |trips| && id.Some? && trips[i].id == id.value && (forall j :: 0 <= j < i ==> trips[j].id != id.value) ==> r == Some(trips[i])
  {
    if id.None? || trips == [] then None
    else if trips[0].id == id.value then Some(trips[0])
    else
      var r := FindTrip(trips[1..], id);
      assert forall i :: 1 <= i < |trips| && trips[i].id == id.value ==> trips[1..][i - 1] == trips[i];
      r
  }

  /** A bucket, or `[]` for a day with none. */
  function Bucket(t: Trip, day: int): seq<Activity>
  {
    if day in t.activities then t.activities[day] else []
  }

  // ------------------------------------------------------------ activity updates

  /** The edit branch: every activity with `id` becomes `a`, everything else stays in place. */
  function ReplaceActivity(acts: seq<Activity>, id: string, a: Activity): (r: seq<Activity>)
    ensures |r| == |acts|
    ensures forall i :: 0 <= i < |acts| ==> r[i] == if acts[i].id == id then a else acts[i]
  {
    seq(|acts|, i requires 0 <= i < |acts| => if acts[i].id == id then a else acts[i])
  }

  /** `acts.filter(activity => activity.id !== id)`. */
  function RemoveActivity(acts: seq<Activity>, id: string): (r: seq<Activity>)
    ensures forall i :: 0 <= i < |r| ==> r[i] in acts && r[i].id != id
    ensures forall i :: 0 <= i < |acts| && acts[i].id != id ==> acts[i] in r
  {
    Seqs.Filter(acts, (a: Activity) => a.id != id)
  }

  /** The trip after the add/edit handler ran on bucket `day`. */
  function AddOrEdit(t: Trip, day: int, draft: ActivityDraft, editing: Option<string>, newId: string): (r: Trip)
    ensures r.(activities := t.activities) == t
    ensures r.activities.Keys == t.activities.Keys + {day}
    ensures forall d :: d in t.activities && d != day ==> r.activities[d] == t.activities[d]
    ensures |r.activities[day]| == |Bucket(t, day)| + (if Truthy(editing) then 0 else 1)
  {
    var bucket := Bucket(t, day);
    var updated := if Truthy(editing) then ReplaceActivity(bucket, editing.value, draft.WithId(editing.value))
                   else bucket + [draft.WithId(newId)];
    t.(activities := t.activities[day := updated])
  }

  /** The trip after the delete handler ran on bucket `day`: an absent bucket stays absent. */
  function DeleteIn(t: Trip, day: int, id: string): (r: Trip)
    ensures r.(activities := t.activities) == t
    ensures r.activities.Keys == t.activities.Keys
    ensures forall d :: d in t.activities && d != day ==> r.activities[d] == t.activities[d]
    ensures day in t.activities ==> |r.activities[day]| <= |t.activities[day]|
  {
    if day in t.activities then t.(activities := t.activities[day := RemoveActivity(t.activities[day], id)])
    else t
  }

  /** `trips.map(...)`: add or edit in every trip whose id is `tripId`. */
  function MapAddOrEdit(trips: seq<Trip>, tripId: string, day: int, draft: ActivityDraft,
                        editing: Option<string>, newId: string): (r: seq<Trip>)
    ensures |r| == |trips|
    ensures forall i :: 0 <= i < |trips| ==>
      r[i] == if trips[i].id == tripId then AddOrEdit(trips[i], day, draft, editing, newId) else trips[i]
  {
    seq(|trips|, i requires 0 <= i < |trips| =>
      if trips[i].id == tripId then AddOrEdit(trips[i], day, draft, editing, newId) else trips[i])
  }

  function MapDeleteIn(trips: seq<Trip>, tripId: string, day: int, id: string): (r: seq<Trip>)
    ensures |r| == |trips|
    ensures forall i :: 0 <= i < |trips| ==>
      r[i] == if trips[i].id == tripId then DeleteIn(trips[i], day, id) else trips[i]
  {
    seq(|trips|, i requires 0 <= i < |trips| => if trips[i].id == tripId then DeleteIn(trips[i], day, id) else trips[i])
  }

  /** `trips.filter(trip => trip.id !== tripId)`. */
  function RemoveTrip(trips: seq<Trip>, tripId: string): (r: seq<Trip>)
    ensures forall i :: 0 <= i < |r| ==> r[i] in trips && r[i].id != tripId
    ensures forall i :: 0 <= i < |trips| && trips[i].id != tripId ==> trips[i] in r
  {
    Seqs.Filter(trips, (t: Trip) => t.id != tripId)
  }

  /** Adding puts the new activity at the end of the day's bucket; other buckets and fields are untouched. */
  lemma AddAppends(t: Trip, day: int, draft: ActivityDraft, editing: Option<string>, newId: string)
    requires !Truthy(editing)
    ensures var u := AddOrEdit(t, day, draft, editing, newId);
      && u.activities[day] == Bucket(t, day) + [draft.WithId(newId)]
      && u.activities.Keys == t.activities.Keys + {day}
      && (forall d :: d in t.activities && d != day ==> u.activities[d] == t.activities[d])
      && u.(activities := t.activities) == t
  {
  }

  /** Editing replaces only the matching activities, under the same id; it never changes the bucket's length. */
  lemma EditReplaces(t: Trip, day: int, draft: ActivityDraft, editing: Option<string>, newId: string)
    requires Truthy(editing)
    ensures var u := AddOrEdit(t, day, draft, editing, newId);
      var old_ := Bucket(t, day);
      && day in u.activities && |u.activities[day]| == |old_|
      && (forall i :: 0 <= i < |old_| && old_[i].id == editing.value ==>
            u.activities[day][i] == draft.WithId(editing.value))
      && (forall i :: 0 <= i < |old_| && old_[i].id != editing.value ==> u.activities[day][i] == old_[i])
      && (forall d :: d in t.activities && d != day ==> u.activities[d] == t.activities[d])
  {
  }

  /** Editing an id the bucket does not hold leaves its list as it was, but a missing bucket now exists, empty. */
  lemma EditAbsentId(t: Trip, day: int, draft: ActivityDraft, editing: Option<string>, newId: string)
    requires Truthy(editing)
    requires forall i :: 0 <= i < |Bucket(t, day)| ==> Bucket(t, day)[i].id != editing.value
    ensures var u := AddOrEdit(t, day, draft, editing, newId);
      && u.activities[day] == Bucket(t, day)
      && (day !in t.activities ==> u.activities[day] == [])
  {
  }

  /** Deleting touches only bucket `day` of the trip, and nothing when that bucket does not exist. */
  lemma DeleteOnlyInBucket(t: Trip, day: int, id: string)
    ensures var u := DeleteIn(t, day, id);
      && u.activities.Keys == t.activities.Keys
      && (forall d :: d in t.activities && d != day ==> u.activities[d] == t.activities[d])
      && (day in t.activities ==> u.activities[day] == RemoveActivity(t.activities[day], id))
      && (day !in t.activities ==> u == t)
  {
  }

  /** Deleting an id is idempotent, and deleting an id no activity has changes nothing. */
  lemma {:induction false} DeleteIdempotent(acts: seq<Activity>, id: string)
    ensures RemoveActivity(RemoveActivity(acts, id), id) == RemoveActivity(acts, id)
    ensures (forall i :: 0 <= i < |acts| ==> acts[i].id != id) ==> RemoveActivity(acts, id) == acts
  {
    Seqs.FilterIdempotent(acts, (a: Activity) => a.id != id);
    if forall i :: 0 <= i < |acts| ==> acts[i].id != id {
      Seqs.FilterKeepsAll(acts, (a: Activity) => a.id != id);
    }
  }

  /** Deleting an unknown trip id leaves the trip list as it was. */
  lemma {:induction false} RemoveUnknownTrip(trips: seq<Trip>, tripId: string)
    requires forall i :: 0 <= i < |trips| ==> trips[i].id != tripId
    ensures RemoveTrip(trips, tripId) == trips
  {
    Seqs.FilterKeepsAll(trips, (t: Trip) => t.id != tripId);
  }

  // ------------------------------------------------------------ trip days

  /** `getTripDaysArray`: the days start, start + 1, ..., end (none when end < start). */
  method TripDays(t: Trip) returns (days: seq<int>)
    ensures |days| == if t.endDate < t.startDate then 0 else t.endDate - t.startDate + 1
    ensures forall i :: 0 <= i < |days| ==> days[i] == t.startDate + i
  {
    days := [];
    var dayCount := t.endDate - t.startDate + 1;
    var i := 0;
    while i < dayCount
      invariant 0 <= i <= if dayCount < 0 then 0 else dayCount
      invariant |days| == i
      invariant forall k :: 0 <= k < i ==> days[k] == t.startDate + k
    {
      days := days + [t.startDate + i];
      i := i + 1;
    }
  }

  // ------------------------------------------------------------ countdown

  datatype Countdown = Completed | InProgress | StartsToday | DaysUntil(days: nat)

  /** `getCountdown`, with today as a parameter. */
  function GetCountdown(t: Trip, today: int): (r: Countdown)
    ensures r.DaysUntil? ==> r.days > 0
    ensures r == Completed ==> t.endDate < today
    ensures r == InProgress ==> t.startDate < today <= t.endDate
  {
    var daysUntilTrip := t.startDate - today;
    if daysUntilTrip < 0 then
      if t.endDate - today < 0 then Completed else InProgress
    else if daysUntilTrip == 0 then StartsToday
    else DaysUntil(daysUntilTrip)
  }

  /** The label the page shows: only the days-until label starts with a digit. */
  function CountdownText(c: Countdown): (r: string)
    ensures |r| > 0 && (IsDigit(r[0]) <==> c.DaysUntil?)
  {
    match c
    case Completed => "Trip completed"
    case InProgress => "Trip in progress"
    case StartsToday => "Trip starts today"
    case DaysUntil(n) => NatToString(n) + " days until trip"
  }

  /** Each label is given for exactly its range of days. */
  lemma CountdownClassification(t: Trip, today: int)
    ensures GetCountdown(t, today) == Completed <==> t.startDate < today && t.endDate < today
    ensures GetCountdown(t, today) == InProgress <==> t.startDate < today <= t.endDate
    ensures GetCountdown(t, today) == StartsToday <==> t.startDate == today
    ensures GetCountdown(t, today).DaysUntil? <==> t.startDate > today
    ensures GetCountdown(t, today).DaysUntil? ==> GetCountdown(t, today).days == t.startDate - today
  {
  }

  /** The label shown for a trip: each fixed label for exactly its range of days, else the day count. */
  lemma CountdownLabels(t: Trip, today: int)
    ensures CountdownText(GetCountdown(t, today)) == "Trip completed" <==> t.startDate < today && t.endDate < today
    ensures CountdownText(GetCountdown(t, today)) == "Trip in progress" <==> t.startDate < today <= t.endDate
    ensures CountdownText(GetCountdown(t, today)) == "Trip starts today" <==> t.startDate == today
    ensures t.startDate > today ==> CountdownText(GetCountdown(t, today)) == NatToString(t.startDate - today) + " days until trip"
  {
    var r := CountdownText(GetCountdown(t, today));
    assert IsDigit(r[0]) <==> t.startDate > today;
  }

  /** Different countdowns show different labels, so the label gives back the day count. */
  lemma CountdownTextInjective(a: Countdown, b: Countdown)
    requires CountdownText(a) == CountdownText(b)
    ensures a == b
  {
    if a.DaysUntil? && b.DaysUntil? {
      var x, y := NatToString(a.days), NatToString(b.days);
      assert x == (x + " days until trip")[..|x|];
      assert y == (y + " days until trip")[..|y|];
      assert x == y;
      DigitsValueOfNatToString(a.days);
      DigitsValueOfNatToString(b.days);
    }
  }

  // ------------------------------------------------------------ time display

  /** `Number(s)` on one `split(':')` field: digits (or "") give a value, anything else NaN. */
  datatype Num = Int(n: nat) | NaN

  function ToNumber(s: string): Num
  {
    if IsDigits(s) then Int(DigitsValue(s)) else NaN
  }

  /** Position of the first ':' of `s`, if any. */
  function IndexOfColon(s: string): (r: Option<nat>)
    ensures r.Some? ==> r.value < |s| && s[r.value] == ':' && forall k :: 0 <= k < r.value ==> s[k] != ':'
    ensures r.None? ==> forall k :: 0 <= k < |s| ==> s[k] != ':'
  {
    if s == [] then None
    else if s[0] == ':' then Some(0)
    else match IndexOfColon(s[1..]) case None => None case Some(k) => Some(k + 1)
  }

  /** `activityTimeDisplay`. Without a ':' the minutes field is undefined, `toString` throws and the input comes back. */
  function TimeDisplay(time: string): (r: string)
    ensures IndexOfColon(time).None? ==> r == time
    ensures IndexOfColon(time).Some? ==> |r| >= 3 && (r[|r| - 3..] == " AM" || r[|r| - 3..] == " PM")
  {
    match IndexOfColon(time)
    case None => time
    case Some(c) =>
      var rest := time[c + 1..];
      var minutesField := match IndexOfColon(rest) case None => rest case Some(d) => rest[..d];
      var hours := ToNumber(time[..c]);
      var minutes := ToNumber(minutesField);
      var ampm := if hours.Int? && hours.n >= 12 then "PM" else "AM";
      var displayHours := if hours.Int? && hours.n % 12 != 0 then NatToString(hours.n % 12) else "12";
      var minutesText := if minutes.Int? then PadStart2(NatToString(minutes.n)) else "NaN";
      displayHours + ":" + minutesText + " " + ampm
  }

  /** A time as the time input gives it: two digits, ':', two digits. */
  predicate IsHHMM(time: string)
  {
    |time| == 5 && time[2] == ':' && IsDigit(time[0]) && IsDigit(time[1]) && IsDigit(time[3]) && IsDigit(time[4])
  }

  function HourOf(time: string): nat requires IsHHMM(time) { (time[0] as int - '0' as int) * 10 + (time[1] as int - '0' as int) }
  function MinuteOf(time: string): nat requires IsHHMM(time) { (time[3] as int - '0' as int) * 10 + (time[4] as int - '0' as int) }

  lemma DigitsValuePair(a: char, b: char)
    requires IsDigit(a) && IsDigit(b)
    ensures DigitsValue([a, b]) == (a as int - '0' as int) * 10 + (b as int - '0' as int)
  {
    assert [a, b][..1] == [a];
    assert [a][..0] == [];
    assert DigitsValue([a]) == a as int - '0' as int;
  }

  lemma DigitCharOf(c: char)
    requires IsDigit(c)
    ensures DigitChar(c as int - '0' as int) == c
  {
  }

  /** `n.toString().padStart(2, '0')` for n < 100 is the two decimal digits of n. */
  lemma {:induction false} TwoDigits(n: nat)
    requires n < 100
    ensures PadStart2(NatToString(n)) == [DigitChar(n / 10), DigitChar(n % 10)]
  {
    if n >= 10 {
      assert NatToString(n / 10) == [DigitChar(n / 10)];
    }
  }

  /** In "HH:MM" the first ':' is at 2 and the minutes field has none. */
  lemma ColonsOfHHMM(time: string)
    requires IsHHMM(time)
    ensures IndexOfColon(time) == Some(2)
    ensures IndexOfColon(time[3..]) == None
  {
    assert time[0] != ':' && time[1] != ':';
    var rest := time[3..];
    assert rest[0] != ':' && rest[1] != ':';
  }

  /** The hour field of "HH:MM" reads as the hour. */
  lemma HourFieldOfHHMM(time: string)
    requires IsHHMM(time)
    ensures ToNumber(time[..2]) == Int(HourOf(time))
  {
    assert time[..2] == [time[0], time[1]];
    DigitsValuePair(time[0], time[1]);
  }

  /** The minute field of "HH:MM" reads as the minute, and pads back to the same two digits. */
  lemma MinuteFieldOfHHMM(time: string)
    requires IsHHMM(time)
    ensures ToNumber(time[3..]) == Int(MinuteOf(time))
    ensures PadStart2(NatToString(MinuteOf(time))) == [time[3], time[4]]
  {
    assert time[3..] == [time[3], time[4]];
    DigitsValuePair(time[3], time[4]);
    var d3, d4 := time[3] as int - '0' as int, time[4] as int - '0' as int;
    var m := MinuteOf(time);
    assert m == d3 * 10 + d4;
    assert m / 10 == d3 && m % 10 == d4;
    TwoDigits(m);
    DigitCharOf(time[3]);
    DigitCharOf(time[4]);
  }

  /** For "HH:MM" the display is h mod 12 (12 for 0), ':', the two minute digits, then AM iff h < 12. */
  lemma TimeDisplayHHMM(time: string)
    requires IsHHMM(time)
    ensures var h := HourOf(time);
      TimeDisplay(time) == NatToString(if h % 12 == 0 then 12 else h % 12) + ":"
                           + [time[3], time[4]] + " " + (if h < 12 then "AM" else "PM")
  {
    ColonsOfHHMM(time);
    HourFieldOfHHMM(time);
    MinuteFieldOfHHMM(time);
    assert NatToString(12) == "12" by {
      assert NatToString(1) == "1";
    }
  }

  // ------------------------------------------------------------ emoji

  datatype ActivityType = ActivityType(value: string, caption: string, emoji: string)

  /** The table and fallback the page means: 🏛️, 🍽️, 🚌, 🏨 and 📌. */
  const Pin: string := "\U{1F4CC}"

  const ActivityTypes: seq<ActivityType> := [
    ActivityType("attraction", "Attraction", "\U{1F3DB}\U{FE0F}"),
    ActivityType("food", "Food & Drinks", "\U{1F37D}\U{FE0F}"),
    ActivityType("transport", "Transport", "\U{1F68C}"),
    ActivityType("accommodation", "Accommodation", "\U{1F3E8}"),
    ActivityType("other", "Other", Pin)
  ]

  /**
   * The table and fallback as the file spells them: each emoji's UTF-8 bytes were decoded as
   * Mac OS Roman, so every literal starts with U+F8FF (the byte F0) followed by U+00FC (9F).
   */
  const PinAsWritten: string := "\U{F8FF}\U{FC}\U{EC}\U{E5}"

  const ActivityTypesAsWritten: seq<ActivityType> := [
    ActivityType("attraction", "Attraction", "\U{F8FF}\U{FC}\U{E8}\U{F5}\U{D4}\U{220F}\U{E8}"),
    ActivityType("food", "Food & Drinks", "\U{F8FF}\U{FC}\U{E7}\U{3A9}\U{D4}\U{220F}\U{E8}"),
    ActivityType("transport", "Transport", "\U{F8FF}\U{FC}\U{F6}\U{E5}"),
    ActivityType("accommodation", "Accommodation", "\U{F8FF}\U{FC}\U{E8}\U{AE}"),
    ActivityType("other", "Other", PinAsWritten)
  ]

  /** `types.find(t => t.value === kind)?.emoji || fallback`. */
  function EmojiFrom(types: seq<ActivityType>, fallback: string, kind: string): (r: string)
    ensures (exists i :: 0 <= i < |types| && types[i].value == kind && r == types[i].emoji) || r == fallback
    ensures (forall i :: 0 <= i < |types| ==> types[i].value != kind) ==> r == fallback
    ensures forall i :: 0 <= i < |types| && types[i].value == kind && (forall j :: 0 <= j < i ==> types[j].value != kind) ==>
      r == if types[i].emoji != "" then types[i].emoji else fallback
  {
    if types == [] then fallback
    else if types[0].value == kind then (if types[0].emoji != "" then types[0].emoji else fallback)
    else
      var r := EmojiFrom(types[1..], fallback, kind);
      assert forall i :: 1 <= i < |types| && types[i].value == kind ==> types[1..][i - 1] == types[i];
      r
  }

  /** `getActivityEmoji` as the page means it. */
  function ActivityEmoji(kind: string): (r: string)
    ensures r == Pin || exists i :: 0 <= i < |ActivityTypes| && ActivityTypes[i].value == kind && r == ActivityTypes[i].emoji
  {
    EmojiFrom(ActivityTypes, Pin, kind)
  }

  /** `getActivityEmoji` as written. */
  function ActivityEmojiAsWritten(kind: string): (r: string)
    ensures r == PinAsWritten
            || exists i :: 0 <= i < |ActivityTypesAsWritten| && ActivityTypesAsWritten[i].value == kind
                           && r == ActivityTypesAsWritten[i].emoji
  {
    EmojiFrom(ActivityTypesAsWritten, PinAsWritten, kind)
  }

  /** As written, every type, known or not, shows a string beginning with the private-use character U+F8FF. */
  lemma MisEncodedEmoji(kind: string)
    ensures |ActivityEmojiAsWritten(kind)| > 0 && ActivityEmojiAsWritten(kind)[0] == '\U{F8FF}'
    ensures ActivityEmojiAsWritten(kind) != ActivityEmoji(kind)
  {
    var t := ActivityTypesAsWritten;
    forall i | 0 <= i < |t| ensures |t[i].emoji| > 0 && t[i].emoji[0] == '\U{F8FF}' {
      assert i == 0 || i == 1 || i == 2 || i == 3 || i == 4;
    }
    var u := ActivityTypes;
    forall i | 0 <= i < |u| ensures |u[i].emoji| > 0 && u[i].emoji[0] != '\U{F8FF}' {
      assert i == 0 || i == 1 || i == 2 || i == 3 || i == 4;
    }
  }

  /** Each listed type gets its own emoji. */
  lemma ActivityEmojiTable()
    ensures ActivityEmoji("attraction") == "\U{1F3DB}\U{FE0F}"
    ensures ActivityEmoji("food") == "\U{1F37D}\U{FE0F}"
    ensures ActivityEmoji("transport") == "\U{1F68C}"
    ensures ActivityEmoji("accommodation") == "\U{1F3E8}"
    ensures ActivityEmoji("other") == Pin
  {
    var t := ActivityTypes;
    assert t[0].value != "food" && t[1..][0].value == "food";
    assert t[0].value != "transport" && t[1].value != "transport" && t[2..][0].value == "transport";
    assert t[0].value != "accommodation" && t[1].value != "accommodation" && t[2].value != "accommodation"
        && t[3..][0].value == "accommodation";
    assert t[1..][1..] == t[2..] && t[2..][1..] == t[3..] && t[3..][1..] == t[4..];
    assert t[4..][0].value == "other";
    assert EmojiFrom(t, Pin, "food") == EmojiFrom(t[1..], Pin, "food");
    assert EmojiFrom(t, Pin, "transport") == EmojiFrom(t[1..], Pin, "transport") == EmojiFrom(t[2..], Pin, "transport");
    assert EmojiFrom(t, Pin, "accommodation") == EmojiFrom(t[1..], Pin, "accommodation") == EmojiFrom(t[2..], Pin, "accommodation")
        == EmojiFrom(t[3..], Pin, "accommodation");
    assert EmojiFrom(t, Pin, "other") == EmojiFrom(t[1..], Pin, "other") == EmojiFrom(t[2..], Pin, "other")
        == EmojiFrom(t[3..], Pin, "other") == EmojiFrom(t[4..], Pin, "other");
  }

  /** A type outside the table falls back to the pin. */
  lemma ActivityEmojiDefault(kind: string)
    requires kind != "attraction" && kind != "food" && kind != "transport" && kind != "accommodation" && kind != "other"
    ensures ActivityEmoji(kind) == Pin
  {
    assert forall i :: 0 <= i < |ActivityTypes| ==> ActivityTypes[i].value != kind by {
      forall i | 0 <= i < |ActivityTypes| ensures ActivityTypes[i].value != kind {
        assert i == 0 || i == 1 || i == 2 || i == 3 || i == 4;
      }
    }
  }

  // ------------------------------------------------------------ day ordering

  /** Every activity is no later than every activity after it. */
  predicate SortedByTime(s: seq<Activity>)
  {
    forall i, j :: 0 <= i < j < |s| ==> NotAfter(s[i].time, s[j].time)
  }

  predicate AdjacentSorted(s: seq<Activity>)
  {
    forall i :: 0 < i < |s| ==> NotAfter(s[i - 1].time, s[i].time)
  }

  lemma NotAfterTransitive(a: string, b: string, c: string)
    requires NotAfter(a, b) && NotAfter(b, c)
    ensures NotAfter(a, c)
  {
    if a != b && b != c {
      BeforeTotal(a, b);
      BeforeTotal(b, c);
      BeforeTransitive(a, b, c);
      BeforeAsymmetric(a, c);
    }
  }

  /** Sorted neighbours make a sorted sequence. */
  lemma {:induction false} AdjacentSortedIsSorted(s: seq<Activity>)
    requires AdjacentSorted(s)
    ensures SortedByTime(s)
  {
    if |s| > 1 {
      var t := s[..|s| - 1];
      assert AdjacentSorted(t);
      AdjacentSortedIsSorted(t);
      forall i | 0 <= i < |s| - 1
        ensures NotAfter(s[i].time, s[|s| - 1].time)
      {
        if i < |s| - 2 {
          assert NotAfter(t[i].time, t[|s| - 2].time);
          NotAfterTransitive(s[i].time, s[|s| - 2].time, s[|s| - 1].time);
        }
      }
    }
  }

  /** The in-place `.sort((a, b) => a.time.localeCompare(b.time))` of a day's activity array. */
  method SortByTime(a: array<Activity>)
    modifies a
    ensures SortedByTime(a[..])
    ensures multiset(a[..]) == multiset(old(a[..]))
  {
    var i := 1;
    while i < a.Length
      invariant a.Length == 0 || 1 <= i <= a.Length
      invariant forall k :: 0 < k < i && k < a.Length ==> NotAfter(a[k - 1].time, a[k].time)
      invariant multiset(a[..]) == multiset(old(a[..]))
    {
      InsertLast(a, i);
      i := i + 1;
    }
    AdjacentSortedIsSorted(a[..]);
  }

  /** The state of one insertion step: the prefix `s[..i + 1]` is sorted except around the moving element at `j`. */
  predicate Inserting(s: seq<Activity>, i: nat, j: nat)
  {
    && j <= i < |s|
    && (forall k :: 0 < k <= i && k != j && k - 1 != j ==> NotAfter(s[k - 1].time, s[k].time))
    && (0 < j < i ==> NotAfter(s[j - 1].time, s[j + 1].time))
    && (j < i ==> NotAfter(s[j].time, s[j + 1].time))
  }

  /** Swapping the moving element with a later-timed left neighbour keeps the step's invariant. */
  lemma SwapKeepsInserting(s: seq<Activity>, i: nat, j: nat)
    requires Inserting(s, i, j) && 0 < j && Before(s[j].time, s[j - 1].time)
    ensures Inserting(s[j - 1 := s[j]][j := s[j - 1]], i, j - 1)
  {
    BeforeAsymmetric(s[j].time, s[j - 1].time);
  }

  /** Swapping two neighbours permutes the sequence. */
  lemma SwapPermutes(s: seq<Activity>, j: nat)
    requires 0 < j < |s|
    ensures multiset(s[j - 1 := s[j]][j := s[j - 1]]) == multiset(s)
  {
  }

  /** When the moving element stops, the whole prefix is sorted. */
  lemma StopSorted(s: seq<Activity>, i: nat, j: nat)
    requires Inserting(s, i, j) && (j == 0 || !Before(s[j].time, s[j - 1].time))
    ensures forall k :: 0 < k <= i ==> NotAfter(s[k - 1].time, s[k].time)
  {
  }

  /** Exchanges `a[j - 1]` and `a[j]`. */
  method SwapNeighbours(a: array<Activity>, j: nat)
    requires 0 < j < a.Length
    modifies a
    ensures a[..] == old(a[..])[j - 1 := old(a[j])][j := old(a[j - 1])]
  {
    a[j - 1], a[j] := a[j], a[j - 1];
  }

  /** One insertion step: `a[i]` moves left past every later-timed neighbour. */
  method InsertLast(a: array<Activity>, i: nat)
    requires 0 < i < a.Length
    requires forall k :: 0 < k < i ==> NotAfter(a[k - 1].time, a[k].time)
    modifies a
    ensures forall k :: 0 < k <= i ==> NotAfter(a[k - 1].time, a[k].time)
    ensures multiset(a[..]) == multiset(old(a[..]))
  {
    var j := i;
    assert Inserting(a[..], i, j);
    while j > 0 && Before(a[j].time, a[j - 1].time)
      invariant Inserting(a[..], i, j)
      invariant multiset(a[..]) == multiset(old(a[..]))
    {
      SwapKeepsInserting(a[..], i, j);
      SwapPermutes(a[..], j);
      SwapNeighbours(a, j);
      j := j - 1;
    }
    StopSorted(a[..], i, j);
  }
}
