/**
 * The `Planner` page of `src/pages/Planner.tsx`: its state values, its handlers, and the
 * day view of the selected trip and date.
 */
module Planner {
  import opened Wrappers
  import opened PlannerModel
  import Seqs

  /** The new-trip form: shown flag, title, location and the picked date range. */
  datatype TripForm = TripForm(shown: bool, title: string, location: string, from: Option<int>, to: Option<int>)

  /** The activity form: shown flag, the draft, and the id being edited (null when adding). */
  datatype ActivityForm = ActivityForm(shown: bool, draft: ActivityDraft, editing: Option<string>)

  /** Every state value of the page. */
  datatype PlannerState = PlannerState(trips: seq<Trip>, selectedTripId: Option<string>, selectedDate: Option<int>,
                                       tripForm: TripForm, activityForm: ActivityForm)

  const EmptyTripForm := TripForm(false, "", "", None, None)

  /** `trips[0]?.id || null`: an empty id is falsy, so it selects nothing. */
  function FirstId(trips: seq<Trip>): (r: Option<string>)
    ensures r.Some? <==> |trips| > 0 && trips[0].id != ""
    ensures r.Some? ==> r.value == trips[0].id
  {
    if |trips| > 0 && trips[0].id != "" then Some(trips[0].id) else None
  }

  /** `trips[0]?.startDate || null`: a `Date` is always truthy. */
  function FirstStart(trips: seq<Trip>): (r: Option<int>)
    ensures r.Some? <==> |trips| > 0
    ensures r.Some? ==> r.value == trips[0].startDate
  {
    if |trips| > 0 then Some(trips[0].startDate) else None
  }

  /** The first render. */
  function Initial(trips: seq<Trip>): PlannerState
  {
    PlannerState(trips, FirstId(trips), FirstStart(trips), EmptyTripForm, ActivityForm(false, EmptyDraft, None))
  }

  /** `selectedTrip`. */
  function SelectedTrip(s: PlannerState): Option<Trip>
  {
    FindTrip(s.trips, s.selectedTripId)
  }

  /** `activitiesForSelectedDate`, before sorting. */
  function DayActivities(s: PlannerState): seq<Activity>
  {
    match SelectedTrip(s)
    case None => []
    case Some(t) => if s.selectedDate.Some? then Bucket(t, s.selectedDate.value) else []
  }

  /** The selected trip is a trip with the selected id; there is none iff nothing is selected or no trip has it. */
  lemma SelectedTripSpec(s: PlannerState)
    ensures SelectedTrip(s).Some? ==> s.selectedTripId.Some? && SelectedTrip(s).value.id == s.selectedTripId.value && SelectedTrip(s).value in s.trips
    ensures SelectedTrip(s).None? <==> s.selectedTripId.None? || forall i :: 0 <= i < |s.trips| ==> s.trips[i].id != s.selectedTripId.value
  {
  }

  /** The day view is the selected date's bucket of the selected trip, and empty when any of the three is missing. */
  lemma DayActivitiesSpec(s: PlannerState)
    ensures SelectedTrip(s).None? || s.selectedDate.None? ==> DayActivities(s) == []
    ensures SelectedTrip(s).Some? && s.selectedDate.Some? ==>
      DayActivities(s) == if s.selectedDate.value in SelectedTrip(s).value.activities then SelectedTrip(s).value.activities[s.selectedDate.value] else []
  {
  }

  // ------------------------------------------------------------ trips

  /** The guard of `handleAddTrip`: title, both dates and location present (start <= end is not checked). */
  predicate TripFormComplete(f: TripForm)
  {
    f.title != "" && f.from.Some? && f.to.Some? && f.location != ""
  }

  /** `handleAddTrip`: an incomplete form changes nothing; otherwise one new, empty trip is appended and selected. */
  function AfterAddTrip(s: PlannerState, freshId: string): (r: PlannerState)
    ensures !TripFormComplete(s.tripForm) ==> r == s
    ensures TripFormComplete(s.tripForm) ==>
      && |r.trips| == |s.trips| + 1 && r.trips[..|s.trips|] == s.trips
      && r.trips[|s.trips|].id == freshId && r.trips[|s.trips|].activities == map[]
      && r.selectedTripId == Some(freshId) && r.selectedDate == s.tripForm.from
      && r.tripForm == EmptyTripForm && r.activityForm == s.activityForm
  {
    var f := s.tripForm;
    if !TripFormComplete(f) then s
    else
      var trip := Trip(freshId, f.title, f.from.value, f.to.value, f.location, map[]);
      s.(trips := s.trips + [trip], selectedTripId := Some(freshId), selectedDate := Some(trip.startDate),
         tripForm := EmptyTripForm)
  }

  /** `handleDeleteTrip`: without confirmation nothing changes; the selection moves only when it was the deleted trip. */
  function AfterDeleteTrip(s: PlannerState, tripId: string, confirmed: bool): (r: PlannerState)
    ensures !confirmed ==> r == s
    ensures confirmed ==> r.trips == RemoveTrip(s.trips, tripId) && r.tripForm == s.tripForm
                          && r.activityForm == s.activityForm
    ensures confirmed && s.selectedTripId != Some(tripId) ==>
      r.selectedTripId == s.selectedTripId && r.selectedDate == s.selectedDate
    ensures confirmed && s.selectedTripId == Some(tripId) ==> r.selectedTripId != Some(tripId)
  {
    if !confirmed then s
    else
      var updated := RemoveTrip(s.trips, tripId);
      if s.selectedTripId == Some(tripId) then
        s.(trips := updated, selectedTripId := FirstId(updated), selectedDate := FirstStart(updated))
      else s.(trips := updated)
  }

  /** Clicking a trip card. */
  function AfterSelectTrip(s: PlannerState, t: Trip): PlannerState
  {
    s.(selectedTripId := Some(t.id), selectedDate := Some(t.startDate))
  }

  // ------------------------------------------------------------ activities

  /** The guard of `handleAddActivity`: title and time present, a trip and a date selected. */
  predicate ActivityFormComplete(s: PlannerState)
  {
    s.activityForm.draft.title != "" && s.activityForm.draft.time != "" && SelectedTrip(s).Some? && s.selectedDate.Some?
  }

  /** `handleAddActivity`: an incomplete form changes nothing; otherwise the selection stays and the form closes, cleared. */
  function AfterAddActivity(s: PlannerState, newId: string): (r: PlannerState)
    ensures !ActivityFormComplete(s) ==> r == s
    ensures ActivityFormComplete(s) ==>
      && |r.trips| == |s.trips| && r.selectedTripId == s.selectedTripId && r.selectedDate == s.selectedDate
      && r.tripForm == s.tripForm && r.activityForm == ActivityForm(false, EmptyDraft, None)
  {
    if !ActivityFormComplete(s) then s
    else
      var f := s.activityForm;
      s.(trips := MapAddOrEdit(s.trips, SelectedTrip(s).value.id, s.selectedDate.value, f.draft, f.editing, newId),
         activityForm := ActivityForm(false, EmptyDraft, None))
  }

  /** A complete form's add step, written out field by field. */
  lemma AddActivityUnfold(s: PlannerState, newId: string)
    requires ActivityFormComplete(s)
    ensures AfterAddActivity(s, newId) ==
      s.(trips := MapAddOrEdit(s.trips, SelectedTrip(s).value.id, s.selectedDate.value, s.activityForm.draft, s.activityForm.editing, newId),
         activityForm := ActivityForm(false, EmptyDraft, None))
  {
  }

  /** `handleEditActivity`: the form opens on a copy of the activity, remembering its id. */
  function AfterEditActivity(s: PlannerState, a: Activity): PlannerState
  {
    s.(activityForm := ActivityForm(true, ActivityDraft(a.title, a.description, a.time, a.location, a.kind), Some(a.id)))
  }

  /** The add button of the day card: toggles the form and, when opening it, clears it. */
  function AfterToggleActivityForm(s: PlannerState): PlannerState
  {
    if s.activityForm.shown then s.(activityForm := s.activityForm.(shown := false))
    else s.(activityForm := ActivityForm(true, EmptyDraft, None))
  }

  /** The "Plan Activity" button of an empty day, as written: it only shows the form, keeping the old draft and editing id. */
  function AfterPlanActivityAsWritten(s: PlannerState): (r: PlannerState)
    ensures r.activityForm.shown
    ensures r.activityForm.draft == s.activityForm.draft && r.activityForm.editing == s.activityForm.editing
    ensures r.(activityForm := s.activityForm) == s
  {
    s.(activityForm := s.activityForm.(shown := true))
  }

  /** The "Plan Activity" button as the add toggle behaves: the form opens empty in add mode. */
  function AfterPlanActivity(s: PlannerState): (r: PlannerState)
    ensures r.activityForm.shown && r.activityForm.editing.None? && r.activityForm.draft == EmptyDraft
    ensures r.(activityForm := s.activityForm) == s
  {
    s.(activityForm := ActivityForm(true, EmptyDraft, None))
  }

  /** The draft typed into the open form; the input handlers are not modelled one by one. */
  function WithDraft(s: PlannerState, draft: ActivityDraft): PlannerState
  {
    s.(activityForm := s.activityForm.(draft := draft))
  }

  /** `handleDeleteActivity`: only the trips change, and nothing at all without a selected trip and date. */
  function AfterDeleteActivity(s: PlannerState, activityId: string): (r: PlannerState)
    ensures SelectedTrip(s).None? || s.selectedDate.None? ==> r == s
    ensures r == s.(trips := r.trips) && |r.trips| == |s.trips|
  {
    if SelectedTrip(s).None? || s.selectedDate.None? then s
    else s.(trips := MapDeleteIn(s.trips, SelectedTrip(s).value.id, s.selectedDate.value, activityId))
  }

  // ------------------------------------------------------------ properties

  /** The first render selects the first trip (unless its id is empty) and its start date. */
  lemma InitialSelection(trips: seq<Trip>)
    requires |trips| > 0 && trips[0].id != ""
    ensures SelectedTrip(Initial(trips)) == Some(trips[0])
    ensures DayActivities(Initial(trips)) == Bucket(trips[0], trips[0].startDate)
  {
  }

  lemma AddTripRejected(s: PlannerState, freshId: string)
    requires !TripFormComplete(s.tripForm)
    ensures AfterAddTrip(s, freshId) == s
  {
  }

  /** A complete form appends one trip with no activities, selects it and its start date, and clears the form. */
  lemma AddTripAppends(s: PlannerState, freshId: string)
    requires TripFormComplete(s.tripForm)
    requires forall i :: 0 <= i < |s.trips| ==> s.trips[i].id != freshId
    ensures var f := s.tripForm; var t := AfterAddTrip(s, freshId);
      && t.trips == s.trips + [Trip(freshId, f.title, f.from.value, f.to.value, f.location, map[])]
      && SelectedTrip(t) == Some(t.trips[|s.trips|])
      && t.selectedDate == f.from
      && DayActivities(t) == []
      && t.tripForm == EmptyTripForm && t.activityForm == s.activityForm
  {
    var t := AfterAddTrip(s, freshId);
    FindTripAppend(s.trips, t.trips[|s.trips|]);
  }

  lemma {:induction false} FindTripAppend(trips: seq<Trip>, t: Trip)
    requires forall i :: 0 <= i < |trips| ==> trips[i].id != t.id
    ensures FindTrip(trips + [t], Some(t.id)) == Some(t)
  {
    if trips != [] {
      assert (trips + [t])[1..] == trips[1..] + [t];
      FindTripAppend(trips[1..], t);
    }
  }

  /** A trip whose end precedes its start is accepted as picked (`TripDays` then lists no days for it). */
  lemma ReversedDatesAccepted(s: PlannerState, freshId: string)
    requires TripFormComplete(s.tripForm) && s.tripForm.to.value < s.tripForm.from.value
    ensures var t := AfterAddTrip(s, freshId);
      |t.trips| == |s.trips| + 1 && t.trips[|s.trips|].endDate < t.trips[|s.trips|].startDate
  {
  }

  /** Deleting keeps only the trips with other ids, in their order; a deleted selection falls back to the first trip. */
  lemma DeleteTripSelection(s: PlannerState, tripId: string)
    ensures var t := AfterDeleteTrip(s, tripId, true);
      && t.trips == RemoveTrip(s.trips, tripId)
      && (forall i :: 0 <= i < |t.trips| ==> t.trips[i].id != tripId)
      && (s.selectedTripId == Some(tripId) ==>
            t.selectedTripId == FirstId(t.trips) && t.selectedDate == FirstStart(t.trips))
      && (s.selectedTripId != Some(tripId) ==>
            t.selectedTripId == s.selectedTripId && t.selectedDate == s.selectedDate)
    ensures AfterDeleteTrip(s, tripId, false) == s
  {
  }

  /** Deleting the only trip leaves nothing selected. */
  lemma DeleteLastTrip(s: PlannerState)
    requires |s.trips| == 1 && s.selectedTripId == Some(s.trips[0].id)
    ensures var t := AfterDeleteTrip(s, s.trips[0].id, true);
      t.trips == [] && t.selectedTripId == None && t.selectedDate == None
  {
    Seqs.FilterDropsAll(s.trips, (t: Trip) => t.id != s.trips[0].id);
  }

  /** Trip removal keeps order: removing from a concatenation removes from each part. */
  lemma RemoveTripConcat(a: seq<Trip>, b: seq<Trip>, tripId: string)
    ensures RemoveTrip(a + b, tripId) == RemoveTrip(a, tripId) + RemoveTrip(b, tripId)
  {
    Seqs.FilterConcat(a, b, (t: Trip) => t.id != tripId);
  }

  lemma AddActivityRejected(s: PlannerState, newId: string)
    requires !ActivityFormComplete(s)
    ensures AfterAddActivity(s, newId) == s
  {
  }

  /** The first trip with an id is the image of the first original trip with that id. */
  lemma {:induction false} FindAfterAddOrEdit(trips: seq<Trip>, id: string, day: int, draft: ActivityDraft,
                                              editing: Option<string>, newId: string)
    requires FindTrip(trips, Some(id)).Some?
    ensures FindTrip(MapAddOrEdit(trips, id, day, draft, editing, newId), Some(id))
         == Some(AddOrEdit(FindTrip(trips, Some(id)).value, day, draft, editing, newId))
  {
    if trips[0].id != id {
      MapAddOrEditTail(trips, id, day, draft, editing, newId);
      FindAfterAddOrEdit(trips[1..], id, day, draft, editing, newId);
    }
  }

  lemma MapAddOrEditTail(trips: seq<Trip>, id: string, day: int, draft: ActivityDraft,
                         editing: Option<string>, newId: string)
    requires trips != []
    ensures MapAddOrEdit(trips, id, day, draft, editing, newId)[1..] == MapAddOrEdit(trips[1..], id, day, draft, editing, newId)
  {
  }

  lemma {:induction false} FindAfterDeleteIn(trips: seq<Trip>, id: string, day: int, activityId: string)
    requires FindTrip(trips, Some(id)).Some?
    ensures FindTrip(MapDeleteIn(trips, id, day, activityId), Some(id))
         == Some(DeleteIn(FindTrip(trips, Some(id)).value, day, activityId))
  {
    if trips[0].id != id {
      MapDeleteInTail(trips, id, day, activityId);
      FindAfterDeleteIn(trips[1..], id, day, activityId);
    }
  }

  lemma MapDeleteInTail(trips: seq<Trip>, id: string, day: int, activityId: string)
    requires trips != []
    ensures MapDeleteIn(trips, id, day, activityId)[1..] == MapDeleteIn(trips[1..], id, day, activityId)
  {
  }

  /** Adding: the day view gains the new activity at its end; trips with other ids are untouched; the form resets. */
  lemma AddActivityAppends(s: PlannerState, newId: string)
    requires ActivityFormComplete(s) && !Truthy(s.activityForm.editing)
    ensures var t := AfterAddActivity(s, newId);
      && DayActivities(t) == DayActivities(s) + [s.activityForm.draft.WithId(newId)]
      && |t.trips| == |s.trips|
      && (forall i :: 0 <= i < |s.trips| && s.trips[i].id != SelectedTrip(s).value.id ==> t.trips[i] == s.trips[i])
      && t.selectedTripId == s.selectedTripId && t.selectedDate == s.selectedDate
      && t.activityForm == ActivityForm(false, EmptyDraft, None)
  {
    var f := s.activityForm;
    FindAfterAddOrEdit(s.trips, SelectedTrip(s).value.id, s.selectedDate.value, f.draft, f.editing, newId);
  }

  /** Editing: the day view has each activity with the edited id replaced by the draft under that id. */
  lemma EditActivityReplaces(s: PlannerState, newId: string)
    requires ActivityFormComplete(s) && Truthy(s.activityForm.editing)
    ensures var t := AfterAddActivity(s, newId); var id := s.activityForm.editing.value;
      && DayActivities(t) == ReplaceActivity(DayActivities(s), id, s.activityForm.draft.WithId(id))
      && (forall i :: 0 <= i < |s.trips| && s.trips[i].id != SelectedTrip(s).value.id ==> t.trips[i] == s.trips[i])
      && SelectedTrip(t).value.activities.Keys == SelectedTrip(s).value.activities.Keys + {s.selectedDate.value}
  {
    var f := s.activityForm;
    var tr, day := SelectedTrip(s).value, s.selectedDate.value;
    var t := AfterAddActivity(s, newId);
    FindAfterAddOrEdit(s.trips, tr.id, day, f.draft, f.editing, newId);
    var edited := AddOrEdit(tr, day, f.draft, f.editing, newId);
    assert SelectedTrip(t) == Some(edited);
    assert DayActivities(t) == edited.activities[day];
  }

  /** Opening an activity of the day for editing and saving it unchanged leaves the day as it was. */
  lemma EditSaveUnchanged(s: PlannerState, a: Activity, newId: string)
    requires a in DayActivities(s) && a.id != ""
    requires forall i :: 0 <= i < |DayActivities(s)| && DayActivities(s)[i].id == a.id ==> DayActivities(s)[i] == a
    ensures DayActivities(AfterAddActivity(AfterEditActivity(s, a), newId)) == DayActivities(s)
  {
    var e := AfterEditActivity(s, a);
    assert e.activityForm.draft.WithId(a.id) == a;
    if ActivityFormComplete(e) {
      EditActivityReplaces(e, newId);
    }
  }

  /** Deleting: the day view loses the activities with that id; everything else of the trip list stays. */
  lemma DeleteActivityRemoves(s: PlannerState, activityId: string)
    requires SelectedTrip(s).Some? && s.selectedDate.Some?
    ensures var t := AfterDeleteActivity(s, activityId);
      && DayActivities(t) == RemoveActivity(DayActivities(s), activityId)
      && |t.trips| == |s.trips|
      && (forall i :: 0 <= i < |s.trips| && s.trips[i].id != SelectedTrip(s).value.id ==> t.trips[i] == s.trips[i])
      && SelectedTrip(t).value.activities.Keys == SelectedTrip(s).value.activities.Keys
  {
    FindAfterDeleteIn(s.trips, SelectedTrip(s).value.id, s.selectedDate.value, activityId);
    var tr := SelectedTrip(s).value;
    var day := s.selectedDate.value;
    if day !in tr.activities {
      Seqs.FilterKeepsAll([], (x: Activity) => x.id != activityId);
    }
  }

  /** Without a selected trip or date, delete does nothing. */
  lemma DeleteActivityNoSelection(s: PlannerState, activityId: string)
    requires SelectedTrip(s).None? || s.selectedDate.None?
    ensures AfterDeleteActivity(s, activityId) == s
  {
  }

  /** Opening the activity form always starts from an empty draft in add mode. */
  lemma ToggleOpensEmpty(s: PlannerState)
    requires !s.activityForm.shown
    ensures AfterToggleActivityForm(s).activityForm == ActivityForm(true, EmptyDraft, None)
    ensures AfterToggleActivityForm(AfterToggleActivityForm(s)).activityForm.shown == false
  {
  }

  /** Editing an activity and closing the form with the toggle leaves its id behind in the closed form. */
  lemma ToggleCloseKeepsEditing(s: PlannerState, a: Activity)
    ensures var t := AfterToggleActivityForm(AfterEditActivity(s, a));
      !t.activityForm.shown && t.activityForm.editing == Some(a.id)
  {
  }

  /** As written, with an id left behind, a complete new activity planned on an empty day is dropped. */
  lemma PlanActivityDropsNew(s: PlannerState, draft: ActivityDraft, newId: string)
    requires SelectedTrip(s).Some? && s.selectedDate.Some? && DayActivities(s) == []
    requires Truthy(s.activityForm.editing)
    requires draft.title != "" && draft.time != ""
    ensures DayActivities(AfterAddActivity(WithDraft(AfterPlanActivityAsWritten(s), draft), newId)) == []
  {
    var typed := WithDraft(AfterPlanActivityAsWritten(s), draft);
    EditActivityReplaces(typed, newId);
  }

  /** With the corrected button, a complete new activity planned on a day is appended to it. */
  lemma PlanActivityAddsNew(s: PlannerState, draft: ActivityDraft, newId: string)
    requires SelectedTrip(s).Some? && s.selectedDate.Some?
    requires draft.title != "" && draft.time != ""
    ensures DayActivities(AfterAddActivity(WithDraft(AfterPlanActivity(s), draft), newId))
         == DayActivities(s) + [draft.WithId(newId)]
  {
    var typed := WithDraft(AfterPlanActivity(s), draft);
    AddActivityAppends(typed, newId);
  }

  // ------------------------------------------------------------ the page

  class PlannerPage {
    var trips: seq<Trip>
    var selectedTripId: Option<string>
    var selectedDate: Option<int>
    var showNewTripForm: bool
    var newTripTitle: string
    var newTripLocation: string
    var newTripFrom: Option<int>
    var newTripTo: Option<int>
    var showNewActivityForm: bool
    var newActivity: ActivityDraft
    var editingActivityId: Option<string>

    function State(): PlannerState
      reads this
    {
      PlannerState(trips, selectedTripId, selectedDate,
                   TripForm(showNewTripForm, newTripTitle, newTripLocation, newTripFrom, newTripTo),
                   ActivityForm(showNewActivityForm, newActivity, editingActivityId))
    }

    constructor (initial: seq<Trip>)
      ensures State() == Initial(initial)
    {
      trips := initial;
      selectedTripId := if |initial| > 0 && initial[0].id != "" then Some(initial[0].id) else None;
      selectedDate := if |initial| > 0 then Some(initial[0].startDate) else None;
      showNewTripForm, newTripTitle, newTripLocation, newTripFrom, newTripTo := false, "", "", None, None;
      showNewActivityForm, newActivity, editingActivityId := false, EmptyDraft, None;
    }

    /** `handleAddTrip`; the new trip's id (`Date.now()`) is a parameter. */
    method AddTrip(freshId: string)
      modifies this
      ensures State() == AfterAddTrip(old(State()), freshId)
    {
      if newTripTitle == "" || newTripFrom.None? || newTripTo.None? || newTripLocation == "" {
        return;
      }
      ghost var s := State();
      var newTrip := Trip(freshId, newTripTitle, newTripFrom.value, newTripTo.value, newTripLocation, map[]);
      trips := trips + [newTrip];
      selectedTripId := Some(newTrip.id);
      selectedDate := Some(newTrip.startDate);
      showNewTripForm := false;
      newTripTitle := "";
      newTripFrom, newTripTo := None, None;
      newTripLocation := "";
      assert State() == s.(trips := s.trips + [newTrip], selectedTripId := Some(freshId),
                           selectedDate := Some(newTrip.startDate), tripForm := EmptyTripForm);
    }

    /** `handleDeleteTrip`; the answer to `confirm` is a parameter. */
    method DeleteTrip(tripId: string, confirmed: bool)
      modifies this
      ensures State() == AfterDeleteTrip(old(State()), tripId, confirmed)
    {
      if confirmed {
        var updatedTrips := RemoveTrip(trips, tripId);
        trips := updatedTrips;
        if selectedTripId == Some(tripId) {
          selectedTripId := if |updatedTrips| > 0 && updatedTrips[0].id != "" then Some(updatedTrips[0].id) else None;
          selectedDate := if |updatedTrips| > 0 then Some(updatedTrips[0].startDate) else None;
        }
      }
    }

    method SelectTrip(t: Trip)
      modifies this
      ensures State() == AfterSelectTrip(old(State()), t)
    {
      selectedTripId := Some(t.id);
      selectedDate := Some(t.startDate);
    }

    /** The calendar's `onSelect` (a cleared selection gives null). */
    method SelectDate(date: Option<int>)
      modifies this
      ensures State() == old(State()).(selectedDate := date)
    {
      selectedDate := date;
    }

    method ToggleActivityForm()
      modifies this
      ensures State() == AfterToggleActivityForm(old(State()))
    {
      var wasShown := showNewActivityForm;
      showNewActivityForm := !wasShown;
      if !wasShown {
        newActivity := EmptyDraft;
        editingActivityId := None;
      }
    }

    /** "Plan Activity", corrected to open the form empty in add mode. */
    method PlanActivity()
      modifies this
      ensures State() == AfterPlanActivity(old(State()))
    {
      showNewActivityForm := true;
      newActivity := EmptyDraft;
      editingActivityId := None;
    }

    /** `handleAddActivity`, both branches; the id of an added activity is a parameter. */
    method AddActivity(newId: string)
      modifies this
      ensures State() == AfterAddActivity(old(State()), newId)
    {
      ghost var s := State();
      var selectedTrip := FindTrip(trips, selectedTripId);
      if newActivity.title == "" || newActivity.time == "" || selectedTrip.None? || selectedDate.None? {
        return;
      }
      var updated := MapAddOrEdit(trips, selectedTrip.value.id, selectedDate.value, newActivity, editingActivityId, newId);
      AddActivityUnfold(s, newId);
      trips := updated;
      showNewActivityForm := false;
      newActivity := EmptyDraft;
      editingActivityId := None;
    }

    method EditActivity(a: Activity)
      modifies this
      ensures State() == AfterEditActivity(old(State()), a)
    {
      newActivity := ActivityDraft(a.title, a.description, a.time, a.location, a.kind);
      editingActivityId := Some(a.id);
      showNewActivityForm := true;
    }

    method DeleteActivity(activityId: string)
      modifies this
      ensures State() == AfterDeleteActivity(old(State()), activityId)
    {
      var selectedTrip := FindTrip(trips, selectedTripId);
      if selectedTrip.None? || selectedDate.None? {
        return;
      }
      trips := MapDeleteIn(trips, selectedTrip.value.id, selectedDate.value, activityId);
    }

    /** The day view and the timeline: the selected day's activities sorted by time (a permutation of the bucket). */
    method DayView() returns (view: seq<Activity>)
      ensures SortedByTime(view)
      ensures multiset(view) == multiset(DayActivities(State()))
    {
      var bucket := DayActivities(State());
      var a := new Activity[|bucket|](i requires 0 <= i < |bucket| => bucket[i]);
      assert a[..] == bucket;
      SortByTime(a);
      view := a[..];
    }
  }
}
