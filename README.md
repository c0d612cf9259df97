# TripTrove in Dafny

A model of the client-side logic of TripTrove, a single-page React travel companion. It has no
back end: every page keeps its data in React state, and the session lives in browser storage.
The model has one Dafny module per page or component:

- `Auth` (`src/App.tsx`): the mock authentication provider and the protected route.
  - Login checks the first stored account with the email.
  - Signup refuses a taken email, appends the account and signs in.
  - Logout clears the session record.
- `SignupPage` (`src/pages/Signup.tsx`): the six-character password guard in front of `signup`, and the redirect when already signed in.
- `PlannerModel` and `Planner` (`src/pages/Planner.tsx`): the trip planner.
  - Trips with per-day activity buckets; add, delete and select trips.
  - Add, edit and delete activities.
  - The list of trip days, the countdown label, the 12-hour time display and the activity emoji.
  - The in-place sort of a day's activities by time.
- `PackingList` (`src/pages/PackingList.tsx`): checklist categories; toggle, add and delete items; per-category and overall progress percentages; templates.
- `BudgetTracker` (`src/pages/BudgetTracker.tsx`): expenses with add, edit and delete; the category filter; totals; the per-category and per-date sums and the sorted dates; the budget update and the remaining-budget status.
- `Currency` (`src/pages/Currency.tsx`): the conversion effect and its guard, the ten-entry history, the swap, and the currency-info lookup.
- `TravelGallery` (`src/pages/TravelGallery.tsx`): the photo search, the featured and like toggles, the file-type check, the two-step upload, cancel, the upload form schema and the download file name.
- `Destinations` (`src/pages/Destinations.tsx`): the search-plus-facets filter, the filter reset and the star rating.
- `UserProfile` (`src/pages/UserProfile.tsx`): the profile and its temporary edit copy; save, cancel, favourite toggling and the list Add buttons.
- `Typewriter` (`src/components/TypewriterText.tsx`): the one-character-per-tick reveal.
- `Text`, `Seqs` and `Wrappers`: the JavaScript string operations, `Array.prototype.filter` and `Option`, which the pages share.

Each page with state is a class. Its fields are the page's `useState` values, and its methods are
the handlers. Every handler has a contract that states the new state as a pure transition
function of the old state, such as `State() == AfterAddTrip(old(State()), freshId)`. The lemmas
state what those transitions promise. A handler's inputs that come from the environment are
parameters:
- `Date.now()` ids;
- today's date;
- the answer to `confirm`;
- object URLs;
- the current year.

Dates are day numbers. Money, rates and ratings are exact rationals.

## Model

| member | source | states |
|---|---|---|
| Auth.FindByEmail | src/App.tsx:62 | `find` returns none iff no account has the email, else an account with it before which none has it |
| Auth.Route | src/App.tsx:111-119 | children iff authenticated, otherwise a replacing redirect to /login |
| Auth.Restored | src/App.tsx:49-56 | a stored session record becomes the signed-in user, so storage and screen agree; without one nothing changes |
| Auth.AfterLogin | src/App.tsx:58-72 | success signs in as the first account with that email, the one `find` returns, and records it in storage; failure changes nothing; the accounts are kept |
| Auth.AfterSignup | src/App.tsx:74-95 | a free email appends the account and signs in as it, in storage too; a taken one changes nothing |
| Auth.AfterLogout | src/App.tsx:97-101 | the accounts are kept and nobody is signed in, neither on screen nor in storage |
| Auth.SignupDuplicateRejected | src/App.tsx:80-82 | a taken email makes signup fail and changes nothing, storage included |
| Auth.SignupAppends | src/App.tsx:85-94 | a free email appends exactly the new account and signs in as its name and email |
| Auth.SignupTwiceFails | src/App.tsx:77-95 | a second signup with the same email fails and changes nothing |
| Auth.LoginOkIff | src/App.tsx:61-64 | login succeeds iff the first account with that email has exactly that password |
| Auth.LoginSuccess | src/App.tsx:64-69 | a successful login stores and shows the name and email of the first account with that email, which has that password, and keeps the account list |
| Auth.LoginFailureUnchanged | src/App.tsx:71 | a failed login changes neither user, flag nor storage |
| Auth.LogoutIdempotent | src/App.tsx:97-101 | logout ends signed out with no session record; twice is the same as once |
| Auth.OperationsKeepConsistent | src/App.tsx:49-101 | restore, login, signup and logout keep `isAuthenticated` iff a user is present |
| Auth.OperationsKeepSynced | src/App.tsx:49-101 | login, signup and logout keep the session record equal to the shown user; the load effect establishes it |
| Auth.FindAfterAppend | src/App.tsx:80-94 | an account appended with a free email is the one `find` returns for it |
| Auth.SignupLogoutLogin | src/App.tsx:58-101 | after signup and logout, the signup password logs in as the new account and any other password fails |
| Auth.AuthProvider.constructor | src/App.tsx:45-46 | the provider starts signed out whatever storage holds |
| Auth.AuthProvider.Restore | src/App.tsx:49-56 | the load effect trusts a stored session record |
| Auth.AuthProvider.Login | src/App.tsx:58-72 | returns the login verdict; the new state is the login transition |
| Auth.AuthProvider.Signup | src/App.tsx:74-95 | returns the signup verdict; the new state is the signup transition |
| Auth.AuthProvider.Logout | src/App.tsx:97-101 | the new state is the logout transition |
| SignupPage.Render | src/pages/Signup.tsx:45-48 | the page redirects home iff a session exists |
| SignupPage.AfterSubmit | src/pages/Signup.tsx:59-89 | a short password changes nothing; any change means the outcome is Created and the account was appended |
| SignupPage.SubmitOutcome | src/pages/Signup.tsx:65-89 | the invalid-password outcome iff the password is under six characters; Created only when the email is free |
| SignupPage.ShortPasswordRejected | src/pages/Signup.tsx:65-72 | a password under six characters gives the invalid-password outcome and leaves the session untouched |
| SignupPage.SignupOnlyWithLongPassword | src/pages/Signup.tsx:65-75 | whenever a submission changes the session, the password had at least six characters and the outcome is Created |
| SignupPage.CreatedIff | src/pages/Signup.tsx:75-89 | Created iff the password passes and the email is free; AlreadyExists iff it passes and the email is taken; Created signs in |
| SignupPage.SignupForm.HandleSubmit | src/pages/Signup.tsx:59-98 | the outcome, the auth transition and navigation to "/" only on success; loading is off at the end |
| SignupPage.SignupForm.constructor | src/pages/Signup.tsx:36-39 | the form starts with empty name, email and password and no loading |
| Typewriter.TypewriterText.ShowsCursor | src/components/TypewriterText.tsx:41 | the cursor shows iff the shown text is not yet the whole text |
| Typewriter.TypewriterText.constructor | src/components/TypewriterText.tsx:22-23 | typing starts with nothing shown at index 0 |
| Typewriter.TypewriterText.Tick | src/components/TypewriterText.tsx:25-36 | before the end a tick appends `text[currentIndex]` and advances the index; at the end it only reports completion; the shown text stays the prefix |
| Typewriter.TypeOut | src/components/TypewriterText.tsx:22-36 | ticking a fresh typewriter until completion shows the whole text after exactly `|text| + 1` ticks |
| PlannerModel.FindTrip | src/pages/Planner.tsx:123 | the first trip whose id is the selected id, none when there is no such trip |
| PlannerModel.ReplaceActivity | src/pages/Planner.tsx:186-191 | every activity with the edited id becomes the draft, the others stay in place |
| PlannerModel.RemoveActivity | src/pages/Planner.tsx:243-246 | the bucket without the activities of that id, the others kept |
| PlannerModel.AddOrEdit | src/pages/Planner.tsx:179-199 | only the day's bucket changes, created when missing; it grows by one when adding and keeps its length when editing |
| PlannerModel.DeleteIn | src/pages/Planner.tsx:240-253 | only that day's bucket can change, and it never grows; the set of days stays |
| PlannerModel.MapAddOrEdit | src/pages/Planner.tsx:179-199 | only trips with the selected id change, each by the add-or-edit step |
| PlannerModel.MapDeleteIn | src/pages/Planner.tsx:240-253 | only trips with the selected id change, each by the delete step |
| PlannerModel.RemoveTrip | src/pages/Planner.tsx:158 | the trips with other ids, none with the deleted id |
| PlannerModel.AddAppends | src/pages/Planner.tsx:181-195 | adding puts the activity at the end of the day's bucket and leaves other buckets and fields untouched |
| PlannerModel.EditReplaces | src/pages/Planner.tsx:186-191 | editing replaces only the matching activities, under the same id, keeping the bucket's length |
| PlannerModel.EditAbsentId | src/pages/Planner.tsx:182-191 | editing an absent id keeps the list, but a missing bucket is created empty |
| PlannerModel.DeleteOnlyInBucket | src/pages/Planner.tsx:242-249 | delete touches only the day's bucket and nothing when the bucket is missing |
| PlannerModel.DeleteIdempotent | src/pages/Planner.tsx:243-246 | deleting twice equals deleting once; an unknown id changes nothing |
| PlannerModel.RemoveUnknownTrip | src/pages/Planner.tsx:158 | deleting an unknown trip id keeps the list |
| PlannerModel.TripDays | src/pages/Planner.tsx:260-269 | the days are start, start + 1, ..., end in order, none when end < start |
| PlannerModel.GetCountdown | src/pages/Planner.tsx:271-291 | a day count is positive; Completed only after the end; In progress only between start and end |
| PlannerModel.CountdownClassification | src/pages/Planner.tsx:271-291 | Completed iff ended before today, In progress iff today is inside, Starts today iff it starts today, else the exact day count until start |
| PlannerModel.CountdownText | src/pages/Planner.tsx:286-290 | the shown label; only the days-until label starts with a digit |
| PlannerModel.CountdownLabels | src/pages/Planner.tsx:271-291 | "Trip completed" iff the trip ended before today, "Trip in progress" iff today is inside it, "Trip starts today" iff it starts today, otherwise "N days until trip" with N the days until the start |
| PlannerModel.CountdownTextInjective | src/pages/Planner.tsx:286-290 | different countdowns show different labels, so a label gives back its day count |
| PlannerModel.IndexOfColon | src/pages/Planner.tsx:295 | the position of the first ':' or none when there is none |
| PlannerModel.TimeDisplay | src/pages/Planner.tsx:293-302 | a time without ':' comes back unchanged; any other display ends in " AM" or " PM" |
| PlannerModel.TimeDisplayHHMM | src/pages/Planner.tsx:293-302 | "HH:MM" shows the hour mod 12 (12 for 0), the two minute digits, and AM iff the hour < 12 |
| PlannerModel.EmojiFrom | src/pages/Planner.tsx:44-46 | the emoji of the first type with that value when non-empty, else the fallback; the fallback when no type has that value |
| PlannerModel.ActivityEmoji | src/pages/Planner.tsx:44-46 | the intended emoji of a table entry with that type, or the pin |
| PlannerModel.ActivityEmojiAsWritten | src/pages/Planner.tsx:36-46 | as written: the mis-encoded emoji of a table entry with that type, or the mis-encoded pin |
| PlannerModel.ActivityEmojiTable | src/pages/Planner.tsx:36-46 | each listed type shows its own emoji |
| PlannerModel.ActivityEmojiDefault | src/pages/Planner.tsx:44-46 | an unlisted type falls back to the pin |
| PlannerModel.MisEncodedEmoji | src/pages/Planner.tsx:36-46 | as written, every result starts with U+F8FF and differs from the intended emoji |
| PlannerModel.AdjacentSortedIsSorted | src/pages/Planner.tsx:753 | time-ordered neighbours make a time-ordered sequence |
| PlannerModel.SortByTime | src/pages/Planner.tsx:752-753 | the array ends time-ordered and is a permutation of its old contents |
| PlannerModel.InsertLast | src/pages/Planner.tsx:753 | one insertion step extends the sorted prefix by one and permutes the array |
| Planner.FirstId | src/pages/Planner.tsx:101 | `trips[0]?.id \|\| null`: present iff there is a first trip with a non-empty id |
| Planner.FirstStart | src/pages/Planner.tsx:111 | the first trip's start date, present iff there is a trip |
| Planner.SelectedTripSpec | src/pages/Planner.tsx:123 | the trip with the selected id; none iff nothing is selected or no trip has that id |
| Planner.DayActivitiesSpec | src/pages/Planner.tsx:125-126 | the selected date's bucket of the selected trip; empty without a trip, a date, or a bucket for that date |
| Planner.AfterAddTrip | src/pages/Planner.tsx:128-154 | an incomplete form changes nothing; otherwise one trip with the fresh id and no activities is appended and selected with its start date, and the form resets |
| Planner.AfterDeleteTrip | src/pages/Planner.tsx:156-168 | unconfirmed, nothing changes; confirmed, the trips without that id remain, and the selection stays unless it was the deleted trip, which is then not selected |
| Planner.AfterAddActivity | src/pages/Planner.tsx:170-221 | an incomplete form changes nothing; otherwise the trip count and the selection stay and the form closes, cleared |
| Planner.AfterDeleteActivity | src/pages/Planner.tsx:235-258 | only the trips change, and nothing at all without a selected trip and date |
| Planner.InitialSelection | src/pages/Planner.tsx:100-111 | the first render selects the first trip and its start date |
| Planner.AddTripRejected | src/pages/Planner.tsx:129-136 | an incomplete trip form changes nothing |
| Planner.AddTripAppends | src/pages/Planner.tsx:138-154 | a complete form appends one trip with no activities, selects it and its start date, and resets the form |
| Planner.FindTripAppend | src/pages/Planner.tsx:128-154 | an appended trip with a fresh id is the one the selection finds |
| Planner.ReversedDatesAccepted | src/pages/Planner.tsx:129-147 | a trip whose end precedes its start is accepted as picked |
| Planner.DeleteTripSelection | src/pages/Planner.tsx:156-168 | a confirmed delete keeps the other trips in order; a deleted selection falls back to the first remaining trip |
| Planner.DeleteLastTrip | src/pages/Planner.tsx:156-168 | deleting the only trip leaves nothing selected |
| Planner.RemoveTripConcat | src/pages/Planner.tsx:158 | trip removal distributes over concatenation (order kept) |
| Planner.AddActivityRejected | src/pages/Planner.tsx:171-177 | without title, time, trip or date, saving an activity changes nothing |
| Planner.FindAfterAddOrEdit | src/pages/Planner.tsx:179-199 | the selected trip after the map is the updated image of the selected trip before it |
| Planner.FindAfterDeleteIn | src/pages/Planner.tsx:240-253 | the same for the delete map |
| Planner.AddActivityAppends | src/pages/Planner.tsx:170-221 | the day view gains the new activity at its end, other trips are untouched, the form resets |
| Planner.EditActivityReplaces | src/pages/Planner.tsx:186-191 | the day view has each activity with the edited id replaced by the draft |
| Planner.EditSaveUnchanged | src/pages/Planner.tsx:223-233 | opening an activity of the day and saving it unchanged leaves the day as it was |
| Planner.DeleteActivityRemoves | src/pages/Planner.tsx:235-258 | the day view loses exactly the activities with that id |
| Planner.DeleteActivityNoSelection | src/pages/Planner.tsx:236-238 | without a selected trip or date delete does nothing |
| Planner.ToggleOpensEmpty | src/pages/Planner.tsx:599-610 | opening the activity form starts from an empty draft in add mode |
| Planner.AfterPlanActivityAsWritten | src/pages/Planner.tsx:729 | as written, the Plan Activity button shows the form and keeps the old draft and editing id; nothing else changes |
| Planner.AfterPlanActivity | src/pages/Planner.tsx:729 | the corrected button (see Findings): the form opens with an empty draft in add mode; nothing else changes |
| Planner.ToggleCloseKeepsEditing | src/pages/Planner.tsx:599-610 | closing the form with the toggle after editing an activity keeps that activity's id as the editing id |
| Planner.PlanActivityDropsNew | src/pages/Planner.tsx:729 | as written, with an editing id left behind, a complete activity planned on an empty day is not added (see Findings) |
| Planner.PlanActivityAddsNew | src/pages/Planner.tsx:729 | with the button corrected to open the form empty in add mode, the planned activity is appended to the day |
| Planner.PlannerPage.constructor | src/pages/Planner.tsx:100-121 | the first render's state |
| Planner.PlannerPage.AddTrip | src/pages/Planner.tsx:128-154 | the new state is the add-trip transition |
| Planner.PlannerPage.DeleteTrip | src/pages/Planner.tsx:156-168 | the new state is the delete-trip transition for the given confirm answer |
| Planner.PlannerPage.SelectTrip | src/pages/Planner.tsx:493-494 | selects the clicked trip and its start date |
| Planner.PlannerPage.SelectDate | src/pages/Planner.tsx:566 | sets the selected date |
| Planner.PlannerPage.ToggleActivityForm | src/pages/Planner.tsx:599-610 | toggles the form, clearing it when it opens |
| Planner.PlannerPage.PlanActivity | src/pages/Planner.tsx:729 | the corrected Plan Activity button: the form opens with an empty draft in add mode |
| Planner.PlannerPage.AddActivity | src/pages/Planner.tsx:170-221 | the new state is the add-or-edit transition |
| Planner.PlannerPage.EditActivity | src/pages/Planner.tsx:223-233 | opens the form on a copy of the activity, remembering its id |
| Planner.PlannerPage.DeleteActivity | src/pages/Planner.tsx:235-258 | the new state is the delete-activity transition |
| Planner.PlannerPage.DayView | src/pages/Planner.tsx:752-753 | the shown day is time-ordered and a permutation of the selected day's bucket |
| PackingList.FlipItems | src/pages/PackingList.tsx:84-86 | flips `checked` exactly on items with that id |
| PackingList.Toggle | src/pages/PackingList.tsx:79-91 | only the category with that id changes, by flipping its items |
| PackingList.AppendItem | src/pages/PackingList.tsx:97-110 | only the active category changes, gaining the new item at the end |
| PackingList.RemoveItems | src/pages/PackingList.tsx:123 | the items with other ids, none with that id |
| PackingList.Delete | src/pages/PackingList.tsx:118-128 | only the category with that id changes, by removing the item |
| PackingList.CountChecked | src/pages/PackingList.tsx:143 | the checked count is at most the item count |
| PackingList.FindCategory | src/pages/PackingList.tsx:140 | the first category with that id, none iff there is none |
| PackingList.CategoryProgress | src/pages/PackingList.tsx:139-145 | 100·checked/items of the first category with that id, rounded half up (within half a point); 0 for a missing or empty category |
| PackingList.TotalChecked | src/pages/PackingList.tsx:152-155 | total checked is at most total items |
| PackingList.OverallProgress | src/pages/PackingList.tsx:148-158 | between 0 and 100; 0 with no items or nothing checked, 100 when every item is checked |
| PackingList.AfterAdd | src/pages/PackingList.tsx:94-115 | blank text changes nothing; otherwise the input clears and the number of categories stays; active category, list name and template are kept |
| PackingList.AfterLoadTemplate | src/pages/PackingList.tsx:161-169 | the list restarts from the initial categories (0% packed, by InitialProgressZero) and remembers the template; input and active category are kept |
| PackingList.TemplateName | src/pages/PackingList.tsx:164-166 | the first matching template's name ("My Trip" if that name is empty), "My Trip" when none matches |
| PackingList.ToggleFlipsOnlyTarget | src/pages/PackingList.tsx:79-91 | toggling flips exactly the targeted items and keeps ids, names and sizes |
| PackingList.ToggleTwice | src/pages/PackingList.tsx:79-91 | toggling twice restores the categories |
| PackingList.AddBlankIsNoop | src/pages/PackingList.tsx:95 | an all-whitespace input changes nothing |
| PackingList.AddAppendsToActive | src/pages/PackingList.tsx:94-115 | other input appends one unchecked item with the untrimmed text to the active category only and clears the input |
| PackingList.DeleteKeepsOrder | src/pages/PackingList.tsx:123 | deletion keeps the other items in order and an absent id changes nothing |
| PackingList.CountCheckedNone | src/pages/PackingList.tsx:143 | nothing checked counts 0 |
| PackingList.CountCheckedAll | src/pages/PackingList.tsx:143 | everything checked counts all items |
| PackingList.RoundPercentIsRounding | src/pages/PackingList.tsx:139-158 | the percentage is 100c/n rounded half up, between 0 and 100, 0 and 100 at the ends |
| PackingList.RoundPercent | src/pages/PackingList.tsx:144 | `Math.round(c / n * 100)`: within half a point of 100c/n, halves rounded up |
| PackingList.CategoryProgressBounds | src/pages/PackingList.tsx:139-145 | category progress is the rounded share of checked items, at most 100, 0 when nothing is checked, 100 when all is |
| PackingList.OverallProgressBounds | src/pages/PackingList.tsx:148-158 | overall progress is at most 100 and is the rounded share of checked items |
| PackingList.LoadTemplateResets | src/pages/PackingList.tsx:161-169 | loading restores the initial categories and names the list after the template (each of the four names stated) or "My Trip" |
| PackingList.InitialProgressZero | src/pages/PackingList.tsx:148-158 | a fresh list, and so the list after loading a template, is 0% packed |
| PackingList.PackingListPage.ToggleItem | src/pages/PackingList.tsx:79-91 | the new categories are the toggle of the old ones |
| PackingList.PackingListPage.constructor | src/pages/PackingList.tsx:72-76 | the initial categories, an empty input, the "essentials" tab, the name "My Trip" and the custom template |
| PackingList.PackingListPage.AddItem | src/pages/PackingList.tsx:94-115 | the new state is the add transition |
| PackingList.PackingListPage.DeleteItem | src/pages/PackingList.tsx:118-128 | the new categories are the deletion from the old ones |
| PackingList.PackingListPage.LoadTemplate | src/pages/PackingList.tsx:161-169 | the new state is the template transition |
| BudgetTracker.SumConcat | src/pages/BudgetTracker.tsx:122 | the sum of a concatenation is the sum of the sums |
| BudgetTracker.SumNonNegative | src/pages/BudgetTracker.tsx:122 | the left-fold sum: non-negative amounts give a non-negative sum, positive when some amount is positive |
| BudgetTracker.OfCategory | src/pages/BudgetTracker.tsx:120 | only and all the expenses of that category |
| BudgetTracker.OfCategoryKeepsOrder | src/pages/BudgetTracker.tsx:120 | the category filter distributes over concatenation, so the expenses keep their order |
| BudgetTracker.Filtered | src/pages/BudgetTracker.tsx:118-120 | "All" gives the whole list; any other choice only and all the expenses of that category |
| BudgetTracker.StatusOf | src/pages/BudgetTracker.tsx:453-457 | over budget iff spent > budget; getting low iff within budget and above 80% of it; on track otherwise |
| BudgetTracker.Remaining | src/pages/BudgetTracker.tsx:122-123 | remaining plus spent is the budget; remaining is negative iff spending exceeds the budget |
| BudgetTracker.Spent | src/pages/BudgetTracker.tsx:122 | `totalSpent`: 0 with no expenses, never negative for non-negative amounts |
| BudgetTracker.ExpensesByDate | src/pages/BudgetTracker.tsx:135-139 | the accumulator has exactly the expense dates as keys, each mapped to that date's sum |
| BudgetTracker.AccumulateStep | src/pages/BudgetTracker.tsx:136-138 | one reduce step keeps the accumulator equal to the per-date sums of the prefix |
| BudgetTracker.ByDateSums | src/pages/BudgetTracker.tsx:135-139 | after the reduce callback has run over any prefix, the accumulator maps exactly that prefix's dates, each to its sum |
| BudgetTracker.DateSumStep | src/pages/BudgetTracker.tsx:137 | one more expense adds its amount to its own date only |
| BudgetTracker.Dates | src/pages/BudgetTracker.tsx:141 | the keys are the expense dates, each once |
| BudgetTracker.Insert | src/pages/BudgetTracker.tsx:141 | insertion into an ascending list keeps it ascending and adds just the element |
| BudgetTracker.SortStrings | src/pages/BudgetTracker.tsx:141 | sorting distinct strings gives an ascending list of the same strings |
| BudgetTracker.SortedDates | src/pages/BudgetTracker.tsx:135-141 | `sortedDates` is ascending and holds exactly the expense dates |
| BudgetTracker.ReplaceExpense | src/pages/BudgetTracker.tsx:239 | expenses with the edited id become the edited expense, others stay |
| BudgetTracker.RemoveExpense | src/pages/BudgetTracker.tsx:251 | the expenses with other ids |
| BudgetTracker.AfterAdd | src/pages/BudgetTracker.tsx:205-233 | an invalid form changes nothing; a valid one puts one expense with the fresh id before the old list and keeps budget, filter and edit |
| BudgetTracker.AfterEdit | src/pages/BudgetTracker.tsx:235-248 | with nothing open, nothing changes; otherwise editing closes and the number of expenses and the budget stay |
| BudgetTracker.AfterUpdateBudget | src/pages/BudgetTracker.tsx:259-276 | either nothing changes, or the positive temporary budget becomes the budget and the editor closes; expenses are kept |
| BudgetTracker.AddRejected | src/pages/BudgetTracker.tsx:206-213 | a non-positive amount or empty description changes nothing |
| BudgetTracker.AddPrepends | src/pages/BudgetTracker.tsx:215-227 | a valid expense goes first under its id, the total grows by its amount, the form resets |
| BudgetTracker.EditReplaces | src/pages/BudgetTracker.tsx:235-248 | no edit open: nothing; else exactly the matching expenses are replaced and editing closes |
| BudgetTracker.DeleteKeepsOrder | src/pages/BudgetTracker.tsx:251 | deletion keeps order and an absent id changes nothing |
| BudgetTracker.DeleteLowersTotal | src/pages/BudgetTracker.tsx:250-257 | deleting a unique expense lowers the total by its amount |
| BudgetTracker.FilterSpec | src/pages/BudgetTracker.tsx:118-120 | "All" shows every expense; another category only its own expenses |
| BudgetTracker.ByCategorySpec | src/pages/BudgetTracker.tsx:127-133 | every entry is a listed category with its positive sum, and every listed category with a positive sum is there |
| BudgetTracker.CategoryTotals | src/pages/BudgetTracker.tsx:127-132 | every table category, in table order, with its sum |
| BudgetTracker.ByCategory | src/pages/BudgetTracker.tsx:127-133 | at most one entry per table category, each with a positive sum |
| BudgetTracker.ByCategoryOrder | src/pages/BudgetTracker.tsx:127-133 | the chart's categories come in the order of `CATEGORIES` |
| BudgetTracker.CategorySumStep | src/pages/BudgetTracker.tsx:129-131 | one more expense adds to its own category only |
| BudgetTracker.CategorySumsAddUp | src/pages/BudgetTracker.tsx:122-133 | with listed categories only, the category sums add up to the total |
| BudgetTracker.UpdateBudgetSpec | src/pages/BudgetTracker.tsx:259-276 | a non-positive budget is refused; otherwise it becomes the budget and the editor closes |
| BudgetTracker.BudgetTrackerPage.AddExpense | src/pages/BudgetTracker.tsx:205-233 | the new state is the add transition |
| BudgetTracker.BudgetTrackerPage.constructor | src/pages/BudgetTracker.tsx:103-115 | the demo expenses, an empty draft dated today, no edit open, filter "All", budget 1500 with its editor closed |
| BudgetTracker.BudgetTrackerPage.StartEdit | src/pages/BudgetTracker.tsx:704 | opens the editor on that expense |
| BudgetTracker.BudgetTrackerPage.EditExpense | src/pages/BudgetTracker.tsx:235-248 | the new state is the edit transition |
| BudgetTracker.BudgetTrackerPage.DeleteExpense | src/pages/BudgetTracker.tsx:250-257 | the new expenses are the old ones without that id |
| BudgetTracker.BudgetTrackerPage.OpenBudgetEdit | src/pages/BudgetTracker.tsx:358-359 | the editor opens on the current budget |
| BudgetTracker.BudgetTrackerPage.UpdateBudget | src/pages/BudgetTracker.tsx:259-276 | the new state is the budget transition |
| Currency.Convert | src/pages/Currency.tsx:97-98 | a value iff both codes have a rate, NaN otherwise |
| Currency.ConvertRoundTrip | src/pages/Currency.tsx:97-98 | converting back gives the amount again; same-currency conversion is the identity |
| Currency.TableRatesPositive | src/pages/Currency.tsx:19-45 | every rate is positive, the rate table and the currency table have the same codes, all three letters |
| Currency.GetCurrencyInfo | src/pages/Currency.tsx:161-169 | the code with its table data, or empty fields for an unknown code |
| Currency.Push | src/pages/Currency.tsx:118 | the new entry first, then a prefix of the old history, at most ten in all |
| Currency.RemoveItem | src/pages/Currency.tsx:143 | the entries with other ids |
| Currency.RemoveItemOrder | src/pages/Currency.tsx:143 | removal keeps the order |
| Currency.EffectRoundTrip | src/pages/Currency.tsx:94-101 | over any positive rate table, the effect stores the conversion, and swapping then converting the result gives the amount back |
| Currency.AfterEffect | src/pages/Currency.tsx:94-101 | the effect changes the result and nothing else |
| Currency.AfterSubmit | src/pages/Currency.tsx:104-134 | without a result nothing changes; otherwise only the history changes, first the entry with the fresh id and the result, never more than ten |
| Currency.AfterSwap | src/pages/Currency.tsx:136-139 | the two codes are exchanged and nothing else changes |
| Currency.SubmitWithoutResult | src/pages/Currency.tsx:108 | without a result saving adds nothing |
| Currency.SubmitPrepends | src/pages/Currency.tsx:108-118 | saving puts the entry first, then at most nine earlier entries, newest first |
| Currency.HistoryStaysCapped | src/pages/Currency.tsx:118 | no operation grows the history past ten |
| Currency.SwapInvolution | src/pages/Currency.tsx:136-139 | swapping exchanges the codes only; twice is the identity |
| Currency.ZeroAmountKeepsResult | src/pages/Currency.tsx:95 | a zero amount skips the effect and the stale result stays |
| Currency.EffectConverts | src/pages/Currency.tsx:94-101 | with the page's rates, a known pair and a non-zero amount store the conversion, and the swap converts it back |
| Currency.CurrencyInfoFallback | src/pages/Currency.tsx:161-169 | EUR shows Euro, € and its flag; a code without a rate shows empty fields |
| Currency.CurrencyPage.SetAmount | src/pages/Currency.tsx:241 | only the amount changes, to the parsed input (`parseFloat(value) \|\| 0` is the parameter) |
| Currency.CurrencyPage.constructor | src/pages/Currency.tsx:86-90 | 1 USD to EUR, no result and an empty history |
| Currency.CurrencyPage.SetFrom | src/pages/Currency.tsx:259 | only the source currency changes |
| Currency.CurrencyPage.SetTo | src/pages/Currency.tsx:326 | only the target currency changes |
| Currency.CurrencyPage.RunEffect | src/pages/Currency.tsx:94-101 | the new state is the effect transition |
| Currency.CurrencyPage.Submit | src/pages/Currency.tsx:104-133 | the new state is the submit transition |
| Currency.CurrencyPage.SwapCurrencies | src/pages/Currency.tsx:136-139 | the new state is the swap |
| Currency.CurrencyPage.RemoveHistoryItem | src/pages/Currency.tsx:142-148 | the new history is the old one without that id |
| TravelGallery.FormErrors | src/pages/TravelGallery.tsx:78-82 | no error iff title ≥ 2, location ≥ 2 and date ≥ 1 characters; each message iff its field is too short |
| TravelGallery.FilteredPhotos | src/pages/TravelGallery.tsx:117-120 | exactly the photos whose lowercased title or location contains the lowercased term |
| TravelGallery.FilteredKeepsOrder | src/pages/TravelGallery.tsx:117-120 | the shown photos keep their order |
| TravelGallery.EmptySearchShowsAll | src/pages/TravelGallery.tsx:117-120 | an empty search shows every photo in order |
| TravelGallery.SearchIgnoresCase | src/pages/TravelGallery.tsx:118-119 | lowercasing the term changes nothing |
| TravelGallery.ToggleFeaturedSpec | src/pages/TravelGallery.tsx:196-199 | only the photos with that id flip `featured`; twice is the identity |
| TravelGallery.ToggleFeatured | src/pages/TravelGallery.tsx:196-199 | the same number of photos, each differing from the old one at most in `featured` |
| TravelGallery.ToggleLike | src/pages/TravelGallery.tsx:208-221 | the id is liked afterwards iff it was not before |
| TravelGallery.ToggleLikeSpec | src/pages/TravelGallery.tsx:208-221 | other ids keep their membership; twice is the identity |
| TravelGallery.Dashed | src/pages/TravelGallery.tsx:253 | the result has no whitespace and is no longer than the input |
| TravelGallery.DashedIdentityIff | src/pages/TravelGallery.tsx:253 | the replacement keeps a title iff it has no whitespace |
| TravelGallery.DashedJoin | src/pages/TravelGallery.tsx:253 | a whitespace run of any length between two parts becomes one dash |
| TravelGallery.DownloadName | src/pages/TravelGallery.tsx:253 | the name ends in ".jpg" and has no whitespace and no upper-case letter |
| TravelGallery.FileSelectRejects | src/pages/TravelGallery.tsx:123-134 | no file, or a type not starting with "image/", changes nothing |
| TravelGallery.FileSelectAccepts | src/pages/TravelGallery.tsx:136-143 | an image becomes the selection with its preview and opens the dialog |
| TravelGallery.AfterFileSelect | src/pages/TravelGallery.tsx:122-144 | photos, likes and the upload flag are kept; no file or a non-image changes nothing; otherwise the file is selected and the dialog opens |
| TravelGallery.UploadRejected | src/pages/TravelGallery.tsx:147-154 | without file or preview the upload changes nothing and schedules nothing |
| TravelGallery.StartUpload | src/pages/TravelGallery.tsx:146-159 | an upload is scheduled iff a file and a non-empty preview exist; if not, nothing changes; if so, only the uploading flag is set and the form values and the preview are captured |
| TravelGallery.FinishUpload | src/pages/TravelGallery.tsx:160-183 | one unfeatured photo with the fresh id goes first; likes and search are kept; the selection, preview, dialog and uploading flag are cleared |
| TravelGallery.AfterCancel | src/pages/TravelGallery.tsx:186-194 | the selection, preview and dialog are cleared; photos, likes and the uploading flag are kept |
| TravelGallery.UploadPrepends | src/pages/TravelGallery.tsx:156-174 | a started upload, once finished, puts the unfeatured photo with the form values and the preview first and clears the selection |
| TravelGallery.CancelIdempotent | src/pages/TravelGallery.tsx:186-194 | cancel clears the preview, keeps the photos, and is idempotent |
| TravelGallery.GalleryPage.SelectFile | src/pages/TravelGallery.tsx:122-144 | the new state is the file-select transition |
| TravelGallery.GalleryPage.constructor | src/pages/TravelGallery.tsx:87-96 | the demo photos, nothing liked, an empty search, no file or preview, the dialog closed and not uploading |
| TravelGallery.GalleryPage.SetSearch | src/pages/TravelGallery.tsx:406 | only the search term changes |
| TravelGallery.GalleryPage.Upload | src/pages/TravelGallery.tsx:146-159 | the new state and the scheduled upload are the start transition |
| TravelGallery.GalleryPage.UploadTimerFired | src/pages/TravelGallery.tsx:160-183 | the new state is the finish transition |
| TravelGallery.GalleryPage.CancelUpload | src/pages/TravelGallery.tsx:186-194 | the new state is the cancel transition |
| TravelGallery.GalleryPage.ToggleFeaturedPhoto | src/pages/TravelGallery.tsx:196-205 | the new photos are the featured toggle of the old |
| TravelGallery.GalleryPage.ToggleLikePhoto | src/pages/TravelGallery.tsx:207-222 | the new liked set is the like toggle of the old |
| Destinations.Filtered | src/pages/Destinations.tsx:387-397 | exactly the destinations matching the search and all three facets |
| Destinations.FacetAdmitsIff | src/pages/Destinations.tsx:392-394 | "All" admits everything; any other choice only an exact match |
| Destinations.MatchesSearchIff | src/pages/Destinations.tsx:388-390 | the search matches iff the lowercased term occurs in the lowercased name or country |
| Destinations.DefaultsShowAll | src/pages/Destinations.tsx:387-397 | empty search and all facets "All" show every destination in order |
| Destinations.FilteredKeepsOrder | src/pages/Destinations.tsx:387-397 | the shown destinations keep their order |
| Destinations.ContinentNarrows | src/pages/Destinations.tsx:392 | picking a continent only narrows the "All" result |
| Destinations.FullStars | src/pages/Destinations.tsx:401 | the full-star count is the floor of a non-negative rating |
| Destinations.StarCountRounds | src/pages/Destinations.tsx:400-413 | full stars plus a half star is the rating rounded half up |
| Destinations.StarCountBounded | src/pages/Destinations.tsx:400-413 | a rating up to five shows at most five stars |
| Destinations.RenderStarRating | src/pages/Destinations.tsx:400-413 | the floor's worth of numbered full stars, then a half star iff the fraction is at least one half |
| Destinations.DestinationsPage.constructor | src/pages/Destinations.tsx:370-373 | the page starts at the default filters |
| Destinations.DestinationsPage.SetSearch | src/pages/Destinations.tsx:515 | only the search term changes |
| Destinations.DestinationsPage.SelectContinent | src/pages/Destinations.tsx:538 | only the continent choice changes |
| Destinations.DestinationsPage.SelectClimate | src/pages/Destinations.tsx:552 | only the climate choice changes |
| Destinations.DestinationsPage.SelectType | src/pages/Destinations.tsx:566 | only the type choice changes |
| Destinations.DestinationsPage.ResetFilters | src/pages/Destinations.tsx:686-691 | the search is empty, every facet "All", and every destination is shown again |
| UserProfile.FlipFavoriteSpec | src/pages/UserProfile.tsx:153-166 | every country with that name flips `favorite`, no other changes; twice is the identity |
| UserProfile.AfterToggleFavorite | src/pages/UserProfile.tsx:149-174 | edit mode stays; while editing only the copy can change, otherwise only the profile |
| UserProfile.ToggleFavoriteTarget | src/pages/UserProfile.tsx:149-174 | in edit mode only the temporary copy changes, otherwise only the profile; the shown list is flipped |
| UserProfile.AfterSave | src/pages/UserProfile.tsx:127-134 | the copy becomes the profile and edit mode ends |
| UserProfile.AfterCancel | src/pages/UserProfile.tsx:354-357 | the profile is kept, the copy is reset to it, and edit mode ends |
| UserProfile.SaveAndCancel | src/pages/UserProfile.tsx:127-134 | save makes the copy the profile and leaves edit mode; cancel (lines 354-357) resets the copy to the profile and leaves edit mode |
| UserProfile.CancelDiscardsEdits | src/pages/UserProfile.tsx:354-357 | in this value model, edits to the copy are discarded by cancel and the profile is kept; on the page, country name and year edits survive (see Left out) |
| UserProfile.EnterEditAsWritten | src/pages/UserProfile.tsx:371 | as written, the Edit button only turns edit mode on: the profile and the (possibly stale) copy are both kept |
| UserProfile.EnterEditMode | src/pages/UserProfile.tsx:371 | the corrected Edit button (see Findings): edit mode on with the copy refreshed from the profile; the line itself only sets edit mode, which is EnterEditAsWritten |
| UserProfile.EditSaveKeepsProfile | src/pages/UserProfile.tsx:371 | with that, Edit then Save without edits keeps the profile, and the edit view shows the current countries |
| UserProfile.EditSaveLosesFavorite | src/pages/UserProfile.tsx:371 | as written, a favourite toggled outside edit mode is lost by Edit then Save |
| UserProfile.AddCountryPrepends | src/pages/UserProfile.tsx:136-147 | "New Country" with the year's digits and no favourite goes first in the copy; nothing else changes |
| UserProfile.AfterAddCountry | src/pages/UserProfile.tsx:136-147 | only the copy gains one country, not a favourite; the profile and the mode are kept |
| UserProfile.AfterAddBucketItem | src/pages/UserProfile.tsx:176-181 | only the copy's bucket list gains one entry; the profile and the mode are kept |
| UserProfile.AfterAddStyle | src/pages/UserProfile.tsx:459-462 | only the copy's travel styles gain one entry; the profile and the mode are kept |
| UserProfile.AfterAddLanguage | src/pages/UserProfile.tsx:768-771 | only the copy's languages gain one entry; the profile and the mode are kept |
| UserProfile.AddAppendsOne | src/pages/UserProfile.tsx:176-181 | the bucket-list, style (lines 459-462) and language (lines 768-771) Add buttons each append one placeholder to its list of the copy and nothing else changes |
| UserProfile.AddThenCancel | src/pages/UserProfile.tsx:136-181 | adding entries then cancelling (lines 354-357) leaves the saved profile as it was |
| UserProfile.ProfilePage.StartEditing | src/pages/UserProfile.tsx:371 | the new state is the intended enter-edit transition |
| UserProfile.ProfilePage.constructor | src/pages/UserProfile.tsx:47-92 | view mode, with the copy equal to the profile |
| UserProfile.ProfilePage.SaveProfile | src/pages/UserProfile.tsx:127-134 | the new state is the save transition |
| UserProfile.ProfilePage.Cancel | src/pages/UserProfile.tsx:354-357 | the new state is the cancel transition |
| UserProfile.ProfilePage.ToggleFavorite | src/pages/UserProfile.tsx:149-174 | the new state is the favourite transition |
| UserProfile.ProfilePage.AddCountry | src/pages/UserProfile.tsx:136-147 | the new state is the add-country transition |
| UserProfile.ProfilePage.AddBucketListItem | src/pages/UserProfile.tsx:176-181 | the new state is the bucket-list transition |
| UserProfile.ProfilePage.AddStyle | src/pages/UserProfile.tsx:459-462 | the new state is the travel-style transition |
| UserProfile.ProfilePage.AddLanguage | src/pages/UserProfile.tsx:768-771 | the new state is the language transition |
| Text.TrimEmptyIff | src/pages/PackingList.tsx:95 | `!s.trim()` iff every character is whitespace |
| Text.IncludesIff | src/pages/TravelGallery.tsx:118-119 | `includes` iff the term occurs at some position |
| Text.BeforeTransitive | src/pages/BudgetTracker.tsx:141 | the default string order is transitive (with irreflexive, total and asymmetric beside it) |
| Text.DigitsValueOfNatToString | src/pages/UserProfile.tsx:139 | reading back a rendered number gives the number |
| Seqs.FilterConcat | src/pages/BudgetTracker.tsx:120 | `filter` distributes over concatenation, so it keeps relative order |
| Seqs.FilterIdempotent | src/pages/BudgetTracker.tsx:120 | filtering twice is filtering once |
| Seqs.FilterKeepsIncreasing | src/pages/BudgetTracker.tsx:127-133 | `filter` keeps order: a key that increases along the input increases along the result |

## Left out

- Floating point: amounts, rates, ratings and percentages are exact rationals. The page's IEEE results can differ in the last place.
- PackingList.RoundPercent: the exact rational 100c/n is rounded. The page rounds `(c / n) * 100` in doubles: for 29 of 200 that is 14.499999999999998, shown as 14 where the model gives 15.
- Currency.Convert: a round trip is exact here. In doubles it is only close.
- Timers run to completion:
  - the upload delay is split into its start and its timer callback;
  - the typewriter's timeout is part of one tick;
  - the cleanup that cancels a pending timer is not modelled.
- Parameters replace `Date.now()` ids, today's date, `confirm`, object URLs and the current year. Fresh ids are assumed unique in the lemmas that need it (AddTripAppends, DeleteLowersTotal).
- Left out entirely:
  - toasts and the clipboard;
  - routing and navigation, except the route each handler aims at;
  - the download anchor, animations, random stars and Chart.js;
  - `URL.revokeObjectURL`;
  - currency formatting with `Intl`.
- Storage is two in-memory records. A malformed JSON record, which makes `JSON.parse` throw, is not modelled.
- Sample data (trips, expenses, photos, destinations, the profile) are constructor parameters rather than constants. Only the tables the logic reads are written out: activity types, initial packing categories, templates, the category list of the budget, and the currency and rate tables. The facet button lists of Destinations only feed the buttons and are not modelled; a facet choice is any string.
- Strings are sequences of code points. JavaScript lengths count UTF-16 units, so a title made of one astral character has length 2 there and 1 here.
- `toLowerCase` is modelled on ASCII letters only.
- `localeCompare`, and the default order of `sort` on dates, are modelled as code-point lexicographic order.
- PlannerModel.SortByTime: the model sorts a copy of the bucket. The page's `.sort` at line 753 reorders the stored bucket in place inside the trip state. Sort stability is not stated.
- PlannerModel.TimeDisplay: strings of decimal digits are read as numbers. Whitespace, signs, decimals and exponents are read as NaN, so `Number(" 9")` is taken as NaN where JavaScript reads 9.
- Keys such as `constructor` or `toString`, which resolve through the object prototype in `exchangeRates`, `currencyData` and the activity buckets, are not modelled.
- Plain setters are not modelled one by one: each only assigns a field, and the values they set are state the handlers read. These are the Add Trip buttons (Planner.tsx:405 and 904), the controlled inputs of the trip, activity, expense, budget and profile forms, the packing list's category tabs (PackingList.tsx:346) and its item and list-name inputs (PackingList.tsx:235), and the budget's category-filter select (BudgetTracker.tsx:649). The currency, search and facet setters, and the Plan Activity button (Planner.tsx:729, see Findings), are modelled as methods.
- BudgetTracker: `spentPercentage` and the progress-bar width are not modelled.
- Typewriter: a change of the `text` prop mid-typing is not modelled.
- UserProfile: the inline edit inputs are not modelled. The travel-style, bucket-list and language inputs (UserProfile.tsx:443-445, 617-619, 752-754) copy the array and assign a string, so they touch only the copy. The country name and year inputs (UserProfile.tsx:538-540, 552-554) copy only the array and then assign into the country objects, which `tempProfile` shares with `profile` through the shallow copies `{...profile}` at lines 92 and 356.
- UserProfile.CancelDiscardsEdits: holds for the value model only. On the page, a country name or year typed in edit mode is written into an object that `profile` also holds, so it survives Cancel. The model copies values and cannot show that aliasing.
- UserProfile.ProfilePage.StartEditing: follows the corrected Edit button (see Findings). The as-written button is modelled by `UserProfile.EnterEditAsWritten`.
- Planner.PlannerPage.PlanActivity: follows the corrected Plan Activity button (see Findings). The as-written button is `Planner.AfterPlanActivityAsWritten`.
- Planner: the code does not check that a trip's start precedes its end (ReversedDatesAccepted); the model follows the code.

## Findings

| source | as written | input that shows it | evidently intended | confidence | as-written member | corrected member |
|---|---|---|---|---|---|---|
| src/pages/Planner.tsx:36-46 | the emoji literals are UTF-8 bytes decoded as Mac OS Roman, e.g. the pin is U+F8FF U+FC U+EC U+E5 | any activity type, e.g. "other" | 🏛️, 🍽️, 🚌, 🏨 and 📌 | not executed | PlannerModel.MisEncodedEmoji | PlannerModel.ActivityEmojiTable |
| src/pages/Planner.tsx:729 | Plan Activity only sets `showNewActivityForm`, keeping the draft and `editingActivityId` | edit an activity, close the form with the toggle, pick a day with no activities, click Plan Activity, enter a title and time, save: nothing is added | open the form empty in add mode, as the toggle does at lines 599-610 | not executed | Planner.PlanActivityDropsNew | Planner.PlanActivityAddsNew |
| src/pages/UserProfile.tsx:371 | Edit Profile only sets edit mode, so the copy keeps whatever it held | toggle a favourite in view mode, then Edit, then Save: the toggle is undone | edit a fresh copy of the current profile, as Cancel does at lines 354-357 | not executed | UserProfile.EditSaveLosesFavorite | UserProfile.EditSaveKeepsProfile |
