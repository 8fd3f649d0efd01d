# TimeBox planner — a Dafny model of its sheet logic

TimeBox is a daily planner web application. Each calendar day has at most one
*sheet*. A sheet holds a ranked list of one to ten priorities, a schedule of
half-hour slots and a free-form "brain dump". Guests keep their sheets in the
browser's local storage under one key. Signed-in users keep them on the server
through a small REST API, which also stores each user's preferred day window
(start hour and end hour).

This project models the application logic of its pages, components and API
handlers, verified in Dafny 4.11:

- `time_box_sheet.dfy` (module `TimeBoxSheet`) is the sheet editor. It has the
  12-hour labels of the preference window, the check that resizes the grid to
  two slots per hour row, the row-to-slot mapping, and the whole-sheet
  transformations the editor hands to `updateSheet`.
- `sheet_list.dfy` (module `SheetList`) holds the collection operations both
  pages use: find by day, list of days, remove by id and replace by id. It also
  states the one-sheet-per-day invariant and proves that these operations keep it.
- `guest_page.dfy` (module `GuestPage`) is the guest page as a class. Its fields
  are the collection, the active sheet, the last toast and the local-storage
  slot.
- `home_page.dfy` (module `HomePage`) is the signed-in page as a class. Each
  operation takes the outcome of its API call as a parameter and returns the
  request it sends.
- `sidebar.dfy` (module `Sidebar`) covers the newest-first sheet list, the
  highlighted row and the sheet waiting for delete confirmation.
- `date_picker.dfy` (module `DatePicker`) covers the Monday-first week, week
  navigation, days blocked because they already have a sheet, and the
  "create" guard.
- `sheets_api.dfy` and `preferences_api.dfy` are the two server handlers. Each
  is a method over a table object.
- `ordering.dfy` (module `Ordering`) is the stable newest-first sort used by
  the sidebar and by the GET listing.
- `decimal.dfy` (module `Decimal`) is the decimal rendering of numbers inside
  hour labels.
- `domain.dfy` (module `Domain`) holds the shared values: sheets, slots, toasts
  and remote outcomes.

Abstractions used throughout:

- Calendar days are integer day numbers (`Day`). Day 0 is Thursday 1 January
  1970, so the Monday-first weekday is `(day + 3) % 7`.
- Values from the clock are parameters of the operations that use them: ids
  from `Date.now()`, `createdAt` timestamps, the day label produced by
  date-fns, and the ids the store assigns.
- The result of an awaited API call is a `Remote<T>` parameter: `Done(value)`
  or `Failed`.
- The local-storage slot holds the collection value itself.
- A toast is recorded only by its kind.
- A server session is an optional user id.
- One boolean, `storeDown`, stands for a store call that throws.

Behaviour of the code worth knowing:

- A new guest sheet has 18 slots and the sheet the signed-in page asks for has
  24. Neither size comes from the preference window. With the default window
  (8 to 18, eleven rows, 22 slots), the editor's size check replaces either
  grid with 22 blank slots the first time the sheet is shown
  (`GuestPage.NewGuestSheetIsResized`).
- Stored data that does not parse makes `JSON.parse` throw. It does not give an
  empty collection. The model has no unparsable storage (see below).
- Nothing checks that the start hour is at most the end hour. A window with
  start after end has zero rows, and the size check then empties the grid of
  every sheet shown (`TimeBoxSheet.CheckGrid` with `rows == 0`).
- On the signed-in page the resized sheet becomes the active sheet only when
  its PUT succeeds. While the PUT fails, every render runs the size check
  again and sends the same request again. The error toast that the failure
  sets causes such a render (`HomePage.FailedResizeRepeats`).

## Model

| member | source | states |
|---|---|---|
| `TimeBoxSheet.RowCount` | components/TimeBoxSheet.js:14 | the number of rows of the window, which `GenerateHours` produces one label each for |
| `TimeBoxSheet.HourLabel` | components/TimeBoxSheet.js:15-23 | every label is a numeral followed by " AM" for hours before noon and " PM" from noon on; `HourLabelRoundTrip` pins down the numeral |
| `TimeBoxSheet.GenerateHours` | components/TimeBoxSheet.js:9-27 | one label per hour from start to end inclusive, row i labelled for hour `startHour + i` |
| `TimeBoxSheet.HourLabelRoundTrip` | components/TimeBoxSheet.js:15-23 | for every hour 0..23 the label reads back as that hour: 0 is "12 AM", 1–11 are "h AM", 12 is "12 PM", 13–23 are "h−12 PM" |
| `TimeBoxSheet.HourLabelInjective` | components/TimeBoxSheet.js:15-23 | two different hours of a day never share a label |
| `TimeBoxSheet.GeneratedLabelsDistinct` | components/TimeBoxSheet.js:9-27 | for a window inside 0..23 no two rows of the grid carry the same label |
| `Decimal.IntText` | components/TimeBoxSheet.js:18-22 | `${n}` is a minus sign for negatives followed by the numeral of the magnitude, which `ParseDigitsOfDigits` reads back |
| `Decimal.ParseDigitsOfDigits` | components/TimeBoxSheet.js:18-22 | reading a rendered numeral back gives the number |
| `TimeBoxSheet.CheckGrid` | components/TimeBoxSheet.js:32-35 | an update is emitted iff the grid length differs from twice the row count; it has exactly that many blank slots and every other field unchanged |
| `TimeBoxSheet.CheckGridSettles` | components/TimeBoxSheet.js:32-35 | once applied, the resized sheet passes the check, so no further resize is emitted for it |
| `TimeBoxSheet.SlotIndex` | components/TimeBoxSheet.js:183-192 | the ":00" input of row r uses slot 2r and the ":30" input slot 2r+1, and the slot determines row and half |
| `TimeBoxSheet.SlotsCoverGrid` | components/TimeBoxSheet.js:177-195 | every slot below 2n belongs to a row below n |
| `TimeBoxSheet.SlotIndexInjective` | components/TimeBoxSheet.js:177-195 | two inputs of the grid never share a slot |
| `TimeBoxSheet.CellTask` | components/TimeBoxSheet.js:183-191 | an input shows its slot's task, or "" past the end of the grid; `ChangeHourShows` relates it to typing |
| `TimeBoxSheet.ChangeHour` | components/TimeBoxSheet.js:66-77 | only the chosen field of slot i changes; its other field, the other slots, the grid length and the other sheet fields are kept |
| `TimeBoxSheet.ChangeHourShows` | components/TimeBoxSheet.js:180-195 | after typing into an input, that input shows the text and every other input shows what it showed before |
| `TimeBoxSheet.StandupScenario` | components/TimeBoxSheet.js:32-77 | a window of 9 to 11 gives 6 slots, and after setting slot 0's task to "standup" that slot is {task "standup", notes ""} |
| `TimeBoxSheet.ChangePriority` | components/TimeBoxSheet.js:37-45 | only position i is set; the length, the other priorities and the other fields are kept |
| `TimeBoxSheet.AddPriority` | components/TimeBoxSheet.js:47-54 | an update is emitted iff there are fewer than 10 priorities, and it appends exactly one "" to the list |
| `TimeBoxSheet.WithoutIndex` | components/TimeBoxSheet.js:58 | the filter drops exactly position i and keeps the rest in order, or drops nothing when i is past the end |
| `TimeBoxSheet.RemovePriority` | components/TimeBoxSheet.js:56-64 | an update is emitted iff more than one priority is left, and it holds the filtered list and every other field unchanged |
| `TimeBoxSheet.WithoutIndexRestore` | components/TimeBoxSheet.js:58 | putting the removed priority back at i restores the original list |
| `TimeBoxSheet.ChangeBrainDump` | components/TimeBoxSheet.js:79-84 | only the brain dump changes |
| `TimeBoxSheet.PriorityCountPreserved` | components/TimeBoxSheet.js:37-84 | no editor update takes the priority count out of [1, 10] |
| `TimeBoxSheet.IdentityPreserved` | components/TimeBoxSheet.js:32-77 | no editor update changes a sheet's id, day, label or creation time |
| `SheetList.FindByDate` | pages/guest.js:43 | the result is the first sheet for the day, or none exactly when no sheet is for it |
| `SheetList.Dates` | pages/guest.js:141 | the days of the sheets, position by position; `InDatesIff` gives its meaning for the picker |
| `SheetList.InDatesIff` | pages/guest.js:141 | a day is among the listed days iff some sheet is for it |
| `SheetList.RemoveById` | pages/guest.js:25 | keeps exactly the sheets whose id differs; unchanged when no sheet has the id, shorter when one has |
| `SheetList.RemoveByIdSingle` | pages/guest.js:25 | on one sheet the filter keeps it exactly when its id differs |
| `SheetList.RemoveByIdCons` | pages/guest.js:25 | the filter of a sheet followed by more is that sheet when kept, then the filtered rest |
| `SheetList.RemoveByIdAppend` | pages/guest.js:25 | filtering a concatenation concatenates the filtered parts, so the kept sheets keep their order and number, as `filter` does |
| `SheetList.RemoveByIdMiddle` | pages/guest.js:24-31 | deleting the middle one of three sheets leaves the outer two, in order |
| `SheetList.RemoveByIdIdempotent` | pages/guest.js:25 | removing the same id twice equals removing it once |
| `SheetList.ReplaceById` | pages/guest.js:88-90 | same length; each sheet with the id is replaced by the new one and the others are kept in place |
| `SheetList.RemoveByIdKeepsUniqueDates` | pages/guest.js:24-31 | deleting keeps one sheet per day |
| `SheetList.AppendKeepsUniqueDates` | pages/guest.js:43-72 | appending a sheet for a day that has none keeps one sheet per day |
| `SheetList.ReplaceByIdKeepsUniqueDates` | pages/guest.js:85-94 | replacing by a sheet with the same day keeps one sheet per day |
| `SheetList.ReplaceByIdThenFind` | pages/guest.js:85-94 | after an update the day's lookup yields the new sheet and other days' lookups are unchanged |
| `SheetList.UniqueFind` | pages/guest.js:43 | with one sheet per day, the lookup of a sheet's day yields that sheet |
| `SheetList.FindAgreement` | pages/guest.js:43 | the lookup depends only on the sheets for that day |
| `GuestPage.NewGuestSheet` | pages/guest.js:54-65 | a new guest sheet has the given id, day, label and time, priorities [""], 18 blank slots and an empty brain dump |
| `GuestPage.NewGuestSheetIsResized` | pages/guest.js:59-62 | 18 slots do not fit the default window, so the editor re-emits the sheet with 22 blank slots |
| `GuestPage.GuestPage.constructor` | pages/guest.js:11-22 | on mount the collection is the stored value when the key is present and empty otherwise; storage and memory agree |
| `GuestPage.GuestPage.DeleteSheet` | pages/guest.js:24-37 | removes every sheet with the id, persists the result, clears the active sheet only if it had that id, keeps one sheet per day |
| `GuestPage.GuestPage.CreateNewSheet` | pages/guest.js:39-78 | a day that has a sheet: that sheet becomes active with a warning, nothing changes or is persisted; otherwise the new sheet is appended, persisted and active; one sheet per day is kept and the day then has a sheet |
| `GuestPage.GuestPage.UpdateSheet` | pages/guest.js:85-94 | replaces by id, persists, makes the sheet active, keeps one sheet per day when the day is unchanged |
| `GuestPage.CreateTwice` | pages/guest.js:43-72 | creating one day twice leaves one sheet, the first one active and a warning |
| `HomePage.NewSheetBody` | pages/index.js:87-92 | the create request carries the day, priorities [""], 24 blank slots and an empty brain dump |
| `HomePage.UpdateRequestFor` | pages/index.js:117-121 | the update request names the sheet's id and carries only priorities, hours and brain dump |
| `HomePage.UpdateBodyIgnoresIdentity` | pages/index.js:117-121 | the update body does not depend on id, day, label or creation time |
| `HomePage.HomePage.constructor` | pages/index.js:17-22 | empty collection, no active sheet, no toast, loading |
| `HomePage.HomePage.Load` | pages/index.js:32-45 | a successful fetch replaces the collection; a failed one keeps it and sets an error toast; loading ends either way |
| `HomePage.HomePage.HandleDeleteSheet` | pages/index.js:47-67 | on success filters out the id and clears a matching active sheet; on failure changes nothing but the error toast |
| `HomePage.HomePage.CreateNewSheet` | pages/index.js:69-108 | a day that has a sheet: no request, that sheet active, warning; otherwise the create request is sent, and on success the returned sheet is appended and active, on failure nothing changes but the error toast |
| `HomePage.HomePage.HandleUpdateSheet` | pages/index.js:115-134 | sends only the editable fields; on success the returned sheet replaces the one with its id and becomes active; on failure nothing changes but the error toast |
| `HomePage.FailedResizeRepeats` | pages/index.js:115-134 | after a failed resize PUT the active sheet is still the unresized one, so the size check emits the same request again, and an error toast is set |
| `Ordering.Insert` | components/Sidebar.js:18 | inserting adds exactly one element |
| `Ordering.InsertSorted` | components/Sidebar.js:18 | inserting into a newest-first sequence keeps it newest first |
| `Ordering.SortDesc` | components/Sidebar.js:18 | a permutation of the input with keys never increasing |
| `Ordering.SortDescOfSorted` | components/Sidebar.js:18 | an already ordered list is left as it is |
| `Ordering.SortDescMembers` | components/Sidebar.js:18 | the sort keeps exactly the given elements |
| `Ordering.SortDescDistinct` | components/Sidebar.js:18 | sorting keeps keys distinct |
| `Ordering.SortDescStrict` | components/Sidebar.js:18 | with distinct keys the order is strictly decreasing |
| `Sidebar.SortedSheets` | components/Sidebar.js:18 | the rows are a permutation of the sheets, newest day first |
| `Sidebar.SortedSheetsStrict` | components/Sidebar.js:18 | with one sheet per day each row is for an earlier day than the row above |
| `Sidebar.IsActiveRow` | components/Sidebar.js:91-94 | the active sheet's own row is highlighted, and no row is when there is no active sheet |
| `Sidebar.AtMostOneActiveRow` | components/Sidebar.js:91-94 | with distinct ids at most one row is highlighted |
| `Sidebar.ActiveSheetRowHighlighted` | components/Sidebar.js:81-96 | with distinct ids, a listed active sheet appears among the sorted rows, and a row is highlighted iff it is that sheet |
| `Sidebar.Sidebar.constructor` | components/Sidebar.js:17 | nothing is pending deletion at first |
| `Sidebar.Sidebar.HandleDeleteClick` | components/Sidebar.js:20-23 | exactly the clicked sheet becomes pending |
| `Sidebar.Sidebar.ConfirmDelete` | components/Sidebar.js:25-30 | hands the pending sheet's id to `onDeleteSheet` once, or does nothing when none is pending; nothing is pending afterwards |
| `Sidebar.Sidebar.CancelDelete` | components/Sidebar.js:150 | cancelling forgets the pending sheet |
| `Sidebar.ClickThenConfirm` | components/Sidebar.js:20-30 | click then confirm deletes exactly the clicked sheet's id |
| `DatePicker.Weekday` | components/DatePickerModal.js:13 | the weekday is in 0..6, Monday first |
| `DatePicker.StartOfWeek` | components/DatePickerModal.js:13 | the Monday on or before the day, less than a week before it |
| `DatePicker.EndOfWeek` | components/DatePickerModal.js:14 | the Sunday on or after the day, less than a week after it |
| `DatePicker.StartOfWeekUnique` | components/DatePickerModal.js:13-14 | all days of a week have the same Monday |
| `DatePicker.WeekShift` | components/DatePickerModal.js:46-57 | moving seven days moves to the neighbouring week |
| `DatePicker.GetDaysInWeek` | components/DatePickerModal.js:12-24 | seven consecutive days from Monday to Sunday, each one after the previous, containing the given day |
| `DatePicker.ExistingDatesAreSheetDays` | components/DatePickerModal.js:8-10 | a day is blocked iff the collection has a sheet for it |
| `DatePicker.ChosenDayHasNoSheet` | components/DatePickerModal.js:103-105 | a day the picker hands over takes the page's creating branch, not the duplicate branch |
| `DatePicker.DatePickerModal.HasExistingTimeBox` | components/DatePickerModal.js:8-10 | a day is disabled iff some entry of `existingDates` is that day |
| `DatePicker.DatePickerModal.constructor` | components/DatePickerModal.js:6 | the picker opens on today |
| `DatePicker.DatePickerModal.WeekDays` | components/DatePickerModal.js:26 | the week shown is the selected day's week |
| `DatePicker.DatePickerModal.PreviousWeek` | components/DatePickerModal.js:46 | the selection moves back exactly 7 days, into the previous week |
| `DatePicker.DatePickerModal.NextWeek` | components/DatePickerModal.js:57 | the selection moves forward exactly 7 days, into the next week |
| `DatePicker.DatePickerModal.ClickDay` | components/DatePickerModal.js:80-81 | clicking a day that has a sheet leaves the selection unchanged; any other day becomes selected |
| `DatePicker.DatePickerModal.Create` | components/DatePickerModal.js:103-105 | the selected day is handed over iff it has no sheet |
| `SheetsApi.RowsOf` | pages/api/sheets/index.js:21-24 | exactly the rows whose user id is the caller's |
| `SheetsApi.Listing` | pages/api/sheets/index.js:19-25 | exactly the caller's rows, newest day first |
| `SheetsApi.ListingStrict` | pages/api/sheets/index.js:21-24 | with the unique (user, date) index, each listed row is for an earlier day than the one above |
| `SheetsApi.RowsOfDistinctDates` | pages/api/sheets/index.js:35-42 | the caller's rows have distinct days |
| `SheetsApi.FindRow` | pages/api/sheets/index.js:35-42 | finds the caller's row for the day, or none exactly when there is none |
| `SheetsApi.Handler` | pages/api/sheets/index.js:9-67 | no session: 401 and the table is untouched; GET: 200 with the caller's rows newest first; POST for an existing (user, date): 400, unchanged; other POST: 201 and exactly one row added with the body's fields under the caller's id; other methods: 405 with `Allow: GET, POST`; a store failure: 500, unchanged; the unique index always holds |
| `SheetsApi.PostTwice` | pages/api/sheets/index.js:35-58 | posting one day twice gives 201 and then 400 |
| `PreferencesApi.GetOrCreate` | pages/api/preferences.js:20-37 | an existing record is returned unchanged; otherwise {8, 18, true, "system"} is created and returned; other users' records are untouched |
| `PreferencesApi.GetOrCreateIdempotent` | pages/api/preferences.js:20-37 | a second GET returns the same record and creates nothing |
| `PreferencesApi.Upsert` | pages/api/preferences.js:44-58 | the caller's record holds exactly the four given fields whether or not it existed; other users' records are untouched |
| `PreferencesApi.UpsertThenGet` | pages/api/preferences.js:44-58 | a GET after a PUT returns what was put |
| `PreferencesApi.Handler` | pages/api/preferences.js:8-66 | no session: 401; GET: 200 with get-or-create; PUT: 200 with the upsert; other methods: 405 with `Allow: GET, PUT`; a store failure: 500 with the table untouched |
| `PreferencesApi.GetTwice` | pages/api/preferences.js:20-37 | a new user's two GETs both return the defaults, and one record is created |

## Left out

- `TimeBoxSheet.ChangePriority` and `TimeBoxSheet.ChangeHour` require an index inside the list. For priorities the editor only passes the index of a rendered priority. For the schedule it does not: the rows come from the preference window, not from `sheet.hours`. For example, a 24-slot sheet shown under a window of more than 12 rows, such as 6 to 20, shows inputs for slots 24 and up until its resize PUT succeeds, and typing into one of them writes past the end of the array. Writing past the end of a JavaScript array, which leaves holes, is not modelled.
- `Ordering.SortDesc`: stability is not proved. Stability means sheets for the same day keep their input order, as `Array.prototype.sort` does. The sort is written as a stable insertion sort.
- The sidebar sorts a copy (`[...sheets]`). Because Dafny sequences are values, the caller's collection can never be reordered, so no contract states it.
- JSON encoding of the local-storage slot is not modelled. The slot holds the collection itself. So the round trip from storage and back is the identity by construction, and unparsable stored text (which makes `JSON.parse` throw) cannot be expressed.
- Date handling is abstracted to day numbers: date-fns formatting, the Spanish labels, `startOfDay`, `isToday`, time zones and daylight-saving shifts. In particular, pages/index.js compares `format(new Date(sheet.date), 'yyyy-MM-dd')` and the model compares day numbers.
- Toasts are kept only as their kind. Their text and their timer-driven dismissal (components/Toast.js) are not modelled. `console.error` logging is also left out.
- lib/api.js (the HTTP calls) is replaced by `Remote<T>` outcome parameters. The client treats every non-OK status alike, and the model does the same.
- pages/api/sheets/[id].js (the PUT and DELETE handlers behind update and delete) is not part of this model. Note that it does not check that the sheet belongs to the caller.
- `SheetsApi.Handler` and `PreferencesApi.Handler` model every store error as one `storeDown` flag. The error is raised at the request's first store call, and nothing is written. Request-body validation is not modelled: in a POST to `/api/sheets`, an unparsable date or missing fields make Prisma throw, which gives 500.
- `PreferencesApi.Upsert` only takes a full body. A PUT that leaves fields out cannot be expressed. In the code, Prisma's `update` keeps the stored value of a field that is `undefined`, so such a PUT on an existing record gives 200 and changes only the fields it sends.
- The check-then-create race between concurrent POSTs is not modelled. So is the sequencing of overlapping async handlers in pages/index.js, whose handlers read `sheets` from the render that created them. Operations are modelled as running one after another.
- The preferences provider (pages/_app.js, contexts/PreferencesContext.js) is not modelled. Its preference strings '8' and '18' are taken as the integers 8 and 18, and `parseInt` is not modelled. The local `updatePreferences` in pages/_app.js calls itself without end and is not modelled.
- Pure UI state is not modelled: the sidebar open flag, the date-picker visibility flag, the redirect of unauthenticated users and the loading spinner's status check. All markup and styling is left out too.
