/**
 * The signed-in planner page (pages/index.js). Each change is first sent to
 * the sheet API; page state changes only after the call succeeds, and a
 * failed call leaves the collection and the active sheet as they were and
 * sets an error toast.
 *
 * The awaited outcome of each API call is a parameter (`Remote`); the request
 * the page sends is returned, `None` when the page sends none.
 */
module HomePage {
  import opened Domain
  import opened SheetList
  import TimeBoxSheet

  /** Number of half-hour slots the page asks the server to create a sheet with. */
  const RemoteSlotCount := 24

  /** Body of `POST /api/sheets`. */
  datatype CreateBody = CreateBody(date: Day, priorities: seq<string>, hours: seq<Slot>, brainDump: string)

  /** Body of `PUT /api/sheets/{id}`: the editable fields and nothing else. */
  datatype UpdateBody = UpdateBody(priorities: seq<string>, hours: seq<Slot>, brainDump: string)

  datatype UpdateRequest = UpdateRequest(id: SheetId, body: UpdateBody)

  /** The body sent to create the sheet for `day`. */
  function NewSheetBody(day: Day): (b: CreateBody)
    ensures b.date == day && b.priorities == [""] && b.brainDump == ""
    ensures |b.hours| == RemoteSlotCount && AllBlank(b.hours)
  {
    CreateBody(day, [""], seq(RemoteSlotCount, _ => BlankSlot), "")
  }

  /** The request sent for an edited sheet: its id in the path, its editable fields in the body. */
  function UpdateRequestFor(s: Sheet): (r: UpdateRequest)
    ensures r.id == s.id
    ensures r.body.priorities == s.priorities && r.body.hours == s.hours && r.body.brainDump == s.brainDump
  {
    UpdateRequest(s.id, UpdateBody(s.priorities, s.hours, s.brainDump))
  }

  /** The body never carries the id, day, label or creation time: sheets that agree on the editable fields send the same body. */
  lemma UpdateBodyIgnoresIdentity(a: Sheet, b: Sheet)
    requires a.priorities == b.priorities && a.hours == b.hours && a.brainDump == b.brainDump
    ensures UpdateRequestFor(a).body == UpdateRequestFor(b).body
  {
  }

  class HomePage {
    var sheets: seq<Sheet>
    var activeSheet: Option<Sheet>
    var toast: Option<ToastKind>
    var loading: bool

    constructor ()
      ensures sheets == [] && activeSheet == None && toast == None && loading
    {
      sheets := [];
      activeSheet := None;
      toast := None;
      loading := true;
    }

    /** The load once a session exists: `fetchSheets()` fills the collection or sets an error toast. */
    method Load(fetched: Remote<seq<Sheet>>)
      modifies this
      ensures fetched.Done? ==> sheets == fetched.value && toast == old(toast)
      ensures fetched.Failed? ==> sheets == old(sheets) && toast == Some(Error)
      ensures activeSheet == old(activeSheet) && !loading
    {
      if fetched.Done? {
        sheets := fetched.value;
      } else {
        toast := Some(Error);
      }
      loading := false;
    }

    /** Deletes `sheetId` on the server, then locally once the server has done so. */
    method HandleDeleteSheet(sheetId: SheetId, deleted: Remote<()>)
      modifies this
      ensures deleted.Done? ==>
        && sheets == RemoveById(old(sheets), sheetId)
        && activeSheet == (if old(activeSheet).Some? && old(activeSheet).value.id == sheetId then None else old(activeSheet))
        && toast == Some(Success)
      ensures deleted.Failed? ==>
        sheets == old(sheets) && activeSheet == old(activeSheet) && toast == Some(Error)
      ensures UniqueDates(old(sheets)) ==> UniqueDates(sheets)
      ensures loading == old(loading)
    {
      if deleted.Failed? {
        toast := Some(Error);
        return;
      }
      sheets := RemoveById(sheets, sheetId);
      if activeSheet.Some? && activeSheet.value.id == sheetId {
        activeSheet := None;
      }
      toast := Some(Success);
      if UniqueDates(old(sheets)) {
        RemoveByIdKeepsUniqueDates(old(sheets), sheetId);
      }
    }

    /**
     * Opens the sheet for `day`; when the day has none, asks the server to
     * create it and shows what the server returns (`created`).
     */
    method CreateNewSheet(day: Day, created: Remote<Sheet>) returns (request: Option<CreateBody>)
      modifies this
      ensures request.Some? <==> FindByDate(old(sheets), day).None?
      ensures request.Some? ==> request.value == NewSheetBody(day)
      ensures FindByDate(old(sheets), day).Some? ==>
        && activeSheet == FindByDate(old(sheets), day)
        && toast == Some(Warning) && sheets == old(sheets)
      ensures request.Some? && created.Done? ==>
        && sheets == old(sheets) + [created.value]
        && activeSheet == Some(created.value)
        && toast == Some(Success)
      ensures request.Some? && created.Failed? ==>
        sheets == old(sheets) && activeSheet == old(activeSheet) && toast == Some(Error)
      ensures UniqueDates(old(sheets)) && (created.Done? ==> created.value.date == day) ==> UniqueDates(sheets)
      ensures loading == old(loading)
    {
      var existing := FindByDate(sheets, day);
      if existing.Some? {
        activeSheet := existing;
        toast := Some(Warning);
        return None;
      }
      request := Some(NewSheetBody(day));
      if created.Failed? {
        toast := Some(Error);
        return;
      }
      var newSheet := created.value;
      sheets := sheets + [newSheet];
      activeSheet := Some(newSheet);
      toast := Some(Success);
      if UniqueDates(old(sheets)) && newSheet.date == day {
        AppendKeepsUniqueDates(old(sheets), newSheet);
      }
    }

    /**
     * Sends the editable fields of `updatedSheet` to the server; on success the
     * sheet the server returns (`saved`) replaces the one with its id and
     * becomes the active sheet.
     */
    method HandleUpdateSheet(updatedSheet: Sheet, saved: Remote<Sheet>) returns (request: UpdateRequest)
      modifies this
      ensures request == UpdateRequestFor(updatedSheet)
      ensures saved.Done? ==> sheets == ReplaceById(old(sheets), saved.value) && activeSheet == Some(saved.value) && toast == old(toast)
      ensures saved.Failed? ==> sheets == old(sheets) && activeSheet == old(activeSheet) && toast == Some(Error)
      ensures UniqueDates(old(sheets))
              && (saved.Done? ==> forall k :: 0 <= k < |old(sheets)| && old(sheets)[k].id == saved.value.id ==> old(sheets)[k].date == saved.value.date)
              ==> UniqueDates(sheets)
      ensures loading == old(loading)
    {
      request := UpdateRequestFor(updatedSheet);
      if saved.Failed? {
        toast := Some(Error);
        return;
      }
      var updated := saved.value;
      sheets := ReplaceById(sheets, updated);
      activeSheet := Some(updated);
      if UniqueDates(old(sheets)) && forall k :: 0 <= k < |old(sheets)| && old(sheets)[k].id == updated.id ==> old(sheets)[k].date == updated.date {
        ReplaceByIdKeepsUniqueDates(old(sheets), updated);
      }
    }
  }

  /**
   * The editor's size check runs on every render and hands its resized sheet
   * to `HandleUpdateSheet`. When the PUT fails, the active sheet stays the
   * unresized one, so the next render (the error toast causes one) emits the
   * same resize request again.
   */
  method FailedResizeRepeats(page: HomePage, rows: nat) returns (request: UpdateRequest)
    requires page.activeSheet.Some? && TimeBoxSheet.CheckGrid(page.activeSheet.value, rows).Some?
    modifies page
    ensures request == UpdateRequestFor(TimeBoxSheet.CheckGrid(old(page.activeSheet).value, rows).value)
    ensures page.activeSheet == old(page.activeSheet) && page.toast == Some(Error)
    ensures TimeBoxSheet.CheckGrid(page.activeSheet.value, rows) == TimeBoxSheet.CheckGrid(old(page.activeSheet).value, rows)
  {
    var resized := TimeBoxSheet.CheckGrid(page.activeSheet.value, rows).value;
    request := page.HandleUpdateSheet(resized, Failed);
  }
}
