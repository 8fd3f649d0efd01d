/**
 * The guest planner page (pages/guest.js): the sheet collection, the active
 * sheet and the last toast live in page state, and every change to the
 * collection is written in full to the `timeBoxSheets_guest` slot of the
 * browser's local storage.
 */
module GuestPage {
  import opened Domain
  import opened SheetList
  import TimeBoxSheet

  /** Number of half-hour slots a new guest sheet starts with. */
  const GuestSlotCount := 18

  /** A new guest sheet: one blank priority, 18 blank slots, empty notes. */
  function NewGuestSheet(id: SheetId, day: Day, formattedDate: string, createdAt: int): (s: Sheet)
    ensures s.id == id && s.date == day && s.formattedDate == formattedDate && s.createdAt == createdAt
    ensures s.priorities == [""] && TimeBoxSheet.PriorityCountOk(s)
    ensures |s.hours| == GuestSlotCount && AllBlank(s.hours)
    ensures s.brainDump == ""
  {
    Sheet(id, day, formattedDate, [""], seq(GuestSlotCount, _ => BlankSlot), "", createdAt)
  }

  /**
   * Eighteen slots do not fit the default window of 8 to 18 (eleven rows,
   * 22 slots), so the editor re-emits a new guest sheet with a blank grid of
   * 22 slots the first time it shows it.
   */
  lemma NewGuestSheetIsResized(id: SheetId, day: Day, formattedDate: string, createdAt: int)
    ensures var resized := TimeBoxSheet.CheckGrid(NewGuestSheet(id, day, formattedDate, createdAt),
                                                  TimeBoxSheet.RowCount(TimeBoxSheet.DefaultStartHour, TimeBoxSheet.DefaultEndHour));
            resized.Some? && |resized.value.hours| == 22 && AllBlank(resized.value.hours)
  {
  }

  class GuestPage {
    var sheets: seq<Sheet>
    var activeSheet: Option<Sheet>
    var toast: Option<ToastKind>
    /** The `timeBoxSheets_guest` storage slot; `None` while the key is absent. */
    var storage: Option<seq<Sheet>>

    /** What is stored is what is shown (nothing is stored only while nothing is shown). */
    ghost predicate Synced()
      reads this
    {
      storage == Some(sheets) || (storage == None && sheets == [])
    }

    /** Mounting the page: the collection is whatever the storage slot holds, or empty. */
    constructor (saved: Option<seq<Sheet>>)
      ensures sheets == (if saved.Some? then saved.value else [])
      ensures storage == saved && activeSheet == None && toast == None
      ensures Synced()
    {
      sheets := [];
      activeSheet := None;
      toast := None;
      storage := saved;
      if saved.Some? {
        sheets := saved.value;
      }
    }

    /** Deletes every sheet with id `sheetId` and persists the rest. */
    method DeleteSheet(sheetId: SheetId)
      requires Synced()
      modifies this
      ensures sheets == RemoveById(old(sheets), sheetId)
      ensures forall s :: s in sheets ==> s.id != sheetId
      ensures storage == Some(sheets) && Synced()
      ensures activeSheet == if old(activeSheet).Some? && old(activeSheet).value.id == sheetId then None else old(activeSheet)
      ensures toast == Some(Success)
      ensures UniqueDates(old(sheets)) ==> UniqueDates(sheets)
    {
      var updated := RemoveById(sheets, sheetId);
      sheets := updated;
      storage := Some(updated);
      if activeSheet.Some? && activeSheet.value.id == sheetId {
        activeSheet := None;
      }
      toast := Some(Success);
      if UniqueDates(old(sheets)) {
        RemoveByIdKeepsUniqueDates(old(sheets), sheetId);
      }
    }

    /**
     * Opens the sheet for `day`, creating it if the day has none. `freshId`,
     * `formattedDate` and `now` stand for `Date.now()`, the date label and the
     * creation timestamp.
     */
    method CreateNewSheet(day: Day, freshId: SheetId, formattedDate: string, now: int)
      requires Synced()
      modifies this
      ensures Synced()
      ensures FindByDate(old(sheets), day).Some? ==>
        && activeSheet == FindByDate(old(sheets), day)
        && toast == Some(Warning)
        && sheets == old(sheets) && storage == old(storage)
      ensures FindByDate(old(sheets), day).None? ==>
        && sheets == old(sheets) + [NewGuestSheet(freshId, day, formattedDate, now)]
        && storage == Some(sheets)
        && activeSheet == Some(NewGuestSheet(freshId, day, formattedDate, now))
        && toast == Some(Success)
      ensures UniqueDates(old(sheets)) ==> UniqueDates(sheets)
      ensures HasDate(sheets, day)
    {
      var existing := FindByDate(sheets, day);
      if existing.Some? {
        activeSheet := existing;
        toast := Some(Warning);
        return;
      }
      var newSheet := NewGuestSheet(freshId, day, formattedDate, now);
      activeSheet := Some(newSheet);
      var updated := sheets + [newSheet];
      storage := Some(updated);
      sheets := updated;
      toast := Some(Success);
      if UniqueDates(old(sheets)) {
        AppendKeepsUniqueDates(old(sheets), newSheet);
      }
      assert sheets[|sheets| - 1].date == day;
    }

    /** Replaces the sheets with the id of `updatedSheet`, persists, and shows it. */
    method UpdateSheet(updatedSheet: Sheet)
      requires Synced()
      modifies this
      ensures activeSheet == Some(updatedSheet)
      ensures sheets == ReplaceById(old(sheets), updatedSheet)
      ensures storage == Some(sheets) && Synced()
      ensures toast == old(toast)
      ensures UniqueDates(old(sheets)) && (forall k :: 0 <= k < |old(sheets)| && old(sheets)[k].id == updatedSheet.id ==> old(sheets)[k].date == updatedSheet.date)
              ==> UniqueDates(sheets)
    {
      activeSheet := Some(updatedSheet);
      var updated := ReplaceById(sheets, updatedSheet);
      storage := Some(updated);
      sheets := updated;
      if UniqueDates(old(sheets)) && (forall k :: 0 <= k < |old(sheets)| && old(sheets)[k].id == updatedSheet.id ==> old(sheets)[k].date == updatedSheet.date) {
        ReplaceByIdKeepsUniqueDates(old(sheets), updatedSheet);
      }
    }
  }

  /**
   * Creating the same day twice: the second call shows the first sheet,
   * warns, and the collection still holds one sheet.
   */
  method CreateTwice(day: Day, id1: SheetId, id2: SheetId, formattedDate: string, now: int) returns (page: GuestPage)
    ensures |page.sheets| == 1
    ensures page.activeSheet == Some(NewGuestSheet(id1, day, formattedDate, now))
    ensures page.toast == Some(Warning)
    ensures page.storage == Some(page.sheets)
  {
    page := new GuestPage(None);
    page.CreateNewSheet(day, id1, formattedDate, now);
    assert page.sheets == [NewGuestSheet(id1, day, formattedDate, now)];
    page.CreateNewSheet(day, id2, formattedDate, now);
  }
}
