/**
 * The sheet list in the sidebar (components/Sidebar.js): a copy of the
 * collection sorted newest first, the highlight of the active row, and the
 * sheet waiting for delete confirmation.
 */
module Sidebar {
  import opened Domain
  import opened Ordering
  import opened SheetList

  function DateOf(s: Sheet): Day
  {
    s.date
  }

  /** The rows of the list: the same sheets, newest day first. */
  function SortedSheets(sheets: seq<Sheet>): (rows: seq<Sheet>)
    ensures multiset(rows) == multiset(sheets)
    ensures forall i, j :: 0 <= i < j < |rows| ==> rows[i].date >= rows[j].date
  {
    var r := SortDesc(sheets, DateOf);
    assert forall i, j :: 0 <= i < j < |r| ==> DateOf(r[i]) >= DateOf(r[j]);
    r
  }

  /** With one sheet per day the order is strict: each row is a day earlier than the one above. */
  lemma SortedSheetsStrict(sheets: seq<Sheet>, i: nat, j: nat)
    requires UniqueDates(sheets)
    requires i < j < |sheets|
    ensures SortedSheets(sheets)[i].date > SortedSheets(sheets)[j].date
  {
    assert DistinctKeys(sheets, DateOf);
    SortDescStrict(sheets, DateOf, i, j);
  }

  /** A row is highlighted when it is the active sheet's (same id). */
  predicate IsActiveRow(activeSheet: Option<Sheet>, row: Sheet): (highlighted: bool)
    ensures activeSheet == Some(row) ==> highlighted
    ensures activeSheet.None? ==> !highlighted
  {
    activeSheet.Some? && activeSheet.value.id == row.id
  }

  /** With distinct ids, at most one row of the list is highlighted. */
  lemma AtMostOneActiveRow(sheets: seq<Sheet>, activeSheet: Option<Sheet>, i: nat, j: nat)
    requires UniqueIds(sheets)
    requires i < j < |sheets|
    ensures !(IsActiveRow(activeSheet, sheets[i]) && IsActiveRow(activeSheet, sheets[j]))
  {
  }

  /**
   * With distinct ids, the highlighted rows of the sorted list are exactly the
   * active sheet's own row, and that row is listed.
   */
  lemma ActiveSheetRowHighlighted(sheets: seq<Sheet>, s: Sheet)
    requires UniqueIds(sheets)
    requires s in sheets
    ensures s in SortedSheets(sheets)
    ensures forall row :: row in SortedSheets(sheets) ==> (IsActiveRow(Some(s), row) <==> row == s)
  {
    var rows := SortedSheets(sheets);
    assert s in multiset(sheets);
    forall row | row in rows
      ensures IsActiveRow(Some(s), row) <==> row == s
    {
      assert row in multiset(rows);
      assert row in sheets;
      if row.id == s.id {
        var i :| 0 <= i < |sheets| && sheets[i] == row;
        var j :| 0 <= j < |sheets| && sheets[j] == s;
        assert i == j;
      }
    }
  }

  class Sidebar {
    /** The sheet whose deletion awaits confirmation. */
    var sheetToDelete: Option<Sheet>

    constructor ()
      ensures sheetToDelete == None
    {
      sheetToDelete := None;
    }

    /** The delete button of a row asks to confirm deleting that row's sheet. */
    method HandleDeleteClick(sheet: Sheet)
      modifies this
      ensures sheetToDelete == Some(sheet)
    {
      sheetToDelete := Some(sheet);
    }

    /**
     * Confirming deletes the pending sheet: `deleted` is the id handed to
     * `onDeleteSheet` (`None`: it is not called).
     */
    method ConfirmDelete() returns (deleted: Option<SheetId>)
      modifies this
      ensures old(sheetToDelete).Some? ==> deleted == Some(old(sheetToDelete).value.id)
      ensures old(sheetToDelete).None? ==> deleted == None
      ensures sheetToDelete == None
    {
      deleted := None;
      if sheetToDelete.Some? {
        deleted := Some(sheetToDelete.value.id);
        sheetToDelete := None;
      }
    }

    /** Cancelling the confirmation forgets the pending sheet. */
    method CancelDelete()
      modifies this
      ensures sheetToDelete == None
    {
      sheetToDelete := None;
    }
  }

  /** Clicking delete on a row and confirming deletes exactly that row's sheet, once. */
  method ClickThenConfirm(sidebar: Sidebar, sheet: Sheet) returns (deleted: Option<SheetId>)
    modifies sidebar
    ensures deleted == Some(sheet.id)
    ensures sidebar.sheetToDelete == None
  {
    sidebar.HandleDeleteClick(sheet);
    deleted := sidebar.ConfirmDelete();
  }
}
