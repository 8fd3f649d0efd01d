/**
 * The values the planner passes around: a sheet (one planner page per
 * calendar day), its half-hour slots, the toast outcome of an operation and
 * the outcome of a call to the remote sheet API.
 *
 * Calendar days are integer day numbers (day 0 is Thursday 1 January 1970 in
 * local time); the `yyyy-MM-dd` day key of the application is a one-to-one
 * rendering of that number and is not modelled as text.
 */
module Domain {

  datatype Option<T> = None | Some(value: T)

  /** A calendar day, counted from 1 January 1970. */
  type Day = int

  /** An opaque sheet identifier: a timestamp for guest sheets, a store key otherwise. */
  type SheetId = int

  /** One half-hour cell of the schedule grid. */
  datatype Slot = Slot(task: string, notes: string)

  /** The cell that a fresh or resized grid is filled with. */
  const BlankSlot := Slot("", "")

  /** The two editable parts of a slot. */
  datatype SlotField = Task | Notes

  /** One planner page. `formattedDate` is a display label computed from `date`. */
  datatype Sheet = Sheet(
    id: SheetId,
    date: Day,
    formattedDate: string,
    priorities: seq<string>,
    hours: seq<Slot>,
    brainDump: string,
    createdAt: int)

  /** Kind of the notification an operation leaves behind (its text is not modelled). */
  datatype ToastKind = Success | Warning | Error

  /** Outcome of an awaited call to the remote API: its value, or a thrown error. */
  datatype Remote<T> = Done(value: T) | Failed

  /** Every slot of the grid is blank. */
  ghost predicate AllBlank(hours: seq<Slot>)
  {
    forall k :: 0 <= k < |hours| ==> hours[k] == BlankSlot
  }

  /** The two sheets differ at most in their editable content. */
  ghost predicate SameIdentity(a: Sheet, b: Sheet)
  {
    a.id == b.id && a.date == b.date && a.formattedDate == b.formattedDate && a.createdAt == b.createdAt
  }
}
