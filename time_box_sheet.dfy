/**
 * The sheet editor: hour labels for the preference window, the check that
 * resizes a sheet's half-hour grid, and the whole-sheet transformations that
 * the editor hands to `updateSheet` (components/TimeBoxSheet.js).
 *
 * A helper that emits no update in the source returns `None` here.
 */
module TimeBoxSheet {
  import opened Domain
  import opened Decimal

  /** Preference window the client uses until the server sends one ('8' and '18'). */
  const DefaultStartHour := 8
  const DefaultEndHour := 18

  /** Upper and lower bounds on the length of the priority list. */
  const MaxPriorities := 10

  // ----- Hour labels -----

  /** Number of hour rows from `startHour` to `endHour`, inclusive. */
  function RowCount(startHour: int, endHour: int): (n: nat)
    ensures startHour <= endHour ==> n == endHour - startHour + 1
    ensures endHour < startHour ==> n == 0
  {
    if startHour <= endHour then endHour - startHour + 1 else 0
  }

  /** Twelve-hour label of a 24-hour value: "AM" before noon, "PM" from noon on. */
  function HourLabel(hour: int): (text: string)
    ensures |text| >= 4
    ensures hour < 12 ==> text[|text| - 3..] == " AM"
    ensures 12 <= hour ==> text[|text| - 3..] == " PM"
  {
    if hour == 0 then "12 AM"
    else if hour < 12 then IntText(hour) + " AM"
    else if hour == 12 then "12 PM"
    else IntText(hour - 12) + " PM"
  }

  /** Reads a label of the form "<1..12> AM|PM" back into a 24-hour value. */
  function ParseHourLabel(text: string): (hour: Option<int>)
    ensures hour.Some? ==> 0 <= hour.value <= 23
  {
    if |text| < 4 then None
    else
      var numeral, suffix := text[..|text| - 3], text[|text| - 3..];
      if !AllDigits(numeral) || (suffix != " AM" && suffix != " PM") then None
      else
        var n := ParseDigits(numeral);
        if n < 1 || 12 < n then None
        else if suffix == " AM" then Some(if n == 12 then 0 else n)
        else Some(if n == 12 then 12 else n + 12)
  }

  lemma LabelSplit(numeral: string, suffix: string)
    requires 1 <= |numeral| && |suffix| == 3
    ensures var text := numeral + suffix;
            |text| >= 4 && text[..|text| - 3] == numeral && text[|text| - 3..] == suffix
  {
    var text := numeral + suffix;
    assert text[..|text| - 3] == numeral;
    assert text[|text| - 3..] == suffix;
  }

  /** Every hour of a day gets a label that names that hour and no other. */
  lemma {:induction false} HourLabelRoundTrip(hour: int)
    requires 0 <= hour <= 23
    ensures ParseHourLabel(HourLabel(hour)) == Some(hour)
  {
    var clock := if hour == 0 || hour == 12 then 12 else if hour < 12 then hour else hour - 12;
    var suffix := if hour < 12 then " AM" else " PM";
    assert HourLabel(hour) == Digits(clock) + suffix by {
      if hour == 0 || hour == 12 {
        assert Digits(12) == Digits(1) + [DigitChar(2)];
        assert Digits(12) == "12";
      }
    }
    LabelSplit(Digits(clock), suffix);
    ParseDigitsOfDigits(clock);
  }

  /** Within a day, two different hours never share a label. */
  lemma HourLabelInjective(h1: int, h2: int)
    requires 0 <= h1 <= 23 && 0 <= h2 <= 23 && h1 != h2
    ensures HourLabel(h1) != HourLabel(h2)
  {
    HourLabelRoundTrip(h1);
    HourLabelRoundTrip(h2);
  }

  /** The labels of the rows from `startHour` to `endHour`, one per hour. */
  method GenerateHours(startHour: int, endHour: int) returns (hours: seq<string>)
    ensures |hours| == RowCount(startHour, endHour)
    ensures forall i :: 0 <= i < |hours| ==> hours[i] == HourLabel(startHour + i)
  {
    hours := [];
    var hour := startHour;
    while hour <= endHour
      invariant startHour <= hour
      invariant hour <= endHour + 1 || hour == startHour
      invariant |hours| == hour - startHour
      invariant forall i :: 0 <= i < |hours| ==> hours[i] == HourLabel(startHour + i)
    {
      if hour == 0 {
        hours := hours + ["12 AM"];
      } else if hour < 12 {
        hours := hours + [IntText(hour) + " AM"];
      } else if hour == 12 {
        hours := hours + ["12 PM"];
      } else {
        hours := hours + [IntText(hour - 12) + " PM"];
      }
      hour := hour + 1;
    }
  }

  /** For a window inside one day, no two rows carry the same label. */
  lemma GeneratedLabelsDistinct(startHour: int, endHour: int, hours: seq<string>, i: nat, j: nat)
    requires 0 <= startHour && endHour <= 23
    requires |hours| == RowCount(startHour, endHour)
    requires forall k :: 0 <= k < |hours| ==> hours[k] == HourLabel(startHour + k)
    requires i < j < |hours|
    ensures hours[i] != hours[j]
  {
    assert hours[i] == HourLabel(startHour + i) && hours[j] == HourLabel(startHour + j);
    HourLabelInjective(startHour + i, startHour + j);
  }

  // ----- The schedule grid -----

  /**
   * The size check run on every render: when the grid does not hold two
   * slots per row, the sheet is re-emitted with a blank grid of that size.
   */
  function CheckGrid(sheet: Sheet, rows: nat): (update: Option<Sheet>)
    ensures update.None? <==> |sheet.hours| == 2 * rows
    ensures update.Some? ==>
      && |update.value.hours| == 2 * rows
      && AllBlank(update.value.hours)
      && update.value == sheet.(hours := update.value.hours)
  {
    if |sheet.hours| != rows * 2 then Some(sheet.(hours := seq(rows * 2, _ => BlankSlot))) else None
  }

  /** A sheet the check has resized passes the check, once it is the sheet on screen. */
  lemma CheckGridSettles(sheet: Sheet, rows: nat)
    requires CheckGrid(sheet, rows).Some?
    ensures CheckGrid(CheckGrid(sheet, rows).value, rows) == None
  {
  }

  /** Slot of the ":00" (half 0) or ":30" (half 1) input of a row. */
  function SlotIndex(row: nat, half: nat): (slot: nat)
    requires half < 2
    ensures slot / 2 == row && slot % 2 == half
  {
    row * 2 + half
  }

  /** Every slot of a grid of `rows` rows belongs to exactly one row and half. */
  lemma SlotsCoverGrid(rows: nat, slot: nat)
    requires slot < 2 * rows
    ensures slot / 2 < rows && SlotIndex(slot / 2, slot % 2) == slot
  {
  }

  /** Two inputs of the grid never address the same slot. */
  lemma SlotIndexInjective(r1: nat, h1: nat, r2: nat, h2: nat)
    requires h1 < 2 && h2 < 2
    requires SlotIndex(r1, h1) == SlotIndex(r2, h2)
    ensures r1 == r2 && h1 == h2
  {
  }

  /** The text an input shows: the slot's task, or empty past the end of the grid. */
  function CellTask(hours: seq<Slot>, slot: nat): (text: string)
    ensures slot < |hours| ==> text == hours[slot].task
    ensures |hours| <= slot ==> text == ""
  {
    if slot < |hours| then hours[slot].task else ""
  }

  /** Sets one field of one slot. */
  function ChangeHour(sheet: Sheet, index: nat, field: SlotField, value: string): (r: Sheet)
    requires index < |sheet.hours|
    ensures |r.hours| == |sheet.hours|
    ensures field == Task ==> r.hours[index].task == value && r.hours[index].notes == sheet.hours[index].notes
    ensures field == Notes ==> r.hours[index].notes == value && r.hours[index].task == sheet.hours[index].task
    ensures forall k :: 0 <= k < |r.hours| && k != index ==> r.hours[k] == sheet.hours[k]
    ensures r == sheet.(hours := r.hours)
  {
    var cell := sheet.hours[index];
    var slot := match field
      case Task => cell.(task := value)
      case Notes => cell.(notes := value);
    sheet.(hours := sheet.hours[index := slot])
  }

  /** Typing into an input shows that text in the same input afterwards. */
  lemma ChangeHourShows(sheet: Sheet, row: nat, half: nat, value: string)
    requires half < 2 && SlotIndex(row, half) < |sheet.hours|
    ensures CellTask(ChangeHour(sheet, SlotIndex(row, half), Task, value).hours, SlotIndex(row, half)) == value
    ensures forall r, h :: 0 <= r && 0 <= h < 2 && (r, h) != (row, half) ==>
      CellTask(ChangeHour(sheet, SlotIndex(row, half), Task, value).hours, SlotIndex(r, h)) == CellTask(sheet.hours, SlotIndex(r, h))
  {
    forall r, h | 0 <= r && 0 <= h < 2 && (r, h) != (row, half)
      ensures SlotIndex(r, h) != SlotIndex(row, half)
    {
      if SlotIndex(r, h) == SlotIndex(row, half) {
        SlotIndexInjective(r, h, row, half);
      }
    }
  }

  /**
   * A window of 9 to 11 gives a grid of six slots; after typing "standup"
   * into slot 0 that slot holds the task and empty notes.
   */
  lemma StandupScenario(sheet: Sheet)
    requires |sheet.hours| != 6
    ensures var resized := CheckGrid(sheet, RowCount(9, 11));
            && resized.Some?
            && |resized.value.hours| == 6
            && ChangeHour(resized.value, 0, Task, "standup").hours[0] == Slot("standup", "")
  {
  }

  // ----- Priorities and the brain dump -----

  /** The priority list holds between 1 and 10 entries. */
  predicate PriorityCountOk(sheet: Sheet)
  {
    1 <= |sheet.priorities| <= MaxPriorities
  }

  /** Sets the text of one priority. */
  function ChangePriority(sheet: Sheet, index: nat, value: string): (r: Sheet)
    requires index < |sheet.priorities|
    ensures |r.priorities| == |sheet.priorities| && r.priorities[index] == value
    ensures forall k :: 0 <= k < |r.priorities| && k != index ==> r.priorities[k] == sheet.priorities[k]
    ensures r == sheet.(priorities := r.priorities)
  {
    sheet.(priorities := sheet.priorities[index := value])
  }

  /** Appends one blank priority, unless ten are already there. */
  function AddPriority(sheet: Sheet): (update: Option<Sheet>)
    ensures update.Some? <==> |sheet.priorities| < MaxPriorities
    ensures update.Some? ==>
      && |update.value.priorities| == |sheet.priorities| + 1
      && update.value.priorities[..|sheet.priorities|] == sheet.priorities
      && update.value.priorities[|sheet.priorities|] == ""
      && update.value == sheet.(priorities := update.value.priorities)
  {
    if |sheet.priorities| < MaxPriorities then Some(sheet.(priorities := sheet.priorities + [""])) else None
  }

  /** Keeps every priority whose position is not `index` (so all of them when `index` is past the end). */
  function WithoutIndex(priorities: seq<string>, index: nat): (r: seq<string>)
    ensures index < |priorities| ==> |r| == |priorities| - 1
    ensures |priorities| <= index ==> r == priorities
    ensures forall k :: 0 <= k < |r| ==> r[k] == (if k < index then priorities[k] else priorities[k + 1])
  {
    if index < |priorities| then priorities[..index] + priorities[index + 1..] else priorities
  }

  /** Removes the priority at `index`, unless it is the only one left. */
  function RemovePriority(sheet: Sheet, index: nat): (update: Option<Sheet>)
    ensures update.Some? <==> 1 < |sheet.priorities|
    ensures update.Some? ==>
      && update.value.priorities == WithoutIndex(sheet.priorities, index)
      && update.value == sheet.(priorities := update.value.priorities)
  {
    if 1 < |sheet.priorities| then Some(sheet.(priorities := WithoutIndex(sheet.priorities, index))) else None
  }

  /** Putting the removed priority back where it was restores the list. */
  lemma {:induction false} WithoutIndexRestore(priorities: seq<string>, index: nat)
    requires index < |priorities|
    ensures WithoutIndex(priorities, index)[..index] + [priorities[index]] + WithoutIndex(priorities, index)[index..] == priorities
  {
    var r := WithoutIndex(priorities, index);
    var back := r[..index] + [priorities[index]] + r[index..];
    assert |back| == |priorities|;
    forall k | 0 <= k < |priorities|
      ensures back[k] == priorities[k]
    {
      if k < index {
        assert back[k] == r[k];
      } else if k > index {
        assert back[k] == r[k - 1];
      }
    }
  }

  /** Sets the free-form notes. */
  function ChangeBrainDump(sheet: Sheet, value: string): (r: Sheet)
    ensures r.brainDump == value && r.priorities == sheet.priorities && r.hours == sheet.hours
    ensures SameIdentity(r, sheet)
  {
    sheet.(brainDump := value)
  }

  /** No editor helper can take the priority count out of [1, 10]. */
  lemma PriorityCountPreserved(sheet: Sheet, index: nat, value: string, field: SlotField, rows: nat)
    requires PriorityCountOk(sheet)
    ensures index < |sheet.priorities| ==> PriorityCountOk(ChangePriority(sheet, index, value))
    ensures AddPriority(sheet).Some? ==> PriorityCountOk(AddPriority(sheet).value)
    ensures RemovePriority(sheet, index).Some? ==> PriorityCountOk(RemovePriority(sheet, index).value)
    ensures index < |sheet.hours| ==> PriorityCountOk(ChangeHour(sheet, index, field, value))
    ensures PriorityCountOk(ChangeBrainDump(sheet, value))
    ensures CheckGrid(sheet, rows).Some? ==> PriorityCountOk(CheckGrid(sheet, rows).value)
  {
  }

  /** No editor helper changes the id, day, label or creation time of a sheet. */
  lemma IdentityPreserved(sheet: Sheet, index: nat, value: string, field: SlotField, rows: nat)
    ensures index < |sheet.priorities| ==> SameIdentity(ChangePriority(sheet, index, value), sheet)
    ensures AddPriority(sheet).Some? ==> SameIdentity(AddPriority(sheet).value, sheet)
    ensures RemovePriority(sheet, index).Some? ==> SameIdentity(RemovePriority(sheet, index).value, sheet)
    ensures index < |sheet.hours| ==> SameIdentity(ChangeHour(sheet, index, field, value), sheet)
    ensures CheckGrid(sheet, rows).Some? ==> SameIdentity(CheckGrid(sheet, rows).value, sheet)
  {
  }
}
