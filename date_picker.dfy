/**
 * The day picker (components/DatePickerModal.js): a Monday-first week around
 * the selected day, buttons that move the selection a week back or forward,
 * days that already have a sheet shown disabled, and a "create" button that
 * hands the selected day to the page unless that day already has a sheet.
 */
module DatePicker {
  import opened Domain
  import opened SheetList

  /** Position of `day` in its week, Monday = 0 ... Sunday = 6 (day 0 was a Thursday). */
  function Weekday(day: Day): (w: nat)
    ensures w < 7
  {
    (day + 3) % 7
  }

  /** The Monday of the week of `day`. */
  function StartOfWeek(day: Day): (monday: Day)
    ensures Weekday(monday) == 0
    ensures monday <= day < monday + 7
  {
    day - Weekday(day)
  }

  /** The Sunday of the week of `day`. */
  function EndOfWeek(day: Day): (sunday: Day)
    ensures Weekday(sunday) == 6
    ensures sunday - 6 <= day <= sunday
  {
    StartOfWeek(day) + 6
  }

  /** Days in the same week have the same Monday. */
  lemma StartOfWeekUnique(day: Day, monday: Day)
    requires Weekday(monday) == 0 && monday <= day < monday + 7
    ensures StartOfWeek(day) == monday
  {
  }

  /** Moving seven days moves to the neighbouring week. */
  lemma {:induction false} WeekShift(day: Day)
    ensures StartOfWeek(day + 7) == StartOfWeek(day) + 7
    ensures StartOfWeek(day - 7) == StartOfWeek(day) - 7
  {
    StartOfWeekUnique(day + 7, StartOfWeek(day) + 7);
    StartOfWeekUnique(day - 7, StartOfWeek(day) - 7);
  }

  /** The days from the Monday to the Sunday of the week of `date`, one after the other. */
  method GetDaysInWeek(date: Day) returns (days: seq<Day>)
    ensures |days| == 7
    ensures forall k :: 0 <= k < |days| ==> days[k] == StartOfWeek(date) + k
    ensures days[0] == StartOfWeek(date) && days[6] == EndOfWeek(date)
    ensures date in days
  {
    var start := StartOfWeek(date);
    var end := EndOfWeek(date);
    days := [];
    var current := start;
    while current <= end
      invariant start <= current <= end + 1
      invariant |days| == current - start
      invariant forall k :: 0 <= k < |days| ==> days[k] == start + k
    {
      days := days + [current];
      current := current + 1;
    }
    assert days[date - start] == date;
  }

  /** `existingDates` as both pages pass it: the day of each sheet. */
  lemma ExistingDatesAreSheetDays(sheets: seq<Sheet>, day: Day)
    ensures day in Dates(sheets) <==> FindByDate(sheets, day).Some?
  {
    InDatesIff(sheets, day);
  }

  class DatePickerModal {
    /** The days that already have a sheet. */
    const existingDates: seq<Day>
    var selectedDate: Day

    /** Opening the picker selects today. */
    constructor (today: Day, existingDates: seq<Day>)
      ensures selectedDate == today && this.existingDates == existingDates
    {
      this.existingDates := existingDates;
      selectedDate := today;
    }

    /** A day is shown disabled when some entry of `existingDates` is that day. */
    predicate HasExistingTimeBox(day: Day): (blocked: bool)
      ensures blocked <==> exists k :: 0 <= k < |existingDates| && existingDates[k] == day
    {
      day in existingDates
    }

    /** The week shown is the week of the selected day. */
    method WeekDays() returns (days: seq<Day>)
      ensures |days| == 7 && days[0] == StartOfWeek(selectedDate) && selectedDate in days
      ensures forall k :: 0 <= k < 7 ==> days[k] == StartOfWeek(selectedDate) + k
    {
      days := GetDaysInWeek(selectedDate);
    }

    /** "Previous" moves the selection seven days back. */
    method PreviousWeek()
      modifies this
      ensures selectedDate == old(selectedDate) - 7
      ensures StartOfWeek(selectedDate) == StartOfWeek(old(selectedDate)) - 7
    {
      WeekShift(selectedDate);
      selectedDate := selectedDate - 7;
    }

    /** "Next" moves the selection seven days forward. */
    method NextWeek()
      modifies this
      ensures selectedDate == old(selectedDate) + 7
      ensures StartOfWeek(selectedDate) == StartOfWeek(old(selectedDate)) + 7
    {
      WeekShift(selectedDate);
      selectedDate := selectedDate + 7;
    }

    /** Clicking a day selects it, unless that day already has a sheet. */
    method ClickDay(day: Day)
      modifies this
      ensures selectedDate == if HasExistingTimeBox(day) then old(selectedDate) else day
    {
      if !HasExistingTimeBox(day) {
        selectedDate := day;
      }
    }

    /** "Create": the day handed to `onSelectDate`, or `None` while the button is disabled. */
    method Create() returns (chosen: Option<Day>)
      ensures chosen.Some? <==> !(selectedDate in existingDates)
      ensures chosen.Some? ==> chosen.value == selectedDate
    {
      if HasExistingTimeBox(selectedDate) {
        chosen := None;
      } else {
        chosen := Some(selectedDate);
      }
    }
  }

  /**
   * A day the picker hands over never has a sheet yet, so the page that
   * receives it takes the creating branch, not the duplicate branch.
   */
  lemma ChosenDayHasNoSheet(sheets: seq<Sheet>, selectedDate: Day)
    requires !(selectedDate in Dates(sheets))
    ensures FindByDate(sheets, selectedDate) == None
  {
    InDatesIff(sheets, selectedDate);
  }
}
