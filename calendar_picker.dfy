/**
 * The date-range picker (event/components/CalendarPicker.tsx). A date is its
 * timestamp, an `int`; the month grid takes the month's length and the weekday
 * of its first day as inputs, and `dateOf(d)` is the timestamp of day `d`.
 * Every change of the range is reported to the parent through onDateChange,
 * recorded here in `reported`.
 */
module CalendarPickerComponent {
  import opened Wrappers

  /** The (start, end) pairs handed to onDateChange. */
  datatype Range = Range(start: Option<int>, end: Option<int>)

  /** An end is only ever set after a strictly earlier start. */
  predicate WellFormed(r: Range) {
    r.end.Some? ==> r.start.Some? && r.start.value < r.end.value
  }

  /** The range after a press on `date`. */
  function Pressed(r: Range, date: int): (n: Range)
    ensures WellFormed(r) ==> WellFormed(n)
    ensures r.start.None? || r.end.Some? ==> n == Range(Some(date), None)
    ensures r.start.Some? && r.end.None? && date > r.start.value ==> n == Range(r.start, Some(date))
    ensures r.start.Some? && r.end.None? && date <= r.start.value ==> n == Range(Some(date), None)
  {
    if r.start.None? || r.end.Some? then Range(Some(date), None)
    else if date > r.start.value then Range(r.start, Some(date))
    else Range(Some(date), None)
  }

  /** Two presses, the second strictly later, make a complete range from a fresh start. */
  lemma TwoPressesMakeRange(r: Range, first: int, second: int)
    requires r.start.None? || r.end.Some?
    requires first < second
    ensures Pressed(Pressed(r, first), second) == Range(Some(first), Some(second))
  {
  }

  /** The day is the start or the end. */
  predicate IsSelected(r: Range, date: int) {
    r.start == Some(date) || r.end == Some(date)
  }

  /** The day lies strictly between start and end. */
  predicate IsInRange(r: Range, date: int) {
    r.start.Some? && r.end.Some? && r.start.value < date < r.end.value
  }

  /** No day is both selected and in range, and a day in range has a complete range around it. */
  lemma SelectedNotInRange(r: Range, date: int)
    ensures !(IsSelected(r, date) && IsInRange(r, date))
    ensures IsInRange(r, date) ==> WellFormed(r) && r.end.Some?
  {
  }

  /** The cells of a month: an empty cell per weekday before the 1st, then the days in order. */
  function MonthCells(firstDayOfMonth: nat, daysInMonth: nat, dateOf: nat -> int): (cells: seq<Option<int>>)
    ensures |cells| == firstDayOfMonth + daysInMonth
    ensures forall i :: 0 <= i < firstDayOfMonth ==> cells[i].None?
    ensures forall d :: 1 <= d <= daysInMonth ==> cells[firstDayOfMonth + d - 1] == Some(dateOf(d))
  {
    seq(firstDayOfMonth, _ => None) + seq(daysInMonth, i requires 0 <= i => Some(dateOf(i + 1)))
  }

  /** getMonthData: push `firstDayOfMonth` nulls, then the days 1..daysInMonth. */
  method GetMonthData(firstDayOfMonth: nat, daysInMonth: nat, dateOf: nat -> int) returns (monthData: seq<Option<int>>)
    ensures monthData == MonthCells(firstDayOfMonth, daysInMonth, dateOf)
  {
    monthData := [];
    var i := 0;
    while i < firstDayOfMonth
      invariant 0 <= i <= firstDayOfMonth
      invariant monthData == seq(i, _ => None)
    {
      monthData := monthData + [None];
      i := i + 1;
    }
    i := 1;
    while i <= daysInMonth
      invariant 1 <= i <= daysInMonth + 1
      invariant |monthData| == firstDayOfMonth + i - 1
      invariant monthData[..firstDayOfMonth] == seq(firstDayOfMonth, _ => None)
      invariant forall d :: 1 <= d < i ==> monthData[firstDayOfMonth + d - 1] == Some(dateOf(d))
    {
      monthData := monthData + [Some(dateOf(i))];
      i := i + 1;
    }
    var cells := MonthCells(firstDayOfMonth, daysInMonth, dateOf);
    assert forall k :: 0 <= k < |cells| ==> monthData[k] == cells[k] by {
      forall k | 0 <= k < |cells| ensures monthData[k] == cells[k] {
        if k < firstDayOfMonth {
          assert monthData[k] == monthData[..firstDayOfMonth][k];
        } else {
          var d := k - firstDayOfMonth + 1;
          assert monthData[firstDayOfMonth + d - 1] == Some(dateOf(d));
        }
      }
    }
  }

  class CalendarPicker {
    var startDate: Option<int>
    var endDate: Option<int>
    /** What onDateChange has been called with, oldest first. */
    var reported: seq<Range>

    function Current(): Range
      reads this
    {
      Range(startDate, endDate)
    }

    /** The range is well formed, and the parent last heard of the current one. */
    ghost predicate Valid()
      reads this
    {
      WellFormed(Current()) && |reported| > 0 && reported[|reported| - 1] == Current()
    }

    /** Nothing selected; the mount effect reports the empty range. */
    constructor()
      ensures startDate.None? && endDate.None?
      ensures reported == [Range(None, None)]
      ensures Valid()
    {
      startDate := None;
      endDate := None;
      reported := [Range(None, None)];
    }

    /**
     * handleDatePress: with no start, or a complete range, the day starts a
     * new range; with only a start, a later day ends it and an earlier or
     * equal one starts over. The effect then reports the new range.
     */
    method HandleDatePress(date: int)
      requires Valid()
      modifies this
      ensures Valid()
      ensures Current() == Pressed(old(Current()), date)
      ensures reported == old(reported) + [Current()]
    {
      if startDate.None? || (startDate.Some? && endDate.Some?) {
        startDate := Some(date);
        endDate := None;
      } else if date > startDate.value {
        endDate := Some(date);
      } else {
        startDate := Some(date);
        endDate := None;
      }
      reported := reported + [Range(startDate, endDate)];
    }

    /** renderDay's highlight of a selected day. */
    predicate DaySelected(date: int)
      reads this
    {
      IsSelected(Current(), date)
    }

    /** renderDay's lighter highlight of a day inside the range. */
    predicate DayInRange(date: int)
      reads this
    {
      IsInRange(Current(), date)
    }
  }
}
