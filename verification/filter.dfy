/**
 * `FiltrController`: the filter picker. The chosen row is kept in the
 * defaults store under one key, and a choice is reported as a
 * `TrackerFilter`.
 */
module Filters {
  import opened Common

  /** `TrackerFilter: Int`. */
  datatype TrackerFilter = All | Today | Completed | NotCompleted

  function RawValue(f: TrackerFilter): int {
    match f
    case All => 0
    case Today => 1
    case Completed => 2
    case NotCompleted => 3
  }

  /** `TrackerFilter(rawValue:)`. */
  function FromRawValue(n: int): (r: Option<TrackerFilter>)
    ensures r.Some? ==> RawValue(r.value) == n
    ensures r.None? <==> !(0 <= n < 4)
  {
    if n == 0 then Some(All)
    else if n == 1 then Some(Today)
    else if n == 2 then Some(Completed)
    else if n == 3 then Some(NotCompleted)
    else None
  }

  /** The raw values are 0 to 3 and parse back to their case. */
  lemma {:induction false} RawValueRoundTrip(f: TrackerFilter)
    ensures 0 <= RawValue(f) < 4
    ensures FromRawValue(RawValue(f)) == Some(f)
  {
  }

  /** The table's rows, one per filter, in raw-value order. */
  const Options: seq<string> := ["Все трекеры", "Трекеры на сегодня", "Завершённые", "Не завершённые"]

  /** The defaults slot `SelectedFilterIndex`: absent, or the integer last stored. */
  datatype Defaults = Defaults(slot: Option<int>)

  /** The `selectedIndex` getter: 0 while nothing is stored. */
  function SelectedIndex(d: Defaults): (i: int)
    ensures d.slot.None? ==> i == 0
    ensures d.slot.Some? ==> i == d.slot.value
  {
    d.slot.OrElse(0)
  }

  /** The `selectedIndex` setter. */
  function SetSelectedIndex(d: Defaults, value: int): (r: Defaults)
    ensures SelectedIndex(r) == value
  {
    Defaults(Some(value))
  }

  /** Whether row `row` shows the checkmark. */
  predicate HasCheckmark(d: Defaults, row: nat) {
    row == SelectedIndex(d)
  }

  /**
   * `didSelectRowAt`: stores the row, then reports the filter of that raw
   * value, if there is one.
   */
  function DidSelectRow(d: Defaults, row: nat): (r: (Defaults, Option<TrackerFilter>))
    ensures SelectedIndex(r.0) == row
    ensures r.1.Some? <==> row < |Options|
    ensures r.1.Some? ==> RawValue(r.1.value) == row
  {
    (SetSelectedIndex(d, row), FromRawValue(row))
  }

  /** Before any choice the first row, "all trackers", carries the only checkmark. */
  lemma {:induction false} FreshInstallChecksAll()
    ensures HasCheckmark(Defaults(None), RawValue(All))
    ensures forall row: nat :: 0 < row < |Options| ==> !HasCheckmark(Defaults(None), row)
  {
  }

  /** After a choice, its row and no other carries the checkmark, and the reported filter names that row. */
  lemma {:induction false} SelectedRowAloneChecked(d: Defaults, row: nat)
    requires row < |Options|
    ensures var r := DidSelectRow(d, row);
            && (forall other: nat :: other < |Options| ==> (HasCheckmark(r.0, other) <==> other == row))
            && r.1.Some? && FromRawValue(row) == r.1
  {
  }
}
