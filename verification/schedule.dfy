/**
 * The `Weekday` enum of the schedule screen: seven cases whose raw values are
 * the Russian day names, declared Sunday first.
 */
module Weekdays {
  import opened Common

  datatype Weekday = Sunday | Monday | Tuesday | Wednesday | Thursday | Friday | Saturday

  /** `Weekday.allCases`, in declaration order. */
  const AllCases: seq<Weekday> := [Sunday, Monday, Tuesday, Wednesday, Thursday, Friday, Saturday]

  /** The raw value (`rawValue`) of each case. */
  function RawValue(d: Weekday): string {
    match d
    case Sunday => "Воскресенье"
    case Monday => "Понедельник"
    case Tuesday => "Вторник"
    case Wednesday => "Среда"
    case Thursday => "Четверг"
    case Friday => "Пятница"
    case Saturday => "Суббота"
  }

  /** The failable initialiser `Weekday(rawValue:)`. */
  function FromRawValue(s: string): (r: Option<Weekday>)
    ensures r.Some? ==> RawValue(r.value) == s
    ensures r.None? ==> forall d: Weekday :: RawValue(d) != s
  {
    if s == "Воскресенье" then Some(Sunday)
    else if s == "Понедельник" then Some(Monday)
    else if s == "Вторник" then Some(Tuesday)
    else if s == "Среда" then Some(Wednesday)
    else if s == "Четверг" then Some(Thursday)
    else if s == "Пятница" then Some(Friday)
    else if s == "Суббота" then Some(Saturday)
    else None
  }

  /** Parsing a raw value gives back its case, so raw values are pairwise distinct. */
  lemma {:induction false} RawValueRoundTrip(d: Weekday)
    ensures FromRawValue(RawValue(d)) == Some(d)
  {
  }

  /** The schedule table's seven row labels, Monday first. */
  const RowLabels: seq<string> := ["Понедельник", "Вторник", "Среда", "Четверг", "Пятница", "Суббота", "Воскресенье"]

  /** The position of a case in `allCases`, Sunday being 0. */
  function DeclarationIndex(d: Weekday): (i: nat)
    ensures i < 7 && AllCases[i] == d
  {
    match d
    case Sunday => 0
    case Monday => 1
    case Tuesday => 2
    case Wednesday => 3
    case Thursday => 4
    case Friday => 5
    case Saturday => 6
  }

  /** The day a schedule row stands for: its label parsed by `Weekday(rawValue:)`, which never fails. */
  function RowDay(row: nat): (d: Weekday)
    requires row < |RowLabels|
    ensures FromRawValue(RowLabels[row]) == Some(d)
    ensures DeclarationIndex(d) == (row + 1) % 7
  {
    [Monday, Tuesday, Wednesday, Thursday, Friday, Saturday, Sunday][row]
  }

  /** Distinct rows stand for distinct days, and every day has a row (one place before its declaration index). */
  lemma {:induction false} RowDaysDistinct()
    ensures forall i, j :: 0 <= i < j < |RowLabels| ==> RowDay(i) != RowDay(j)
    ensures forall d: Weekday :: RowDay((DeclarationIndex(d) + 6) % 7) == d
  {
    forall i, j | 0 <= i < j < |RowLabels|
      ensures RowDay(i) != RowDay(j)
    {
      assert (i + 1) % 7 == i + 1;
      assert (j + 1) % 7 == if j == 6 then 0 else j + 1;
    }
    forall d: Weekday
      ensures RowDay((DeclarationIndex(d) + 6) % 7) == d
    {
      var k := DeclarationIndex(d);
      var row := if k == 0 then 6 else k - 1;
      assert (k + 6) % 7 == row;
      assert (row + 1) % 7 == k;
      assert AllCases[DeclarationIndex(RowDay(row))] == AllCases[k];
    }
  }
}

/**
 * The weekday selection kept by the schedule screen while its switches are
 * flipped, and the list it hands back when "Готово" is tapped.
 */
module Schedule {
  import opened Common
  import opened Seqs
  import opened Weekdays

  /** The screen opens with nothing selected. */
  const InitialSelection: seq<Weekday> := []

  /**
   * `didSwitch`: `row` is the table row of the flipped switch (`nil` when its
   * cell cannot be located) and `isOn` its new position. On appends the row's
   * day; off removes that day's first occurrence.
   */
  function DidSwitch(selected: seq<Weekday>, row: Option<nat>, isOn: bool): (r: seq<Weekday>)
    requires row.Some? ==> row.value < |RowLabels|
    ensures row.None? ==> r == selected
    ensures row.Some? && isOn ==> r == selected + [RowDay(row.value)]
    ensures row.Some? && !isOn ==> r == RemoveFirst(selected, RowDay(row.value))
    ensures row.Some? && !isOn && RowDay(row.value) in selected ==>
              r == RemoveAt(selected, FirstIndexOf(selected, RowDay(row.value)).value)
  {
    match row
    case None => selected
    case Some(i) =>
      match FromRawValue(RowLabels[i])
      case None => selected
      case Some(day) => if isOn then selected + [day] else RemoveFirst(selected, day)
  }

  /** `didTapButton`: the delegate receives the selection exactly as it stands. */
  function DidTapButton(selected: seq<Weekday>): (handedOver: seq<Weekday>)
    ensures handedOver == selected
  {
    selected
  }

  /**
   * Switching a day off takes out one copy of it and leaves every other
   * entry, in order; a day not selected is ignored.
   */
  lemma {:induction false} SwitchOffRemovesOneCopy(selected: seq<Weekday>, row: nat)
    requires row < |RowLabels|
    ensures var day := RowDay(row);
            var r := DidSwitch(selected, Some(row), false);
            && (day !in selected ==> r == selected)
            && (day in selected ==> multiset(r) == multiset(selected) - multiset{day} && |r| == |selected| - 1)
  {
  }

  /**
   * Switching a day off takes out its earliest copy: the days selected before
   * it and after it stay, in the order they were chosen.
   */
  lemma {:induction false} SwitchOffRemovesFirstCopy(selected: seq<Weekday>, row: nat)
    requires row < |RowLabels|
    requires RowDay(row) in selected
    ensures exists i :: 0 <= i < |selected| && selected[i] == RowDay(row) && RowDay(row) !in selected[..i]
              && DidSwitch(selected, Some(row), false) == selected[..i] + selected[i + 1..]
  {
    var day := RowDay(row);
    var i := FirstIndexOf(selected, day).value;
    var r := DidSwitch(selected, Some(row), false);
    assert r == RemoveAt(selected, i);
    assert r == selected[..i] + selected[i + 1..];
  }

  /** Appending puts the day last without merging duplicates: the list keeps toggle order. */
  lemma {:induction false} SwitchOnKeepsDuplicates(selected: seq<Weekday>, row: nat)
    requires row < |RowLabels|
    ensures var day := RowDay(row);
            var r := DidSwitch(selected, Some(row), true);
            && |r| == |selected| + 1
            && r[..|selected|] == selected
            && multiset(r)[day] == multiset(selected)[day] + 1
  {
    var day := RowDay(row);
    var r := DidSwitch(selected, Some(row), true);
    assert r == selected + [day];
    assert r[..|selected|] == selected;
    assert multiset(r) == multiset(selected) + multiset{day};
  }

  /** On then off for the same row restores the multiset of selected days. */
  lemma {:induction false} OnThenOffRestoresMultiset(selected: seq<Weekday>, row: nat)
    requires row < |RowLabels|
    ensures multiset(DidSwitch(DidSwitch(selected, Some(row), true), Some(row), false)) == multiset(selected)
  {
    var day := RowDay(row);
    var on := DidSwitch(selected, Some(row), true);
    assert on == selected + [day];
    assert day in on by {
      assert on[|selected|] == day;
    }
    assert multiset(on) == multiset(selected) + multiset{day};
  }

  /** When the day was not yet selected, on then off restores the very list. */
  lemma {:induction false} OnThenOffRestoresFreshDay(selected: seq<Weekday>, row: nat)
    requires row < |RowLabels|
    requires RowDay(row) !in selected
    ensures DidSwitch(DidSwitch(selected, Some(row), true), Some(row), false) == selected
  {
    var day := RowDay(row);
    var on := selected + [day];
    assert DidSwitch(selected, Some(row), true) == on;
    var i := FirstIndexOf(on, day);
    assert on[|selected|] == day;
    assert i.Some?;
    assert i.value == |selected|;
    assert RemoveAt(on, |selected|) == selected;
  }
}
