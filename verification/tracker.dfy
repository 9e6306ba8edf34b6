/**
 * The `Tracker` value type: a habit (a weekday calendar) or an irregular event
 * (a fixed date), with a pin flag and the name of its category.
 */
module Trackers {
  import opened Common
  import opened Weekdays

  /** A `UIColor`, treated as an opaque token; `ColorSelection(n)` is the asset `colorSelection<n>`. */
  datatype Color = ColorSelection(n: nat)

  /**
   * The struct as declared: four `let` fields, the two optional schedule
   * parts, and the only two `var` fields, `isPinned` and `category`.
   * `calendar` is an ordered list, so repeats and order are representable.
   */
  datatype Tracker = Tracker(
    id: Uuid,
    name: string,
    color: Color,
    emoji: string,
    calendar: Option<seq<Weekday>>,
    date: Option<Instant>,
    isPinned: bool,
    category: string)

  /** The assignments Swift allows on a stored tracker: only its `var` fields. */
  datatype Mutation = SetPinned(pinned: bool) | SetCategory(categoryName: string)

  function Apply(t: Tracker, m: Mutation): (r: Tracker)
    ensures r.id == t.id && r.name == t.name && r.color == t.color && r.emoji == t.emoji
    ensures r.calendar == t.calendar && r.date == t.date
    ensures m.SetPinned? ==> r.isPinned == m.pinned && r.category == t.category
    ensures m.SetCategory? ==> r.category == m.categoryName && r.isPinned == t.isPinned
  {
    match m
    case SetPinned(p) => t.(isPinned := p)
    case SetCategory(c) => t.(category := c)
  }

  /** Whether a mutation list ever assigns `isPinned` / `category`. */
  predicate AssignsPin(ms: seq<Mutation>) {
    exists i :: 0 <= i < |ms| && ms[i].SetPinned?
  }

  predicate AssignsCategory(ms: seq<Mutation>) {
    exists i :: 0 <= i < |ms| && ms[i].SetCategory?
  }

  /**
   * Any sequence of assignments: the `let` fields and the schedule never
   * change; each `var` field keeps its value unless some mutation assigns it.
   */
  function ApplyAll(t: Tracker, ms: seq<Mutation>): (r: Tracker)
    ensures r.id == t.id && r.name == t.name && r.color == t.color && r.emoji == t.emoji
    ensures r.calendar == t.calendar && r.date == t.date
    ensures !AssignsPin(ms) ==> r.isPinned == t.isPinned
    ensures !AssignsCategory(ms) ==> r.category == t.category
    decreases |ms|
  {
    if |ms| == 0 then t
    else
      var r := ApplyAll(Apply(t, ms[0]), ms[1..]);
      assert AssignsPin(ms[1..]) ==> AssignsPin(ms) by {
        if AssignsPin(ms[1..]) {
          var i :| 0 <= i < |ms[1..]| && ms[1..][i].SetPinned?;
          assert ms[i + 1].SetPinned?;
        }
      }
      assert AssignsCategory(ms[1..]) ==> AssignsCategory(ms) by {
        if AssignsCategory(ms[1..]) {
          var i :| 0 <= i < |ms[1..]| && ms[1..][i].SetCategory?;
          assert ms[i + 1].SetCategory?;
        }
      }
      r
  }

  /** The schedule invariant the form establishes: exactly one of calendar and date is set. */
  predicate HasOneScheduleKind(t: Tracker) {
    t.calendar.Some? != t.date.Some?
  }

  /** Mutations cannot break the schedule invariant, since they never touch the schedule. */
  lemma {:induction false} MutationsKeepScheduleKind(t: Tracker, ms: seq<Mutation>)
    requires HasOneScheduleKind(t)
    ensures HasOneScheduleKind(ApplyAll(t, ms))
  {
  }
}
