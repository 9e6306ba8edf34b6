/**
 * The schedule row of the tracker form: each selected weekday shown by its
 * two-letter abbreviation, joined by ", " in selection order.
 */
module ScheduleSummary {
  import opened Weekdays

  function Abbreviation(d: Weekday): (a: string)
    ensures |a| == 2
  {
    match d
    case Monday => "Пн"
    case Tuesday => "Вт"
    case Wednesday => "Ср"
    case Thursday => "Чт"
    case Friday => "Пт"
    case Saturday => "Сб"
    case Sunday => "Вс"
  }

  const Separator: string := ", "

  /** `map` to abbreviations, then `joined(separator: ", ")`. */
  function Summary(ws: seq<Weekday>): string
    decreases |ws|
  {
    if |ws| == 0 then ""
    else if |ws| == 1 then Abbreviation(ws[0])
    else Abbreviation(ws[0]) + Separator + Summary(ws[1..])
  }

  /** Distinct days have distinct abbreviations. */
  lemma {:induction false} AbbreviationInjective(a: Weekday, b: Weekday)
    requires Abbreviation(a) == Abbreviation(b)
    ensures a == b
  {
    assert Abbreviation(a)[1] == Abbreviation(b)[1];
    assert Abbreviation(a)[0] == Abbreviation(b)[0];
  }

  lemma {:induction false} SummaryLength(ws: seq<Weekday>)
    ensures |Summary(ws)| == if |ws| == 0 then 0 else 4 * |ws| - 2
    decreases |ws|
  {
    if |ws| > 1 {
      SummaryLength(ws[1..]);
    }
  }

  /** Day `i` occupies characters `4i` and `4i+1`. */
  lemma {:induction false} SummaryDay(ws: seq<Weekday>, i: nat)
    requires i < |ws|
    ensures 4 * i + 2 <= |Summary(ws)| && Summary(ws)[4 * i..4 * i + 2] == Abbreviation(ws[i])
    decreases i
  {
    SummaryLength(ws);
    if |ws| > 1 {
      var rest := Summary(ws[1..]);
      assert Summary(ws) == Abbreviation(ws[0]) + Separator + rest;
      if i > 0 {
        SummaryDay(ws[1..], i - 1);
        assert ws[1..][i - 1] == ws[i];
        assert Summary(ws)[4 * i..4 * i + 2] == rest[4 * (i - 1)..4 * (i - 1) + 2];
      }
    }
  }

  /** Every day but the last is followed by ", ". */
  lemma {:induction false} SummarySeparator(ws: seq<Weekday>, i: nat)
    requires i + 1 < |ws|
    ensures 4 * i + 4 <= |Summary(ws)| && Summary(ws)[4 * i + 2..4 * i + 4] == Separator
    decreases i
  {
    SummaryLength(ws);
    var rest := Summary(ws[1..]);
    assert Summary(ws) == Abbreviation(ws[0]) + Separator + rest;
    if i > 0 {
      SummarySeparator(ws[1..], i - 1);
      assert Summary(ws)[4 * i + 2..4 * i + 4] == rest[4 * (i - 1) + 2..4 * (i - 1) + 4];
    }
  }

  /**
   * Where everything is: day `i` occupies characters `4i` and `4i+1`, and
   * every day but the last is followed by ", ".
   */
  lemma {:induction false} SummaryLayout(ws: seq<Weekday>)
    ensures |ws| == 0 ==> Summary(ws) == ""
    ensures |ws| > 0 ==> |Summary(ws)| == 4 * |ws| - 2
    ensures forall i :: 0 <= i < |ws| ==> Summary(ws)[4 * i..4 * i + 2] == Abbreviation(ws[i])
    ensures forall i :: 0 <= i < |ws| - 1 ==> Summary(ws)[4 * i + 2..4 * i + 4] == Separator
  {
    SummaryLength(ws);
    forall i | 0 <= i < |ws|
      ensures Summary(ws)[4 * i..4 * i + 2] == Abbreviation(ws[i])
    {
      SummaryDay(ws, i);
    }
    forall i | 0 <= i < |ws| - 1
      ensures Summary(ws)[4 * i + 2..4 * i + 4] == Separator
    {
      SummarySeparator(ws, i);
    }
  }

  /** The summary determines the selection: different selections never show the same text. */
  lemma {:induction false} SummaryInjective(a: seq<Weekday>, b: seq<Weekday>)
    requires Summary(a) == Summary(b)
    ensures a == b
  {
    SummaryLayout(a);
    SummaryLayout(b);
    assert |a| == |b|;
    forall i | 0 <= i < |a|
      ensures a[i] == b[i]
    {
      AbbreviationInjective(a[i], b[i]);
    }
  }
}

/**
 * `TrackerSettingsViewController`: the form that creates a habit or an
 * irregular event. The model keeps the fields the form's rules read and
 * write; layout and rendering are not modelled.
 */
module TrackerSettings {
  import opened Common
  import opened Seqs
  import opened Weekdays
  import opened Trackers
  import opened ObjectGraph
  import CoreDataService

  /** `TrackerTypes`. */
  datatype TrackerType = Habit | NotRegular

  /** The emoji palette, 18 items. */
  const Emojis: seq<string> := ["🙂", "😻", "🌺", "🐶", "❤️", "😱", "😇", "😡", "🥶", "🤔", "🙌", "🍔", "🥦", "🏓", "🥇", "🎸", "🏝", "😪"]

  /** The colour palette: `colorSelection1` to `colorSelection18`. */
  const Colors: seq<Color> := [
    ColorSelection(1), ColorSelection(2), ColorSelection(3), ColorSelection(4), ColorSelection(5), ColorSelection(6),
    ColorSelection(7), ColorSelection(8), ColorSelection(9), ColorSelection(10), ColorSelection(11), ColorSelection(12),
    ColorSelection(13), ColorSelection(14), ColorSelection(15), ColorSelection(16), ColorSelection(17), ColorSelection(18)]

  /**
   * The form's state. `emojiIndex`/`colorIndex` are the selected collection
   * items, `emoji`/`color` the selected values, `storedColor` the colour
   * whose hex string `selectedColors` holds, `category` the chosen category
   * name; `buttonEnabled` and `clearHidden` are the create button's
   * `isEnabled` and the clear button's `isHidden`.
   */
  datatype Form = Form(
    trackerType: Option<TrackerType>,
    text: Option<string>,
    weekdays: Option<seq<Weekday>>,
    emojiIndex: Option<nat>,
    emoji: Option<string>,
    colorIndex: Option<nat>,
    color: Option<Color>,
    storedColor: Option<Color>,
    category: Option<string>,
    buttonEnabled: bool,
    clearHidden: bool)

  /**
   * A freshly shown form. A new `UIButton` is enabled, and nothing disables
   * it until the first event recomputes the state.
   */
  function InitialForm(kind: Option<TrackerType>): Form {
    Form(kind, Some(""), None, None, None, None, None, None, None, true, true)
  }

  /** `!(textField.text?.isEmpty ?? true)`: a missing text counts as empty. */
  predicate HasName(f: Form) {
    f.text.Some? && |f.text.value| > 0
  }

  /**
   * The create button's condition. A habit also needs the weekdays to be
   * set (an empty list counts as set); any other kind, including none, does
   * not.
   */
  predicate IsFormValid(f: Form) {
    if f.trackerType == Some(Habit) then
      HasName(f) && f.weekdays.Some? && f.emoji.Some? && f.color.Some? && f.category.Some?
    else
      HasName(f) && f.emoji.Some? && f.color.Some? && f.category.Some?
  }

  /** The selections agree with the palettes, and a selected colour's hex string is stored. */
  predicate Selections(f: Form) {
    && (f.emojiIndex.None? <==> f.emoji.None?)
    && (f.emojiIndex.Some? ==> f.emojiIndex.value < |Emojis| && f.emoji == Some(Emojis[f.emojiIndex.value]))
    && (f.colorIndex.None? <==> f.color.None?)
    && (f.colorIndex.Some? ==> f.colorIndex.value < |Colors| && f.color == Some(Colors[f.colorIndex.value]))
    && (f.color.Some? ==> f.storedColor == f.color)
  }

  /**
   * `updateCreateButtonState()`. The rule itself is `IsFormValid`; what it
   * means is stated by `EnabledCreateStoresDraft` and `EmptyScheduleCounts`.
   */
  function UpdateCreateButtonState(f: Form): (r: Form)
    ensures r.buttonEnabled <==> IsFormValid(f)
    ensures r.(buttonEnabled := f.buttonEnabled) == f
  {
    f.(buttonEnabled := IsFormValid(f))
  }

  /** `setWeekdays(weekdays:)`: the schedule screen's list, possibly empty, becomes the selection. */
  function SetWeekdays(f: Form, ws: seq<Weekday>): (r: Form)
    ensures r.weekdays == Some(ws)
    ensures r.buttonEnabled <==> IsFormValid(r)
    ensures Selections(f) ==> Selections(r)
  {
    UpdateCreateButtonState(f.(weekdays := Some(ws)))
  }

  /** `didSelect(category:)`. */
  function DidSelectCategory(f: Form, name: string): (r: Form)
    ensures r.category == Some(name)
    ensures r.buttonEnabled <==> IsFormValid(r)
    ensures Selections(f) ==> Selections(r)
  {
    UpdateCreateButtonState(f.(category := Some(name)))
  }

  /** `didEditTextField`: `text` is the field's content after the edit. */
  function DidEditTextField(f: Form, text: Option<string>): (r: Form)
    ensures r.text == text
    ensures r.clearHidden <==> !HasName(r)
    ensures r.buttonEnabled <==> IsFormValid(r)
    ensures Selections(f) ==> Selections(r)
  {
    var edited := f.(text := text);
    UpdateCreateButtonState(edited.(clearHidden := !HasName(edited)))
  }

  /** `clearTextField`: empties the name, which always disables the button. */
  function ClearTextField(f: Form): (r: Form)
    ensures r.text == Some("") && r.clearHidden
    ensures !r.buttonEnabled && !IsFormValid(r)
    ensures Selections(f) ==> Selections(r)
  {
    UpdateCreateButtonState(f.(text := Some(""), clearHidden := true))
  }

  /**
   * A tap on emoji item `item`: tapping the selected one clears the
   * selection, any other one becomes the only selection.
   */
  function TapEmoji(f: Form, item: nat): (r: Form)
    requires item < |Emojis|
    ensures f.emojiIndex == Some(item) ==> r.emojiIndex.None? && r.emoji.None?
    ensures f.emojiIndex != Some(item) ==> r.emojiIndex == Some(item) && r.emoji == Some(Emojis[item])
    ensures r.(emojiIndex := f.emojiIndex, emoji := f.emoji, buttonEnabled := f.buttonEnabled) == f
    ensures r.buttonEnabled <==> IsFormValid(r)
    ensures Selections(f) ==> Selections(r)
  {
    if f.emojiIndex == Some(item) then UpdateCreateButtonState(f.(emojiIndex := None, emoji := None))
    else UpdateCreateButtonState(f.(emojiIndex := Some(item), emoji := Some(Emojis[item])))
  }

  /**
   * A tap on colour item `item`, followed by the reload that renders the
   * selected cell and stores its hex string. Clearing the selection leaves
   * the stored hex string as it was.
   */
  function TapColor(f: Form, item: nat): (r: Form)
    requires item < |Colors|
    ensures f.colorIndex == Some(item) ==> r.colorIndex.None? && r.color.None? && r.storedColor == f.storedColor
    ensures f.colorIndex != Some(item) ==> r.colorIndex == Some(item) && r.color == Some(Colors[item]) && r.storedColor == r.color
    ensures r.(colorIndex := f.colorIndex, color := f.color, storedColor := f.storedColor, buttonEnabled := f.buttonEnabled) == f
    ensures r.buttonEnabled <==> IsFormValid(r)
    ensures Selections(f) ==> Selections(r)
  {
    if f.colorIndex == Some(item) then UpdateCreateButtonState(f.(colorIndex := None, color := None))
    else
      var c := Colors[item];
      UpdateCreateButtonState(f.(colorIndex := Some(item), color := Some(c), storedColor := Some(c)))
  }

  /** Two taps on the same emoji: a selected item comes back selected, otherwise the selection ends up empty. */
  lemma {:induction false} TapEmojiTwice(f: Form, item: nat)
    requires item < |Emojis| && Selections(f)
    ensures f.emojiIndex == Some(item) ==> TapEmoji(TapEmoji(f, item), item) == f.(buttonEnabled := IsFormValid(f))
    ensures f.emojiIndex != Some(item) ==> TapEmoji(TapEmoji(f, item), item).emojiIndex.None?
  {
  }

  /** The same for colours; the hex string then stays that of `item`. */
  lemma {:induction false} TapColorTwice(f: Form, item: nat)
    requires item < |Colors| && Selections(f)
    ensures f.colorIndex == Some(item) ==> TapColor(TapColor(f, item), item) == f.(buttonEnabled := IsFormValid(f))
    ensures f.colorIndex != Some(item) ==>
              var r := TapColor(TapColor(f, item), item);
              r.colorIndex.None? && r.storedColor == Some(Colors[item])
  {
  }

  /** Row count of the settings table: category, plus schedule for a habit. */
  function NumberOfRows(f: Form): (n: nat)
    ensures n == 2 <==> f.trackerType == Some(Habit)
    ensures n == 1 <==> f.trackerType != Some(Habit)
  {
    match f.trackerType
    case None => 1
    case Some(t) => if t == Habit then 2 else 1
  }

  /**
   * The `Tracker` arguments the form supplies: the call sites construct
   * `Tracker` without `isPined` and `category`, which the struct declares
   * without defaults, so the form's result stops short of a `Tracker`.
   */
  datatype Draft = Draft(id: Uuid, name: string, color: Color, emoji: string,
                         calendar: Option<seq<Weekday>>, date: Option<Instant>)

  /** Completing a draft with the two fields the call sites leave out. */
  function Complete(d: Draft, isPinned: bool, category: string): (t: Tracker)
    ensures t.id == d.id && t.name == d.name && t.color == d.color && t.emoji == d.emoji
    ensures t.calendar == d.calendar && t.date == d.date
    ensures t.isPinned == isPinned && t.category == category
  {
    Tracker(d.id, d.name, d.color, d.emoji, d.calendar, d.date, isPinned, category)
  }

  /** What reaches `addTracker(category:tracker:)`. */
  datatype Delivery = Delivery(category: string, draft: Draft)

  /** The conditions under which `didTapCreateButton` returns before saving. */
  predicate Aborts(f: Form, g: Graph, fetchFails: bool) {
    || f.trackerType.None?
    || f.category.None?
    || CoreDataService.FetchCategoryByName(g, f.category.value, fetchFails).None?
    || (f.trackerType == Some(Habit) && f.weekdays.None?)
  }

  /** The tracker object the form inserts into the context. */
  function StoredTracker(f: Form, g: Graph, categoryKey: nat, id: Uuid, now: Instant, pinnedDefault: bool): TrackerObject
    requires f.trackerType.Some?
  {
    var habit := f.trackerType.value == Habit;
    TrackerObject(g.nextKey, Some(id), Some(f.text.OrElse("")), f.storedColor, f.emoji,
                  if habit then f.weekdays else None,
                  if habit then None else Some(now),
                  pinnedDefault, Some(categoryKey))
  }

  /**
   * `didTapCreateButton`. `id` is the fresh `UUID()`, `now` the `Date()`
   * taken before the branch, `fetchFails` whether the category lookup
   * throws, `pinnedDefault` the `isPined` a new object starts with. An
   * irregular event stores no calendar and the current date; a habit stores
   * the selected weekdays and no date. Both save and hand the category name
   * and the draft to the delegate.
   */
  function DidTapCreate(f: Form, ctx: Context, id: Uuid, now: Instant, fetchFails: bool, pinnedDefault: bool)
    : (r: (Context, Option<Delivery>))
    ensures r.1.None? <==> Aborts(f, ctx.live, fetchFails)
    ensures r.1.None? ==> r.0 == ctx
    ensures r.1.Some? ==>
              var cat := CoreDataService.FetchCategoryByName(ctx.live, f.category.value, fetchFails).value;
              && r.0.persisted == r.0.live
              && r.0.live == ctx.live.(trackers := ctx.live.trackers + [StoredTracker(f, ctx.live, cat.key, id, now, pinnedDefault)],
                                      nextKey := ctx.live.nextKey + 1)
              && r.1.value.category == f.category.value
  {
    if f.trackerType.None? || f.category.None? then (ctx, None)
    else
      match CoreDataService.FetchCategoryByName(ctx.live, f.category.value, fetchFails)
      case None => (ctx, None)
      case Some(cat) =>
        if f.trackerType.value == Habit && f.weekdays.None? then (ctx, None)
        else
          var obj := StoredTracker(f, ctx.live, cat.key, id, now, pinnedDefault);
          var g := ctx.live.(trackers := ctx.live.trackers + [obj], nextKey := ctx.live.nextKey + 1);
          var draft := Draft(id, f.text.OrElse(""), f.color.OrElse(ColorSelection(1)), f.emoji.OrElse(""),
                             if f.trackerType.value == Habit then f.weekdays else None,
                             if f.trackerType.value == Habit then None else Some(now));
          (Save(Stage(ctx, g)), Some(Delivery(f.category.value, draft)))
  }

  /**
   * Every created tracker has exactly one schedule kind: a habit its
   * weekdays, an irregular event the creation date. The same holds for the
   * stored object and for the draft however it is completed.
   */
  lemma {:induction false} CreateSetsOneScheduleKind(f: Form, ctx: Context, id: Uuid, now: Instant, fetchFails: bool, pinnedDefault: bool,
                                  isPinned: bool, category: string)
    requires DidTapCreate(f, ctx, id, now, fetchFails, pinnedDefault).1.Some?
    ensures var r := DidTapCreate(f, ctx, id, now, fetchFails, pinnedDefault);
            var d := r.1.value.draft;
            var obj := r.0.live.trackers[|ctx.live.trackers|];
            && HasOneScheduleKind(Complete(d, isPinned, category))
            && (f.trackerType == Some(Habit) ==> d.calendar == f.weekdays && d.date.None?)
            && (f.trackerType == Some(NotRegular) ==> d.calendar.None? && d.date == Some(now))
            && obj.calendar == d.calendar && obj.date == d.date
  {
  }

  /**
   * When the create button was enabled by the rules, the stored object and
   * the delivered draft agree field by field, the object lands in the chosen
   * category, and the store stays valid.
   */
  lemma {:induction false} EnabledCreateStoresDraft(f: Form, ctx: Context, id: Uuid, now: Instant, pinnedDefault: bool)
    requires Selections(f) && IsFormValid(f) && f.trackerType.Some?
    requires Valid(ctx.live)
    requires CoreDataService.FetchCategoryByName(ctx.live, f.category.value, false).Some?
    ensures var r := DidTapCreate(f, ctx, id, now, false, pinnedDefault);
            var cat := CoreDataService.FetchCategoryByName(ctx.live, f.category.value, false).value;
            && r.1.Some?
            && var d := r.1.value.draft;
               var obj := r.0.live.trackers[|ctx.live.trackers|];
               && obj.id == Some(d.id) && obj.name == Some(d.name) && obj.color == Some(d.color)
               && obj.emoji == Some(d.emoji) && obj.calendar == d.calendar && obj.date == d.date
               && obj in TrackersOf(r.0.live, cat.key)
               && Valid(r.0.live)
  {
    var g := ctx.live;
    var cat := CoreDataService.FetchCategoryByName(g, f.category.value, false).value;
    var obj := StoredTracker(f, g, cat.key, id, now, pinnedDefault);
    assert cat in g.categories;
    AppendTrackerKeepsValid(g, obj);
    assert DidTapCreate(f, ctx, id, now, false, pinnedDefault).0.live.trackers == g.trackers + [obj];
  }

  /** The freshly shown form's enabled button does nothing: no category is chosen yet. */
  lemma {:induction false} InitialTapAborts(kind: Option<TrackerType>, ctx: Context, id: Uuid, now: Instant, fetchFails: bool, pinnedDefault: bool)
    ensures !IsFormValid(InitialForm(kind)) && InitialForm(kind).buttonEnabled
    ensures DidTapCreate(InitialForm(kind), ctx, id, now, fetchFails, pinnedDefault) == (ctx, None)
  {
  }

  /** An empty schedule counts as chosen: it completes a habit's form like any other list. */
  lemma {:induction false} EmptyScheduleCounts(f: Form)
    requires f.trackerType == Some(Habit)
    requires HasName(f) && f.emoji.Some? && f.color.Some? && f.category.Some?
    ensures SetWeekdays(f, []).buttonEnabled
    ensures !IsFormValid(f.(weekdays := None))
  {
  }
}
