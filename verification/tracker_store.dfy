/** `TrackerStore`: tracker objects fetched by name, created, pinned and unpinned, deleted. */
module TrackerStore {
  import opened Common
  import opened Seqs
  import opened Ordering
  import opened Weekdays
  import opened Trackers
  import opened ObjectGraph

  /** The sort key of the `name` attribute; a missing name has the empty key. */
  function NameKey(t: TrackerObject): seq<int> {
    match t.name
    case None => []
    case Some(s) => StringKey(s)
  }

  /** `getTrackers()`: every tracker object, ascending by name. */
  function GetTrackers(g: Graph): (r: seq<TrackerObject>)
    ensures multiset(r) == multiset(g.trackers)
    ensures SortedBy(r, NameKey)
  {
    SortBy(g.trackers, NameKey)
  }

  /**
   * The object `saveTracker` inserts. `pinnedDefault` is the `isPined` value
   * a new object starts with, which the entity description (not part of this
   * model) fixes; `date` is never assigned, so it stays `nil`.
   */
  function NewTracker(g: Graph, id: Uuid, name: string, color: Color, emoji: string,
                      calendar: seq<Weekday>, category: Option<CategoryObject>, pinnedDefault: bool): TrackerObject
  {
    TrackerObject(g.nextKey, Some(id), Some(name), Some(color), Some(emoji), Some(calendar), None, pinnedDefault,
                  if category.Some? then Some(category.value.key) else None)
  }

  /**
   * `saveTracker(name:color:emoji:calendarData:category:isCompleted:)`:
   * inserts one tracker object under a fresh `id` and saves. The
   * `isCompleted` argument is accepted and never read.
   */
  function SaveTracker(ctx: Context, id: Uuid, name: string, color: Color, emoji: string, calendar: seq<Weekday>,
                       category: Option<CategoryObject>, isCompleted: bool, pinnedDefault: bool): (r: Context)
    ensures r.live.trackers == ctx.live.trackers + [NewTracker(ctx.live, id, name, color, emoji, calendar, category, pinnedDefault)]
    ensures r.live.categories == ctx.live.categories && r.live.records == ctx.live.records
    ensures r.persisted == r.live
  {
    var t := NewTracker(ctx.live, id, name, color, emoji, calendar, category, pinnedDefault);
    Save(Stage(ctx, ctx.live.(trackers := ctx.live.trackers + [t], nextKey := ctx.live.nextKey + 1)))
  }

  /**
   * The saved tracker carries exactly the given fields, does not depend on
   * `isCompleted`, and (for a live category) keeps the store valid.
   */
  lemma {:induction false} SaveTrackerIgnoresCompletion(ctx: Context, id: Uuid, name: string, color: Color, emoji: string,
                                     calendar: seq<Weekday>, category: Option<CategoryObject>, pinnedDefault: bool)
    requires Valid(ctx.live)
    requires category.Some? ==> category.value in ctx.live.categories
    ensures SaveTracker(ctx, id, name, color, emoji, calendar, category, true, pinnedDefault)
         == SaveTracker(ctx, id, name, color, emoji, calendar, category, false, pinnedDefault)
    ensures var t := SaveTracker(ctx, id, name, color, emoji, calendar, category, false, pinnedDefault).live.trackers[|ctx.live.trackers|];
            && t.id == Some(id) && t.name == Some(name) && t.color == Some(color) && t.emoji == Some(emoji)
            && t.calendar == Some(calendar) && t.date.None?
            && (category.Some? ==> t in TrackersOf(SaveTracker(ctx, id, name, color, emoji, calendar, category, false, pinnedDefault).live, category.value.key))
    ensures Valid(SaveTracker(ctx, id, name, color, emoji, calendar, category, false, pinnedDefault).live)
  {
    AppendTrackerKeepsValid(ctx.live, NewTracker(ctx.live, id, name, color, emoji, calendar, category, pinnedDefault));
  }

  predicate HasId(t: TrackerObject, id: Uuid) {
    t.id == Some(id)
  }

  /** Position of the tracker a fetch by `id == %@` returns first (storage order: no sort descriptor). */
  function FirstWithId(g: Graph, id: Uuid): (r: Option<nat>)
    ensures r.Some? ==> r.value < |g.trackers| && HasId(g.trackers[r.value], id)
    ensures r.Some? ==> forall j :: 0 <= j < r.value ==> !HasId(g.trackers[j], id)
    ensures r.None? <==> forall t :: t in g.trackers ==> !HasId(t, id)
  {
    FirstIndexWhere(g.trackers, (t: TrackerObject) => HasId(t, id))
  }

  /**
   * `togleIsPined(trackerID:)`: flips `isPined` on the first tracker with
   * that id, then saves (also when none matched). A throwing fetch returns
   * before saving.
   */
  function TogglePinned(ctx: Context, id: Uuid, fetchFails: bool): (r: Context)
    ensures fetchFails ==> r == ctx
    ensures !fetchFails ==> r.persisted == r.live
    ensures !fetchFails ==> r.live.categories == ctx.live.categories && r.live.records == ctx.live.records
    ensures !fetchFails ==> |r.live.trackers| == |ctx.live.trackers|
    ensures !fetchFails && FirstWithId(ctx.live, id).None? ==> r.live == ctx.live
    ensures !fetchFails && FirstWithId(ctx.live, id).Some? ==>
              var i := FirstWithId(ctx.live, id).value;
              && r.live.trackers[i] == ctx.live.trackers[i].(isPinned := !ctx.live.trackers[i].isPinned)
              && forall j :: 0 <= j < |ctx.live.trackers| && j != i ==> r.live.trackers[j] == ctx.live.trackers[j]
  {
    if fetchFails then ctx
    else
      match FirstWithId(ctx.live, id)
      case None => Save(ctx)
      case Some(i) =>
        var t := ctx.live.trackers[i];
        Save(Stage(ctx, ctx.live.(trackers := ctx.live.trackers[i := t.(isPinned := !t.isPinned)])))
  }

  /** A toggle flips a field the fetch does not look at, so the next fetch finds the same position. */
  lemma {:induction false} TogglePinnedFindsSame(ctx: Context, id: Uuid)
    ensures FirstWithId(TogglePinned(ctx, id, false).live, id) == FirstWithId(ctx.live, id)
  {
    var once := TogglePinned(ctx, id, false);
    var before, after := FirstWithId(ctx.live, id), FirstWithId(once.live, id);
    if before.Some? {
      assert HasId(once.live.trackers[before.value], id);
    }
  }

  /** Toggling twice restores every tracker and keeps the store valid. */
  lemma {:induction false} TogglePinnedTwiceRestores(ctx: Context, id: Uuid)
    requires Valid(ctx.live)
    ensures TogglePinned(TogglePinned(ctx, id, false), id, false).live == ctx.live
    ensures Valid(TogglePinned(ctx, id, false).live)
  {
    var once := TogglePinned(ctx, id, false);
    TogglePinnedFindsSame(ctx, id);
    match FirstWithId(ctx.live, id)
    case None =>
    case Some(i) =>
      var t := ctx.live.trackers[i];
      assert once.live.trackers[i := t] == ctx.live.trackers;
      ReplaceTrackerKeepsValid(ctx.live, i, t.(isPinned := !t.isPinned));
  }

  /**
   * `deleteTracker(trackerID:)`: deletes the first tracker with that id,
   * then saves (also when none matched). A throwing fetch returns before
   * saving.
   */
  function DeleteTracker(ctx: Context, id: Uuid, fetchFails: bool): (r: Context)
    ensures fetchFails ==> r == ctx
    ensures !fetchFails ==> r.persisted == r.live
    ensures !fetchFails ==> r.live.categories == ctx.live.categories && r.live.records == ctx.live.records
    ensures !fetchFails && FirstWithId(ctx.live, id).None? ==> r.live == ctx.live
    ensures !fetchFails && FirstWithId(ctx.live, id).Some? ==>
              r.live.trackers == RemoveAt(ctx.live.trackers, FirstWithId(ctx.live, id).value)
  {
    if fetchFails then ctx
    else
      match FirstWithId(ctx.live, id)
      case None => Save(ctx)
      case Some(i) => Save(Stage(ctx, ctx.live.(trackers := RemoveAt(ctx.live.trackers, i))))
  }

  /**
   * Deleting removes exactly one object, the first with that id: a later
   * tracker sharing the id survives, and the store stays valid.
   */
  lemma {:induction false} DeleteTrackerRemovesFirstOnly(ctx: Context, id: Uuid)
    requires Valid(ctx.live)
    requires FirstWithId(ctx.live, id).Some?
    ensures var g := DeleteTracker(ctx, id, false).live;
            var i := FirstWithId(ctx.live, id).value;
            && |g.trackers| == |ctx.live.trackers| - 1
            && multiset(g.trackers) == multiset(ctx.live.trackers) - multiset{ctx.live.trackers[i]}
            && ctx.live.trackers[i] !in g.trackers
            && Valid(g)
  {
    RemoveTrackerKeepsValid(ctx.live, FirstWithId(ctx.live, id).value);
  }
}
