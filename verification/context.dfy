/**
 * The shared managed-object context behind the three stores and the form:
 * category, tracker and completion-record objects, each with an object
 * identity (`key`), held both as the context's in-memory state (`live`) and
 * as the last saved state (`persisted`).
 */
module ObjectGraph {
  import opened Common
  import opened Seqs
  import opened Weekdays
  import opened Trackers

  /** `TrackerCategoryCD`: the `category` attribute is optional in the store. */
  datatype CategoryObject = CategoryObject(key: nat, name: Option<string>)

  /**
   * `TrackerCD`. `color` is the colour whose hex string is stored (the hex
   * encoding itself is not modelled); `calendar` is the weekday list the stored
   * JSON encodes; `category` is the key of the owning category object.
   */
  datatype TrackerObject = TrackerObject(
    key: nat,
    id: Option<Uuid>,
    name: Option<string>,
    color: Option<Color>,
    emoji: Option<string>,
    calendar: Option<seq<Weekday>>,
    date: Option<Instant>,
    isPinned: bool,
    category: Option<nat>)

  /**
   * `TrackerRecordCD`: `id` is the completed tracker's UUID, `tracker` the
   * key of the `trackerID` relationship.
   */
  datatype RecordObject = RecordObject(key: nat, id: Uuid, date: Instant, tracker: Option<nat>)

  /** The objects of one context state; new objects take `nextKey`. */
  datatype Graph = Graph(
    categories: seq<CategoryObject>,
    trackers: seq<TrackerObject>,
    records: seq<RecordObject>,
    nextKey: nat)

  datatype Context = Context(live: Graph, persisted: Graph)

  /** `saveContext()` (save errors are not modelled): the live state becomes the saved one. */
  function Save(ctx: Context): (r: Context)
    ensures r.live == ctx.live && r.persisted == ctx.live
  {
    Context(ctx.live, ctx.live)
  }

  /** Replaces the live state and leaves the saved one alone (a change not yet saved). */
  function Stage(ctx: Context, g: Graph): (r: Context)
    ensures r.live == g && r.persisted == ctx.persisted
  {
    Context(g, ctx.persisted)
  }

  /** The trackers a category object owns: the inverse of `TrackerCD.category`. */
  function TrackersOf(g: Graph, categoryKey: nat): (r: seq<TrackerObject>)
    ensures forall t :: t in r <==> t in g.trackers && t.category == Some(categoryKey)
  {
    Filter(g.trackers, (t: TrackerObject) => t.category == Some(categoryKey))
  }

  function CategoryKey(c: CategoryObject): int { c.key }
  function TrackerKey(t: TrackerObject): int { t.key }
  function RecordKey(r: RecordObject): int { r.key }

  /** Object identities are below `nextKey`, so a new object's key is fresh. */
  predicate KeysFresh(g: Graph) {
    && AllBelow(g.categories, CategoryKey, g.nextKey)
    && AllBelow(g.trackers, TrackerKey, g.nextKey)
    && AllBelow(g.records, RecordKey, g.nextKey)
  }

  /** Object identities are unique per entity. */
  predicate KeysDistinct(g: Graph) {
    && DistinctBy(g.categories, CategoryKey)
    && DistinctBy(g.trackers, TrackerKey)
    && DistinctBy(g.records, RecordKey)
  }

  /** Every tracker's category relationship points at a live category object. */
  predicate CategoriesResolve(g: Graph) {
    forall t :: t in g.trackers && t.category.Some? ==> exists c :: c in g.categories && c.key == t.category.value
  }

  /** The invariant every store operation preserves. */
  predicate Valid(g: Graph) {
    KeysFresh(g) && KeysDistinct(g) && CategoriesResolve(g)
  }

  /** Inserting a tracker under the next identity, in a live category or none, keeps the store valid. */
  lemma {:induction false} AppendTrackerKeepsValid(g: Graph, t: TrackerObject)
    requires Valid(g) && t.key == g.nextKey
    requires t.category.Some? ==> exists c :: c in g.categories && c.key == t.category.value
    ensures Valid(g.(trackers := g.trackers + [t], nextKey := g.nextKey + 1))
  {
    var h := g.(trackers := g.trackers + [t], nextKey := g.nextKey + 1);
    AppendKeys(g.trackers, t, TrackerKey, g.nextKey);
    forall u | u in h.trackers && u.category.Some?
      ensures exists c :: c in h.categories && c.key == u.category.value
    {
      if u != t {
        assert u in g.trackers;
      }
    }
  }

  /** Replacing a tracker by one with the same identity and category keeps the store valid. */
  lemma {:induction false} ReplaceTrackerKeepsValid(g: Graph, i: nat, t: TrackerObject)
    requires Valid(g) && i < |g.trackers|
    requires t.key == g.trackers[i].key && t.category == g.trackers[i].category
    ensures Valid(g.(trackers := g.trackers[i := t]))
  {
    var h := g.(trackers := g.trackers[i := t]);
    SameKeys(g.trackers, h.trackers, TrackerKey, g.nextKey);
    forall u | u in h.trackers && u.category.Some?
      ensures exists c :: c in h.categories && c.key == u.category.value
    {
      var j :| 0 <= j < |h.trackers| && h.trackers[j] == u;
      assert g.trackers[j] in g.trackers && g.trackers[j].category == u.category;
    }
  }

  /** Removing a tracker keeps the store valid, and the removed object is gone. */
  lemma {:induction false} RemoveTrackerKeepsValid(g: Graph, i: nat)
    requires Valid(g) && i < |g.trackers|
    ensures Valid(g.(trackers := RemoveAt(g.trackers, i)))
    ensures g.trackers[i] !in RemoveAt(g.trackers, i)
  {
    var r := RemoveAt(g.trackers, i);
    RemoveAtKeys(g.trackers, i, TrackerKey, g.nextKey);
    forall u | u in r
      ensures u in g.trackers && u != g.trackers[i]
    {
      var j :| 0 <= j < |r| && r[j] == u;
      var j' := if j < i then j else j + 1;
      assert u == g.trackers[j'];
      assert TrackerKey(g.trackers[j']) != TrackerKey(g.trackers[i]);
    }
  }

  /** The empty store a fresh install starts from. */
  const EmptyGraph := Graph([], [], [], 0)

  lemma {:induction false} EmptyGraphValid()
    ensures Valid(EmptyGraph)
  {
  }
}
