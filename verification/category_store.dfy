/** `CoreDataService`: an unsorted fetch of a category by exact name, and object creation. */
module CoreDataService {
  import opened Common
  import opened Seqs
  import opened ObjectGraph

  predicate Named(c: CategoryObject, name: string) {
    c.name == Some(name)
  }

  /**
   * `fetchCategory(byName:context:)`. The request has no sort descriptor, so
   * the first match is taken in the context's storage order. `fetchFails`
   * stands for `context.fetch` throwing, which yields `nil`. The function
   * returns no context: the lookup cannot change the store.
   */
  function FetchCategoryByName(g: Graph, name: string, fetchFails: bool): (r: Option<CategoryObject>)
    ensures fetchFails ==> r.None?
    ensures r.Some? ==> exists i :: 0 <= i < |g.categories| && g.categories[i] == r.value && Named(r.value, name)
                          && forall j :: 0 <= j < i ==> !Named(g.categories[j], name)
    ensures !fetchFails && r.None? ==> forall c :: c in g.categories ==> !Named(c, name)
  {
    if fetchFails then None
    else
      match FirstIndexWhere(g.categories, (c: CategoryObject) => Named(c, name))
      case None => None
      case Some(i) => Some(g.categories[i])
  }

  /**
   * `createCategory(name:context:)`: inserts a category object with that
   * name into the context and returns it; nothing is saved.
   */
  function CreateCategory(ctx: Context, name: string): (r: (Context, CategoryObject))
    ensures r.1.name == Some(name) && r.1.key == ctx.live.nextKey
    ensures r.0.live.categories == ctx.live.categories + [r.1]
    ensures r.0.live.trackers == ctx.live.trackers && r.0.live.records == ctx.live.records
    ensures r.0.persisted == ctx.persisted
  {
    var c := CategoryObject(ctx.live.nextKey, Some(name));
    (Stage(ctx, ctx.live.(categories := ctx.live.categories + [c], nextKey := ctx.live.nextKey + 1)), c)
  }

  lemma {:induction false} CreateCategoryKeepsValid(ctx: Context, name: string)
    requires Valid(ctx.live)
    ensures Valid(CreateCategory(ctx, name).0.live)
  {
  }
}

/** `TrackerCategoryStore`: categories fetched by name, saved, deleted with their trackers, renamed. */
module CategoryStore {
  import opened Common
  import opened Seqs
  import opened Ordering
  import opened ObjectGraph
  import CoreDataService

  /** The sort key of the `category` attribute; a missing name has the empty key. */
  function NameKey(c: CategoryObject): seq<int> {
    match c.name
    case None => []
    case Some(s) => StringKey(s)
  }

  /** `fetchCategories()`: every category object, ascending by name. */
  function FetchCategories(g: Graph): (r: seq<CategoryObject>)
    ensures multiset(r) == multiset(g.categories)
    ensures SortedBy(r, NameKey)
  {
    SortBy(g.categories, NameKey)
  }

  /** `fetchCategory(byTitle:)`: the first category of the sorted fetch with exactly that name. */
  function FetchCategoryByTitle(g: Graph, title: string): (r: Option<CategoryObject>)
    ensures r.Some? ==> r.value in g.categories && r.value.name == Some(title)
    ensures r.None? <==> forall c :: c in g.categories ==> c.name != Some(title)
  {
    var fetched := FetchCategories(g);
    var r := FirstWhere(fetched, (c: CategoryObject) => c.name == Some(title));
    assert forall c :: c in g.categories <==> c in fetched by {
      forall c
        ensures c in g.categories <==> c in fetched
      {
        assert c in g.categories <==> c in multiset(g.categories);
        assert c in fetched <==> c in multiset(fetched);
      }
    }
    r
  }

  /** The category object `SaveCategory` adds. */
  function NewCategory(g: Graph, name: string): CategoryObject {
    CategoryObject(g.nextKey, Some(name))
  }

  /**
   * `saveCategory(category:)`: a new category object with that name and no
   * trackers, then a save. Names are not checked for uniqueness.
   */
  function SaveCategory(ctx: Context, name: string): (r: Context)
    ensures r.live.categories == ctx.live.categories + [NewCategory(ctx.live, name)]
    ensures r.live.trackers == ctx.live.trackers && r.live.records == ctx.live.records
    ensures r.persisted == r.live
  {
    var c := NewCategory(ctx.live, name);
    Save(Stage(ctx, ctx.live.(categories := ctx.live.categories + [c], nextKey := ctx.live.nextKey + 1)))
  }

  /** A saved category owns no trackers, even if its name is already taken. */
  lemma {:induction false} SavedCategoryIsEmpty(ctx: Context, name: string)
    requires Valid(ctx.live)
    ensures TrackersOf(SaveCategory(ctx, name).live, NewCategory(ctx.live, name).key) == []
    ensures Valid(SaveCategory(ctx, name).live)
  {
    var g := ctx.live;
    var r := SaveCategory(ctx, name).live;
    var k := NewCategory(g, name).key;
    forall t | t in g.trackers
      ensures t.category != Some(k)
    {
      if t.category.Some? {
        var c :| c in g.categories && c.key == t.category.value;
        var j :| 0 <= j < |g.categories| && g.categories[j] == c;
        assert CategoryKey(g.categories[j]) < g.nextKey;
      }
    }
    forall j | 0 <= j < |r.trackers|
      ensures r.trackers[j].category != Some(k)
    {
      assert r.trackers[j] in g.trackers;
    }
    FilterNone(r.trackers, (t: TrackerObject) => t.category == Some(k));
    AppendKeys(g.categories, NewCategory(g, name), CategoryKey, g.nextKey);
  }

  /** The category objects other than the one with key `k`, in order. */
  function OtherCategories(cs: seq<CategoryObject>, k: nat): (r: seq<CategoryObject>)
    ensures forall x :: x in r <==> x in cs && x.key != k
  {
    Filter(cs, (x: CategoryObject) => x.key != k)
  }

  /** With unique identities, dropping the key of position `i` removes exactly that position. */
  lemma {:induction false} OtherCategoriesRemovesOne(cs: seq<CategoryObject>, i: nat)
    requires i < |cs| && DistinctBy(cs, CategoryKey)
    ensures OtherCategories(cs, cs[i].key) == RemoveAt(cs, i)
  {
    var k := cs[i].key;
    forall j | 0 <= j < |cs| && j != i
      ensures cs[j].key != k
    {
      if j < i {
        assert CategoryKey(cs[j]) != CategoryKey(cs[i]);
      } else {
        assert CategoryKey(cs[i]) != CategoryKey(cs[j]);
      }
    }
    FilterDropsOne(cs, (x: CategoryObject) => x.key != k, i);
    assert RemoveAt(cs, i) == cs[..i] + cs[i + 1..];
  }

  /** The graph without category `c` and without every tracker `c` owns. */
  function WithoutCategory(g: Graph, c: CategoryObject): (r: Graph)
    ensures forall x :: x in r.categories <==> x in g.categories && x.key != c.key
    ensures forall t :: t in r.trackers <==> t in g.trackers && t.category != Some(c.key)
    ensures r.records == g.records && r.nextKey == g.nextKey
  {
    g.(categories := OtherCategories(g.categories, c.key),
       trackers := Filter(g.trackers, (t: TrackerObject) => t.category != Some(c.key)))
  }

  /**
   * `deleteCategory(categoryName:)`: looks the name up with
   * `CoreDataService`; when found, deletes the category's trackers and the
   * category, then saves. Completion records are not touched. When the
   * lookup finds nothing (or fails) the context is left as it was.
   */
  function DeleteCategory(ctx: Context, name: string, fetchFails: bool): (r: Context)
    ensures CoreDataService.FetchCategoryByName(ctx.live, name, fetchFails).None? ==> r == ctx
    ensures CoreDataService.FetchCategoryByName(ctx.live, name, fetchFails).Some? ==>
              r.persisted == r.live && r.live.records == ctx.live.records
  {
    match CoreDataService.FetchCategoryByName(ctx.live, name, fetchFails)
    case None => ctx
    case Some(c) => Save(Stage(ctx, WithoutCategory(ctx.live, c)))
  }

  /** Dropping a category with its trackers leaves no tracker pointing at it and keeps the store valid. */
  lemma {:induction false} WithoutCategoryKeepsValid(g: Graph, c: CategoryObject)
    requires Valid(g)
    ensures TrackersOf(WithoutCategory(g, c), c.key) == []
    ensures Valid(WithoutCategory(g, c))
  {
    var h := WithoutCategory(g, c);
    var keepCategory := (x: CategoryObject) => x.key != c.key;
    var keepTracker := (t: TrackerObject) => t.category != Some(c.key);
    FilterDistinct(g.categories, keepCategory, CategoryKey);
    FilterBelow(g.categories, keepCategory, CategoryKey, g.nextKey);
    FilterDistinct(g.trackers, keepTracker, TrackerKey);
    FilterBelow(g.trackers, keepTracker, TrackerKey, g.nextKey);
    forall t | t in h.trackers && t.category.Some?
      ensures exists x :: x in h.categories && x.key == t.category.value
    {
      var x :| x in g.categories && x.key == t.category.value;
      assert x in h.categories;
    }
    forall j | 0 <= j < |h.trackers|
      ensures h.trackers[j].category != Some(c.key)
    {
      assert h.trackers[j] in h.trackers;
    }
    FilterNone(h.trackers, (t: TrackerObject) => t.category == Some(c.key));
  }

  /**
   * Deleting a category cascades: none of its trackers survive, every other
   * category and tracker does, and the store stays valid.
   */
  lemma {:induction false} DeleteCategoryCascades(ctx: Context, name: string)
    requires Valid(ctx.live)
    requires CoreDataService.FetchCategoryByName(ctx.live, name, false).Some?
    ensures var c := CoreDataService.FetchCategoryByName(ctx.live, name, false).value;
            var g := DeleteCategory(ctx, name, false).live;
            && c !in g.categories
            && TrackersOf(g, c.key) == []
            && (forall x :: x in ctx.live.categories && x.key != c.key ==> x in g.categories)
            && (forall t :: t in ctx.live.trackers && t.category != Some(c.key) ==> t in g.trackers)
            && g.records == ctx.live.records
            && Valid(g)
  {
    var c := CoreDataService.FetchCategoryByName(ctx.live, name, false).value;
    assert DeleteCategory(ctx, name, false).live == WithoutCategory(ctx.live, c);
    WithoutCategoryKeepsValid(ctx.live, c);
  }

  /** With unique identities, renaming by key changes exactly one position. */
  lemma {:induction false} RenameOne(cs: seq<CategoryObject>, i: nat, newName: string)
    requires i < |cs| && DistinctBy(cs, CategoryKey)
    ensures Rename(cs, cs[i].key, newName) == cs[i := cs[i].(name := Some(newName))]
  {
    var r := Rename(cs, cs[i].key, newName);
    forall j | 0 <= j < |cs| && j != i
      ensures r[j] == cs[j]
    {
      assert CategoryKey(cs[j]) != CategoryKey(cs[i]);
    }
  }

  /** The categories with object key `k` renamed to `newName`. */
  function Rename(cs: seq<CategoryObject>, k: nat, newName: string): (r: seq<CategoryObject>)
    ensures |r| == |cs|
    ensures forall i :: 0 <= i < |cs| ==> r[i].key == cs[i].key
    ensures forall i :: 0 <= i < |cs| && cs[i].key == k ==> r[i].name == Some(newName)
    ensures forall i :: 0 <= i < |cs| && cs[i].key != k ==> r[i] == cs[i]
  {
    seq(|cs|, i requires 0 <= i < |cs| => if cs[i].key == k then cs[i].(name := Some(newName)) else cs[i])
  }

  /**
   * `updateCategory(categoryName:newCategoryName:)`: renames the object the
   * lookup finds and saves; trackers are linked by object, so they stay
   * attached. An unknown name changes nothing.
   */
  function UpdateCategory(ctx: Context, name: string, newName: string, fetchFails: bool): (r: Context)
    ensures CoreDataService.FetchCategoryByName(ctx.live, name, fetchFails).None? ==> r == ctx
    ensures CoreDataService.FetchCategoryByName(ctx.live, name, fetchFails).Some? ==>
              && r.persisted == r.live
              && r.live.trackers == ctx.live.trackers
              && r.live.records == ctx.live.records
  {
    match CoreDataService.FetchCategoryByName(ctx.live, name, fetchFails)
    case None => ctx
    case Some(c) => Save(Stage(ctx, ctx.live.(categories := Rename(ctx.live.categories, c.key, newName))))
  }

  /** Renaming keeps every identity, so every tracker still resolves and the store stays valid. */
  lemma {:induction false} RenameKeepsValid(g: Graph, k: nat, newName: string)
    requires Valid(g)
    ensures Valid(g.(categories := Rename(g.categories, k, newName)))
  {
    var h := g.(categories := Rename(g.categories, k, newName));
    SameKeys(g.categories, h.categories, CategoryKey, g.nextKey);
    forall t | t in h.trackers && t.category.Some?
      ensures exists x :: x in h.categories && x.key == t.category.value
    {
      var x :| x in g.categories && x.key == t.category.value;
      var j :| 0 <= j < |g.categories| && g.categories[j] == x;
      assert h.categories[j].key == x.key;
    }
  }

  /**
   * Renaming changes the matched category's name and nothing else: it keeps
   * its identity and its trackers, other categories are untouched, and the
   * store stays valid.
   */
  lemma {:induction false} UpdateCategoryKeepsTrackers(ctx: Context, name: string, newName: string)
    requires Valid(ctx.live)
    requires CoreDataService.FetchCategoryByName(ctx.live, name, false).Some?
    ensures var c := CoreDataService.FetchCategoryByName(ctx.live, name, false).value;
            var g := UpdateCategory(ctx, name, newName, false).live;
            && c.(name := Some(newName)) in g.categories
            && TrackersOf(g, c.key) == TrackersOf(ctx.live, c.key)
            && (forall x :: x in ctx.live.categories && x.key != c.key ==> x in g.categories)
            && Valid(g)
  {
    var c := CoreDataService.FetchCategoryByName(ctx.live, name, false).value;
    var g := UpdateCategory(ctx, name, newName, false).live;
    var i :| 0 <= i < |ctx.live.categories| && ctx.live.categories[i] == c;
    assert g.categories[i] == c.(name := Some(newName));
    forall x | x in ctx.live.categories && x.key != c.key
      ensures x in g.categories
    {
      var j :| 0 <= j < |ctx.live.categories| && ctx.live.categories[j] == x;
      assert g.categories[j] == x;
    }
    RenameKeepsValid(ctx.live, c.key, newName);
  }
}
