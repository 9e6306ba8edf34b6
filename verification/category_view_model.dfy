/**
 * `CategoryViewModel`: the category names the category screen shows, kept in
 * memory as a list, every change mirrored to the category store and
 * announced through `categoriesChanged`.
 */
module CategoryViewModel {
  import opened Common
  import opened Seqs
  import opened Ordering
  import opened ObjectGraph
  import CoreDataService
  import CategoryStore

  /** The view-model's state: the `categories` list and the store's context. */
  datatype CategoryList = CategoryList(categories: seq<string>, ctx: Context)

  /**
   * The outcome of one call: the new state and the list handed to
   * `categoriesChanged`, or `None` when the call does not notify.
   */
  datatype Step = Step(vm: CategoryList, notice: Option<seq<string>>)

  /** The `category` attribute the `compactMap` reads. */
  function CategoryName(c: CategoryObject): Option<string> {
    c.name
  }

  /** The names the store holds, counted with multiplicity; unnamed objects count for nothing. */
  function NameOf(c: CategoryObject): multiset<string> {
    if c.name.Some? then multiset{c.name.value} else multiset{}
  }

  function Names(cs: seq<CategoryObject>): multiset<string>
    decreases |cs|
  {
    if |cs| == 0 then multiset{} else NameOf(cs[0]) + Names(cs[1..])
  }

  /** The view-model and the store agree: the same names, each as often. */
  predicate Mirrors(vm: CategoryList) {
    multiset(vm.categories) == Names(vm.ctx.live.categories)
  }

  lemma {:induction false} NamesAppend(s: seq<CategoryObject>, t: seq<CategoryObject>)
    ensures Names(s + t) == Names(s) + Names(t)
    decreases |s|
  {
    if |s| > 0 {
      assert (s + t)[1..] == s[1..] + t;
      NamesAppend(s[1..], t);
    } else {
      assert s + t == t;
    }
  }

  lemma {:induction false} NamesSingle(c: CategoryObject)
    ensures Names([c]) == NameOf(c)
  {
    assert [c][1..] == [];
  }

  lemma {:induction false} NamesCons(c: CategoryObject, t: seq<CategoryObject>)
    ensures Names([c] + t) == NameOf(c) + Names(t)
  {
    assert ([c] + t)[1..] == t;
  }

  /** Splits the names around position `i`. */
  lemma {:induction false} NamesSplit(s: seq<CategoryObject>, i: nat)
    requires i < |s|
    ensures Names(s) == Names(s[..i]) + NameOf(s[i]) + Names(s[i + 1..])
  {
    var a, b := s[..i], s[i + 1..];
    assert s == a + ([s[i]] + b);
    NamesAppend(a, [s[i]] + b);
    NamesCons(s[i], b);
  }

  /** Picking position `i` out of `s` splits its names into that object's and the rest's. */
  lemma {:induction false} NamesPick(s: seq<CategoryObject>, i: nat)
    requires i < |s|
    ensures Names(s) == NameOf(s[i]) + Names(RemoveAt(s, i))
  {
    NamesSplit(s, i);
    NamesAppend(s[..i], s[i + 1..]);
  }

  /** Taking the head of `s` out of its permutation `t` at position `i` leaves permutations. */
  lemma {:induction false} PermutationTail<T>(s: seq<T>, t: seq<T>, i: nat)
    requires |s| > 0 && i < |t| && t[i] == s[0] && multiset(s) == multiset(t)
    ensures multiset(s[1..]) == multiset(RemoveAt(t, i))
  {
    assert s == [s[0]] + s[1..];
    assert multiset(s) == multiset{s[0]} + multiset(s[1..]);
  }

  /** The names depend only on which objects there are, not on their order. */
  lemma {:induction false} NamesPermutation(s: seq<CategoryObject>, t: seq<CategoryObject>)
    requires multiset(s) == multiset(t)
    ensures Names(s) == Names(t)
    decreases |s|
  {
    if |s| == 0 {
      assert |multiset(t)| == 0;
    } else {
      assert s[0] in multiset(t);
      var i :| 0 <= i < |t| && t[i] == s[0];
      PermutationTail(s, t, i);
      NamesPermutation(s[1..], RemoveAt(t, i));
      NamesPick(t, i);
    }
  }

  lemma {:induction false} NamesRemoveAt(s: seq<CategoryObject>, i: nat)
    requires i < |s|
    ensures Names(RemoveAt(s, i)) == Names(s) - NameOf(s[i])
  {
    NamesPick(s, i);
  }

  lemma {:induction false} NamesUpdate(s: seq<CategoryObject>, i: nat, c: CategoryObject)
    requires i < |s|
    ensures Names(s[i := c]) == Names(s) - NameOf(s[i]) + NameOf(c)
  {
    var u := s[i := c];
    NamesSplit(s, i);
    NamesSplit(u, i);
    assert u[..i] == s[..i] && u[i + 1..] == s[i + 1..];
  }

  /** The `compactMap` keeps every name once per object that has one. */
  lemma {:induction false} CompactMapNames(s: seq<CategoryObject>)
    ensures multiset(CompactMap(s, CategoryName)) == Names(s)
    decreases |s|
  {
    if |s| > 0 {
      CompactMapNames(s[1..]);
    }
  }

  /** A name the store counts belongs to some category object. */
  lemma {:induction false} NamesMember(s: seq<CategoryObject>, n: string)
    requires n in Names(s)
    ensures exists c :: c in s && c.name == Some(n)
    decreases |s|
  {
    if NameOf(s[0]) == multiset{n} {
    } else {
      NamesMember(s[1..], n);
      var c :| c in s[1..] && c.name == Some(n);
      assert c in s;
    }
  }

  /**
   * `init()`: the names of the fetched categories in fetch order, so sorted,
   * with the unnamed ones dropped.
   */
  function Init(ctx: Context): (r: CategoryList)
    ensures r.ctx == ctx
    ensures SortedBy(r.categories, StringKey)
    ensures forall n :: n in r.categories <==> exists c :: c in ctx.live.categories && c.name == Some(n)
    ensures Mirrors(r)
  {
    var fetched := CategoryStore.FetchCategories(ctx.live);
    CompactMapSorted(fetched, CategoryName, CategoryStore.NameKey, StringKey);
    CompactMapNames(fetched);
    NamesPermutation(fetched, ctx.live.categories);
    assert forall c :: c in fetched <==> c in ctx.live.categories by {
      forall c
        ensures c in fetched <==> c in ctx.live.categories
      {
        assert c in fetched <==> c in multiset(fetched);
        assert c in ctx.live.categories <==> c in multiset(ctx.live.categories);
      }
    }
    CategoryList(CompactMap(fetched, CategoryName), ctx)
  }

  function NumberOfCategories(vm: CategoryList): nat {
    |vm.categories|
  }

  /** `getCategory(at:)`: indexing out of range traps, so callers pass a row below the count. */
  function GetCategory(vm: CategoryList, row: nat): string
    requires row < NumberOfCategories(vm)
  {
    vm.categories[row]
  }

  /** While the two agree, every row the screen shows names a category the store holds. */
  lemma {:induction false} RowsAreStored(vm: CategoryList, row: nat)
    requires Mirrors(vm)
    requires row < NumberOfCategories(vm)
    ensures exists c :: c in vm.ctx.live.categories && c.name == Some(GetCategory(vm, row))
    ensures CoreDataService.FetchCategoryByName(vm.ctx.live, GetCategory(vm, row), false).Some?
  {
    assert vm.categories[row] in multiset(vm.categories);
    NamesMember(vm.ctx.live.categories, vm.categories[row]);
  }

  /**
   * `deleteCategory(at:)`: removes the row, later rows move up; the store
   * deletes the category of that name; the new list is announced.
   */
  function DeleteCategoryAt(vm: CategoryList, row: nat, fetchFails: bool): (r: Step)
    requires row < NumberOfCategories(vm)
    ensures |r.vm.categories| == |vm.categories| - 1
    ensures forall j :: 0 <= j < row ==> r.vm.categories[j] == vm.categories[j]
    ensures forall j :: row <= j < |r.vm.categories| ==> r.vm.categories[j] == vm.categories[j + 1]
    ensures r.vm.ctx == CategoryStore.DeleteCategory(vm.ctx, vm.categories[row], fetchFails)
    ensures r.notice == Some(r.vm.categories)
  {
    var name := vm.categories[row];
    var next := CategoryList(RemoveAt(vm.categories, row), CategoryStore.DeleteCategory(vm.ctx, name, fetchFails));
    Step(next, Some(next.categories))
  }

  /**
   * `createCategory(_:)`: the store saves a new category, the name goes at
   * the end of the list (duplicates allowed), the new list is announced.
   */
  function CreateCategory(vm: CategoryList, name: string): (r: Step)
    ensures |r.vm.categories| == |vm.categories| + 1 && r.vm.categories[|vm.categories|] == name
    ensures r.vm.categories[..|vm.categories|] == vm.categories
    ensures r.vm.ctx == CategoryStore.SaveCategory(vm.ctx, name)
    ensures r.notice == Some(r.vm.categories)
  {
    var next := CategoryList(vm.categories + [name], CategoryStore.SaveCategory(vm.ctx, name));
    assert next.categories[..|vm.categories|] == vm.categories;
    Step(next, Some(next.categories))
  }

  /**
   * `updateCategory(category:newCategoryName:)`: replaces the first
   * occurrence of the old name, renames in the store and announces. An
   * old name not in the list changes nothing, calls no store and announces
   * nothing.
   */
  function UpdateCategory(vm: CategoryList, oldName: string, newName: string, fetchFails: bool): (r: Step)
    ensures oldName !in vm.categories ==> r == Step(vm, None)
    ensures oldName in vm.categories ==>
              var i := FirstIndexOf(vm.categories, oldName).value;
              && |r.vm.categories| == |vm.categories|
              && r.vm.categories[i] == newName
              && (forall j :: 0 <= j < i ==> vm.categories[j] != oldName)
              && (forall j :: 0 <= j < |vm.categories| && j != i ==> r.vm.categories[j] == vm.categories[j])
              && r.vm.ctx == CategoryStore.UpdateCategory(vm.ctx, oldName, newName, fetchFails)
              && r.notice == Some(r.vm.categories)
  {
    match FirstIndexOf(vm.categories, oldName)
    case None => Step(vm, None)
    case Some(i) =>
      assert forall j :: 0 <= j < i ==> vm.categories[j] == vm.categories[..i][j];
      var next := CategoryList(vm.categories[i := newName],
                               CategoryStore.UpdateCategory(vm.ctx, oldName, newName, fetchFails));
      Step(next, Some(next.categories))
  }

  /** Adding a row and deleting the last row gives the list back. */
  lemma {:induction false} CreateThenDeleteLastRestoresList(vm: CategoryList, name: string, fetchFails: bool)
    ensures var created := CreateCategory(vm, name).vm;
            |vm.categories| < NumberOfCategories(created)
            && DeleteCategoryAt(created, |vm.categories|, fetchFails).vm.categories == vm.categories
  {
    var created := CreateCategory(vm, name).vm;
    var deleted := DeleteCategoryAt(created, |vm.categories|, fetchFails).vm;
    assert deleted.categories == vm.categories;
  }

  /** Creating keeps the list and the store in step and the store valid. */
  lemma {:induction false} CreateKeepsMirror(vm: CategoryList, name: string)
    requires Valid(vm.ctx.live) && Mirrors(vm)
    ensures Mirrors(CreateCategory(vm, name).vm)
    ensures Valid(CreateCategory(vm, name).vm.ctx.live)
  {
    var cs := vm.ctx.live.categories;
    var c := CategoryStore.NewCategory(vm.ctx.live, name);
    NamesAppend(cs, [c]);
    NamesSingle(c);
    CategoryStore.SavedCategoryIsEmpty(vm.ctx, name);
  }

  /**
   * While fetches succeed, deleting a row keeps the list and the store in
   * step: the store loses one category of that name (the first in its
   * storage order, not necessarily the one the row was created for).
   */
  lemma {:induction false} DeleteKeepsMirror(vm: CategoryList, row: nat)
    requires Valid(vm.ctx.live) && Mirrors(vm)
    requires row < NumberOfCategories(vm)
    ensures Mirrors(DeleteCategoryAt(vm, row, false).vm)
    ensures Valid(DeleteCategoryAt(vm, row, false).vm.ctx.live)
  {
    var g := vm.ctx.live;
    var name := vm.categories[row];
    RowsAreStored(vm, row);
    var c := CoreDataService.FetchCategoryByName(g, name, false).value;
    var i :| 0 <= i < |g.categories| && g.categories[i] == c;
    CategoryStore.OtherCategoriesRemovesOne(g.categories, i);
    NamesRemoveAt(g.categories, i);
    CategoryStore.DeleteCategoryCascades(vm.ctx, name);
  }

  /** Replacing one occurrence of a name in the list swaps one copy of it for the new name. */
  lemma {:induction false} ReplaceOneName(names: seq<string>, row: nat, newName: string)
    requires row < |names|
    ensures multiset(names[row := newName]) == multiset(names) - multiset{names[row]} + multiset{newName}
  {
    var a, b := names[..row], names[row + 1..];
    assert names == a + [names[row]] + b;
    assert names[row := newName] == a + [newName] + b;
  }

  /** Renaming the category the lookup finds swaps one copy of the old name for the new one. */
  lemma {:induction false} RenameSwapsName(ctx: Context, oldName: string, newName: string)
    requires Valid(ctx.live)
    requires CoreDataService.FetchCategoryByName(ctx.live, oldName, false).Some?
    ensures Names(CategoryStore.UpdateCategory(ctx, oldName, newName, false).live.categories)
         == Names(ctx.live.categories) - multiset{oldName} + multiset{newName}
  {
    var g := ctx.live;
    var c := CoreDataService.FetchCategoryByName(g, oldName, false).value;
    var i :| 0 <= i < |g.categories| && g.categories[i] == c;
    CategoryStore.RenameOne(g.categories, i, newName);
    NamesUpdate(g.categories, i, c.(name := Some(newName)));
  }

  /** While fetches succeed, renaming keeps the list and the store in step. */
  lemma {:induction false} UpdateKeepsMirror(vm: CategoryList, oldName: string, newName: string)
    requires Valid(vm.ctx.live) && Mirrors(vm)
    ensures Mirrors(UpdateCategory(vm, oldName, newName, false).vm)
    ensures Valid(UpdateCategory(vm, oldName, newName, false).vm.ctx.live)
  {
    if oldName in vm.categories {
      var row := FirstIndexOf(vm.categories, oldName).value;
      RowsAreStored(vm, row);
      RenameSwapsName(vm.ctx, oldName, newName);
      ReplaceOneName(vm.categories, row, newName);
      CategoryStore.UpdateCategoryKeepsTrackers(vm.ctx, oldName, newName);
    }
  }
}
