/**
 * `TrackerRecordStore`: the completion ledger. Record objects live in the
 * shared context; the store also keeps its own list `completedTrackers`,
 * which `saveRecord` appends to and `deleteRecord` searches.
 */
module RecordStore {
  import opened Common
  import opened Seqs
  import opened Ordering
  import opened ObjectGraph

  /**
   * The store's state: the shared context and the `completedTrackers` list.
   * The list holds references to managed objects; here it holds value
   * snapshots, so an entry deleted from the context keeps its old `id` and
   * `date`.
   */
  datatype Ledger = Ledger(ctx: Context, local: seq<RecordObject>)

  /** The `TrackerRecord` value a caller passes to `deleteRecord`. */
  datatype CompletionMark = CompletionMark(id: Uuid, date: Instant)

  /** The fetch's sort key: the record's `date`, earlier first. */
  function DateKey(r: RecordObject): seq<int> {
    [r.date.day, r.date.second]
  }

  /** `fetchRecords()`: every record object of the context, by ascending date. */
  function FetchRecords(l: Ledger): (r: seq<RecordObject>)
    ensures multiset(r) == multiset(l.ctx.live.records)
    ensures SortedBy(r, DateKey)
  {
    SortBy(l.ctx.live.records, DateKey)
  }

  /**
   * `fetchRecords(forTracker:)`: the fetched records whose `trackerID`
   * relationship is the given tracker object, still in date order.
   */
  function FetchRecordsFor(l: Ledger, trackerKey: nat): (r: seq<RecordObject>)
    ensures forall x :: x in r <==> x in l.ctx.live.records && x.tracker == Some(trackerKey)
    ensures forall x :: multiset(r)[x] == if x.tracker == Some(trackerKey) then multiset(l.ctx.live.records)[x] else 0
    ensures SortedBy(r, DateKey)
  {
    var fetched := FetchRecords(l);
    FilterSorted(fetched, (x: RecordObject) => x.tracker == Some(trackerKey), DateKey);
    FilterCount(fetched, (x: RecordObject) => x.tracker == Some(trackerKey));
    assert forall x :: x in fetched <==> x in l.ctx.live.records by {
      forall x
        ensures x in fetched <==> x in l.ctx.live.records
      {
        assert x in fetched <==> x in multiset(fetched);
      }
    }
    Filter(fetched, (x: RecordObject) => x.tracker == Some(trackerKey))
  }

  /** The record object `saveRecord` creates: only `date` and `id` are assigned. */
  function NewRecord(l: Ledger, id: Uuid, date: Instant): RecordObject {
    RecordObject(l.ctx.live.nextKey, id, date, None)
  }

  /**
   * `saveRecord(forTracker:onDate:)`: one new record at the end of both the
   * context and `completedTrackers`, then a save. Nothing checks for a
   * record of the same tracker on the same day.
   */
  function SaveRecord(l: Ledger, id: Uuid, date: Instant): (r: Ledger)
    ensures r.local == l.local + [NewRecord(l, id, date)]
    ensures r.ctx.live.records == l.ctx.live.records + [NewRecord(l, id, date)]
    ensures r.ctx.live.categories == l.ctx.live.categories && r.ctx.live.trackers == l.ctx.live.trackers
    ensures r.ctx.persisted == r.ctx.live
  {
    var rec := NewRecord(l, id, date);
    var g := l.ctx.live.(records := l.ctx.live.records + [rec], nextKey := l.ctx.live.nextKey + 1);
    Ledger(Save(Stage(l.ctx, g)), l.local + [rec])
  }

  /** `saveLocalRecords(completedTrackers:)`: the list is replaced wholesale; the context is untouched. */
  function SaveLocalRecords(l: Ledger, records: seq<RecordObject>): (r: Ledger)
    ensures r.local == records && r.ctx == l.ctx
  {
    l.(local := records)
  }

  /** The `first(where:)` condition of `deleteRecord`: same tracker id, same calendar day. */
  predicate Matches(x: RecordObject, mark: CompletionMark) {
    x.id == mark.id && SameDay(x.date, mark.date)
  }

  /** Position in `completedTrackers` of the record `deleteRecord` targets. */
  function Target(l: Ledger, mark: CompletionMark): (r: Option<nat>)
    ensures r.Some? ==> r.value < |l.local| && Matches(l.local[r.value], mark)
    ensures r.Some? ==> forall j :: 0 <= j < r.value ==> !Matches(l.local[j], mark)
    ensures r.None? <==> forall j :: 0 <= j < |l.local| ==> !Matches(l.local[j], mark)
  {
    FirstIndexWhere(l.local, (x: RecordObject) => Matches(x, mark))
  }

  /** The context's records without the object whose key is `k`. */
  function WithoutObject(records: seq<RecordObject>, k: nat): (r: seq<RecordObject>)
    ensures forall x :: x in r <==> x in records && x.key != k
  {
    Filter(records, (x: RecordObject) => x.key != k)
  }

  /** Deleting by key drops every copy of that object and keeps every copy of the others. */
  lemma {:induction false} WithoutObjectCount(records: seq<RecordObject>, k: nat)
    ensures forall x :: multiset(WithoutObject(records, k))[x] == if x.key != k then multiset(records)[x] else 0
  {
    FilterCount(records, (x: RecordObject) => x.key != k);
  }

  /**
   * `deleteRecord(completedTracker:)`: finds the first record of
   * `completedTrackers` for that tracker on that calendar day, deletes that
   * object from the context and saves. `completedTrackers` itself is not
   * changed. Without a match nothing is deleted and nothing saved.
   */
  function DeleteRecord(l: Ledger, mark: CompletionMark): (r: Ledger)
    ensures r.local == l.local
    ensures Target(l, mark).None? ==> r == l
    ensures Target(l, mark).Some? ==>
              && r.ctx.persisted == r.ctx.live
              && r.ctx.live.categories == l.ctx.live.categories
              && r.ctx.live.trackers == l.ctx.live.trackers
              && forall x :: x in r.ctx.live.records <==> x in l.ctx.live.records && x.key != l.local[Target(l, mark).value].key
  {
    match Target(l, mark)
    case None => l
    case Some(i) =>
      var g := l.ctx.live.(records := WithoutObject(l.ctx.live.records, l.local[i].key));
      Ledger(Save(Stage(l.ctx, g)), l.local)
  }

  /** The lookup depends on the mark only through its tracker id and its calendar day. */
  lemma {:induction false} TargetIgnoresTimeOfDay(local: seq<RecordObject>, a: CompletionMark, b: CompletionMark)
    requires a.id == b.id && SameDay(a.date, b.date)
    ensures FirstIndexWhere(local, (x: RecordObject) => Matches(x, a)) == FirstIndexWhere(local, (x: RecordObject) => Matches(x, b))
    decreases |local|
  {
    if |local| > 0 {
      TargetIgnoresTimeOfDay(local[1..], a, b);
    }
  }

  /** Time of day is ignored: two marks on the same day delete the same record. */
  lemma {:induction false} DeleteRecordIgnoresTimeOfDay(l: Ledger, id: Uuid, day: int, s1: nat, s2: nat)
    ensures DeleteRecord(l, CompletionMark(id, Instant(day, s1))) == DeleteRecord(l, CompletionMark(id, Instant(day, s2)))
  {
    TargetIgnoresTimeOfDay(l.local, CompletionMark(id, Instant(day, s1)), CompletionMark(id, Instant(day, s2)));
  }

  /**
   * Assuming a deleted, saved record keeps reading its old `id` and `date`:
   * because `completedTrackers` keeps it, a second delete for the same mark
   * targets the same, already deleted object and changes nothing further.
   */
  lemma {:induction false} DeleteRecordIdempotent(l: Ledger, mark: CompletionMark)
    ensures DeleteRecord(DeleteRecord(l, mark), mark).ctx.live == DeleteRecord(l, mark).ctx.live
    ensures DeleteRecord(DeleteRecord(l, mark), mark).local == l.local
  {
    var once := DeleteRecord(l, mark);
    match Target(l, mark)
    case None =>
    case Some(i) =>
      var k := l.local[i].key;
      var twice := DeleteRecord(once, mark);
      assert Target(once, mark) == Some(i);
      FilterIdempotent(l.ctx.live.records, k);
  }

  lemma {:induction false} FilterIdempotent(records: seq<RecordObject>, k: nat)
    ensures WithoutObject(WithoutObject(records, k), k) == WithoutObject(records, k)
    decreases |records|
  {
    if |records| > 0 {
      FilterIdempotent(records[1..], k);
    }
  }

  /** Number of context records of tracker `id` on calendar day `day`. */
  function CountOn(records: seq<RecordObject>, id: Uuid, day: int): nat
    decreases |records|
  {
    if |records| == 0 then 0
    else (if records[0].id == id && records[0].date.day == day then 1 else 0) + CountOn(records[1..], id, day)
  }

  lemma {:induction false} CountOnAppend(s: seq<RecordObject>, t: seq<RecordObject>, id: Uuid, day: int)
    ensures CountOn(s + t, id, day) == CountOn(s, id, day) + CountOn(t, id, day)
    decreases |s|
  {
    if |s| > 0 {
      assert (s + t)[1..] == s[1..] + t;
      CountOnAppend(s[1..], t, id, day);
    } else {
      assert s + t == t;
    }
  }

  lemma {:induction false} WithoutObjectAppend(s: seq<RecordObject>, t: seq<RecordObject>, k: nat)
    ensures WithoutObject(s + t, k) == WithoutObject(s, k) + WithoutObject(t, k)
    decreases |s|
  {
    if |s| > 0 {
      assert (s + t)[1..] == s[1..] + t;
      WithoutObjectAppend(s[1..], t, k);
    } else {
      assert s + t == t;
    }
  }

  lemma {:induction false} WithoutAbsentObject(s: seq<RecordObject>, k: nat)
    requires forall j :: 0 <= j < |s| ==> s[j].key != k
    ensures WithoutObject(s, k) == s
    decreases |s|
  {
    if |s| > 0 {
      WithoutAbsentObject(s[1..], k);
      assert s == [s[0]] + s[1..];
    }
  }

  lemma {:induction false} CountTwoAppended(rs: seq<RecordObject>, first: RecordObject, second: RecordObject, id: Uuid, day: int)
    requires first.id == id && first.date.day == day && second.id == id && second.date.day == day
    ensures CountOn(rs + [first, second], id, day) == CountOn(rs, id, day) + 2
    ensures CountOn(rs + [second], id, day) == CountOn(rs, id, day) + 1
  {
    CountOnAppend(rs, [first, second], id, day);
    CountOnAppend(rs, [second], id, day);
    assert CountOn([second], id, day) == 1 by {
      assert [second][1..] == [];
    }
    assert CountOn([first, second], id, day) == 2 by {
      assert [first, second][1..] == [second];
    }
  }

  /** With no earlier match, the first of two appended matching records is the target. */
  lemma {:induction false} TargetIsFirstAppended(l: Ledger, prefix: seq<RecordObject>, first: RecordObject, second: RecordObject, mark: CompletionMark)
    requires l.local == prefix + [first, second]
    requires forall j :: 0 <= j < |prefix| ==> !Matches(prefix[j], mark)
    requires Matches(first, mark)
    ensures Target(l, mark) == Some(|prefix|)
  {
    assert l.local[|prefix|] == first;
    assert forall j :: 0 <= j < |prefix| ==> l.local[j] == prefix[j];
  }

  /** Removing a fresh object appended after `rs` leaves `rs` and the other appended record. */
  lemma {:induction false} WithoutFirstAppended(rs: seq<RecordObject>, first: RecordObject, second: RecordObject)
    requires forall j :: 0 <= j < |rs| ==> rs[j].key < first.key
    requires second.key != first.key
    ensures WithoutObject(rs + [first, second], first.key) == rs + [second]
  {
    WithoutObjectAppend(rs, [first, second], first.key);
    WithoutAbsentObject(rs, first.key);
    assert WithoutObject([first, second], first.key) == [second] by {
      assert [first, second][1..] == [second];
      assert [second][1..] == [];
    }
  }

  /** Undoing twice after two appended matching marks deletes the first of them and nothing else. */
  lemma {:induction false} UnmarkTwiceAfterTwoMarks(l: Ledger, prefix: seq<RecordObject>, rs: seq<RecordObject>,
                                                    first: RecordObject, second: RecordObject, mark: CompletionMark)
    requires l.local == prefix + [first, second] && l.ctx.live.records == rs + [first, second]
    requires forall j :: 0 <= j < |prefix| ==> !Matches(prefix[j], mark)
    requires Matches(first, mark)
    requires forall j :: 0 <= j < |rs| ==> rs[j].key < first.key
    requires second.key != first.key
    ensures DeleteRecord(DeleteRecord(l, mark), mark).ctx.live.records == rs + [second]
  {
    TargetIsFirstAppended(l, prefix, first, second, mark);
    WithoutFirstAppended(rs, first, second);
    DeleteRecordIdempotent(l, mark);
  }

  /**
   * The inconsistency the duplicate-tolerant ledger allows: marking a
   * tracker done twice on one day and then undone twice leaves one record
   * of that day in the store, because both deletes target the first one.
   * This rests on the same assumption as `DeleteRecordIdempotent`: the
   * deleted entry of `completedTrackers` keeps matching the mark.
   */
  lemma {:induction false} TwoMarksTwoUnmarksLeaveOne(l: Ledger, id: Uuid, day: int)
    requires AllBelow(l.ctx.live.records, RecordKey, l.ctx.live.nextKey)
    requires forall j :: 0 <= j < |l.local| ==> !Matches(l.local[j], CompletionMark(id, Instant(day, 0)))
    requires CountOn(l.ctx.live.records, id, day) == 0
    ensures var mark := CompletionMark(id, Instant(day, 0));
            var l2 := SaveRecord(SaveRecord(l, id, Instant(day, 0)), id, Instant(day, 0));
            && CountOn(l2.ctx.live.records, id, day) == 2
            && CountOn(DeleteRecord(DeleteRecord(l2, mark), mark).ctx.live.records, id, day) == 1
  {
    var mark := CompletionMark(id, Instant(day, 0));
    var l1 := SaveRecord(l, id, Instant(day, 0));
    var l2 := SaveRecord(l1, id, Instant(day, 0));
    var first := NewRecord(l, id, Instant(day, 0));
    var second := NewRecord(l1, id, Instant(day, 0));
    var rs := l.ctx.live.records;
    assert l2.ctx.live.records == rs + [first, second];
    assert l2.local == l.local + [first, second];
    CountTwoAppended(rs, first, second, id, day);
    assert CountOn(l2.ctx.live.records, id, day) == CountOn(rs + [first, second], id, day);
    UnmarkTwiceAfterTwoMarks(l2, l.local, rs, first, second, mark);
    var d := DeleteRecord(DeleteRecord(l2, mark), mark);
    assert d.ctx.live.records == rs + [second];
  }

  /**
   * `saveRecord` never sets the `trackerID` relationship, so the records it
   * creates are never returned by `fetchRecords(forTracker:)`.
   */
  lemma {:induction false} SavedRecordNotFoundByTracker(l: Ledger, id: Uuid, date: Instant, trackerKey: nat)
    ensures NewRecord(l, id, date) !in FetchRecordsFor(SaveRecord(l, id, date), trackerKey)
    ensures NewRecord(l, id, date) in FetchRecords(SaveRecord(l, id, date))
  {
    var r := SaveRecord(l, id, date);
    assert NewRecord(l, id, date) in r.ctx.live.records;
    assert NewRecord(l, id, date) in multiset(FetchRecords(r));
  }

  /** Saving and deleting records keep the store valid. */
  lemma {:induction false} LedgerKeepsValid(l: Ledger, id: Uuid, date: Instant, mark: CompletionMark)
    requires Valid(l.ctx.live)
    ensures Valid(SaveRecord(l, id, date).ctx.live)
    ensures Valid(DeleteRecord(l, mark).ctx.live)
  {
    AppendKeys(l.ctx.live.records, NewRecord(l, id, date), RecordKey, l.ctx.live.nextKey);
    match Target(l, mark)
    case None =>
    case Some(i) =>
      var p := (x: RecordObject) => x.key != l.local[i].key;
      FilterDistinct(l.ctx.live.records, p, RecordKey);
      FilterBelow(l.ctx.live.records, p, RecordKey, l.ctx.live.nextKey);
  }
}
