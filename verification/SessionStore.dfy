/** The persisted index of editor sessions: a bounded map with its insertion order, saved
    after every change and read back at start. */
module SessionStore {
  import opened Seqs

  const MAX_RECORDS: nat := 256

  /** `allow` and `deny` are the persisted always-decisions. */
  datatype Record = Record(
    id: string, agent: string, key: string, createdAt: int, mode: string, allow: set<string>, deny: set<string>)

  predicate IsComplete(r: Record) {
    r.id != "" && r.key != ""
  }

  datatype Store = Store(records: map<string, Record>, order: seq<string>)

  /** Every record is complete, stands under its id, and is in the order. */
  ghost predicate Valid(st: Store) {
    forall id :: id in st.records ==> st.records[id].id == id && IsComplete(st.records[id]) && id in st.order
  }

  function Evicted(st: Store): Store
    decreases |st.order|
  {
    if |st.records| > MAX_RECORDS && st.order != []
    then Evicted(Store(st.records - {st.order[0]}, st.order[1..]))
    else st
  }

  function Put(st: Store, r: Record): Store {
    if !IsComplete(r) then st
    else Evicted(Store(st.records[r.id := r], if r.id in st.records then st.order else st.order + [r.id]))
  }

  /** A change of an existing record that keeps its id and key. */
  function Update(st: Store, id: string, r: Record): Store {
    if id in st.records then st.(records := st.records[id := r]) else st
  }

  /** The order without the first entry of `id`. */
  function Without(order: seq<string>, id: string): seq<string> {
    if order == [] then [] else if order[0] == id then order[1..] else [order[0]] + Without(order[1..], id)
  }

  function Removed(st: Store, id: string): Store {
    if id in st.records then Store(st.records - {id}, Without(st.order, id)) else st
  }

  lemma {:induction false} WithoutAt(order: seq<string>, id: string, i: nat)
    requires i <= |order| && (forall k :: 0 <= k < i ==> order[k] != id) && (i < |order| ==> order[i] == id)
    ensures Without(order, id) == TakenOut(order, i)
    decreases i
  {
    if i > 0 {
      WithoutAt(order[1..], id, i - 1);
      TakenOutOfTail(order, i);
    }
  }

  /** The order without its entry at `i`, if there is one. */
  function TakenOut(order: seq<string>, i: nat): seq<string> {
    if i < |order| then order[..i] + order[i + 1..] else order
  }

  lemma TakenOutOfTail(order: seq<string>, i: nat)
    requires 0 < i <= |order|
    ensures [order[0]] + TakenOut(order[1..], i - 1) == TakenOut(order, i)
  {
  }

  lemma {:induction false} WithoutKeeps(order: seq<string>, id: string)
    ensures forall x :: x != id ==> (x in Without(order, id) <==> x in order)
  {
    if order != [] {
      WithoutKeeps(order[1..], id);
      assert order == [order[0]] + order[1..];
    }
  }

  /** Removing a record keeps the others, and all of them in the order. */
  lemma RemovedKeepsValid(st: Store, id: string)
    requires Valid(st)
    ensures Valid(Removed(st, id)) && Removed(st, id).records == st.records - {id}
  {
    WithoutKeeps(st.order, id);
  }

  // ----- Saving and reading back

  function Listing(st: Store, order: seq<string>): seq<Record> {
    if order == [] then []
    else
      var n := |order| - 1;
      Listing(st, order[..n]) + if order[n] in st.records then [st.records[order[n]]] else []
  }

  /** Puts `r` behind the last record that is not newer. */
  function Insert(list: seq<Record>, r: Record): seq<Record> {
    if list == [] || list[|list| - 1].createdAt <= r.createdAt then list + [r]
    else
      var n := |list| - 1;
      Insert(list[..n], r) + [list[n]]
  }

  /** The stable sort by creation time. */
  function StableSort(list: seq<Record>): seq<Record> {
    if list == [] then []
    else
      var n := |list| - 1;
      Insert(StableSort(list[..n]), list[n])
  }

  function Saved(st: Store): seq<Record> {
    StableSort(Listing(st, st.order))
  }

  function Loaded(list: seq<Record>): Store {
    if list == [] then Store(map[], [])
    else
      var n := |list| - 1;
      var st := Loaded(list[..n]);
      if IsComplete(list[n]) then Store(st.records[list[n].id := list[n]], st.order + [list[n].id]) else st
  }

  // ----- Eviction

  lemma {:induction false} EvictedKeepsValid(st: Store)
    requires Valid(st)
    ensures Valid(Evicted(st))
    decreases |st.order|
  {
    if |st.records| > MAX_RECORDS && st.order != [] {
      var next := Store(st.records - {st.order[0]}, st.order[1..]);
      forall id | id in next.records ensures id in next.order {
        assert st.order == [st.order[0]] + next.order;
      }
      EvictedKeepsValid(next);
    }
  }

  /** How many entries of the order eviction takes. */
  function EvictCount(st: Store): (n: nat)
    ensures n <= |st.order|
    decreases |st.order|
  {
    if |st.records| > MAX_RECORDS && st.order != []
    then 1 + EvictCount(Store(st.records - {st.order[0]}, st.order[1..]))
    else 0
  }

  /** Eviction takes a prefix of the order and its records, nothing else, and only while
      over the bound. */
  lemma {:induction false} EvictedIs(st: Store)
    ensures EvictsPrefix(st, Evicted(st), EvictCount(st)) && (|st.records| <= MAX_RECORDS ==> EvictCount(st) == 0)
    decreases |st.order|
  {
    if |st.records| > MAX_RECORDS && st.order != [] {
      var next := Store(st.records - {st.order[0]}, st.order[1..]);
      EvictedIs(next);
      EvictsOneMore(st, next, Evicted(next), EvictCount(next));
    }
  }

  /** `left` is `st` without the first `n` entries of its order and their records. */
  ghost predicate EvictsPrefix(st: Store, left: Store, n: nat) {
    && n <= |st.order| && left.order == st.order[n..]
    && (forall id :: id in left.records <==> id in st.records && id !in st.order[..n])
    && (forall id :: id in left.records ==> left.records[id] == st.records[id])
  }

  lemma EvictsOneMore(st: Store, next: Store, left: Store, m: nat)
    requires st.order != [] && next == Store(st.records - {st.order[0]}, st.order[1..]) && EvictsPrefix(next, left, m)
    ensures EvictsPrefix(st, left, m + 1)
  {
    DropDrop(st.order, 1, m);
    PrefixIds(st.order, m);
  }

  lemma PrefixIds(order: seq<string>, m: nat)
    requires m < |order|
    ensures forall id :: id in order[..m + 1] <==> id == order[0] || id in order[1..][..m]
  {
    assert order[..m + 1] == [order[0]] + order[1..][..m];
  }

  /** After eviction the bound holds, whatever a loaded file held. */
  lemma {:induction false} EvictedIsBounded(st: Store)
    requires Valid(st)
    ensures |Evicted(st).records| <= MAX_RECORDS
    decreases |st.order|
  {
    assert st.order == [] ==> st.records == map[];
    if |st.records| > MAX_RECORDS && st.order != [] {
      var next := Store(st.records - {st.order[0]}, st.order[1..]);
      forall id | id in next.records ensures id in next.order {
        assert st.order == [st.order[0]] + next.order;
      }
      EvictedIsBounded(next);
    }
  }

  lemma PutKeepsValid(st: Store, r: Record)
    requires Valid(st)
    ensures Valid(Put(st, r)) && (IsComplete(r) ==> |Put(st, r).records| <= MAX_RECORDS)
  {
    if IsComplete(r) {
      var next := Store(st.records[r.id := r], if r.id in st.records then st.order else st.order + [r.id]);
      EvictedKeepsValid(next);
      EvictedIsBounded(next);
    }
  }

  // ----- The sort

  ghost predicate Sorted(list: seq<Record>) {
    forall i, j :: 0 <= i < j < |list| ==> list[i].createdAt <= list[j].createdAt
  }

  /** The records created at `t`, in their order. */
  function CreatedAt(list: seq<Record>, t: int): seq<Record> {
    if list == [] then []
    else
      var n := |list| - 1;
      CreatedAt(list[..n], t) + if list[n].createdAt == t then [list[n]] else []
  }

  /** `out` holds the same records as `list`, and those of equal age in the same order. */
  ghost predicate IsStable(list: seq<Record>, out: seq<Record>) {
    forall t :: CreatedAt(out, t) == CreatedAt(list, t)
  }

  lemma CreatedAtLast(list: seq<Record>, r: Record, t: int)
    ensures CreatedAt(list + [r], t) == CreatedAt(list, t) + if r.createdAt == t then [r] else []
  {
    assert (list + [r])[..|list|] == list;
  }

  lemma {:induction false} NoneCreatedAt(list: seq<Record>, t: int)
    requires forall i :: 0 <= i < |list| ==> list[i].createdAt != t
    ensures CreatedAt(list, t) == []
  {
    if list != [] {
      NoneCreatedAt(list[..|list| - 1], t);
    }
  }

  lemma {:induction false} InsertIsSorted(list: seq<Record>, r: Record)
    requires Sorted(list)
    ensures Sorted(Insert(list, r))
    ensures forall x :: x in Insert(list, r) <==> x in list || x == r
  {
    if list != [] && list[|list| - 1].createdAt > r.createdAt {
      var n := |list| - 1;
      InsertIsSorted(list[..n], r);
      InsertedInFront(list, Insert(list[..n], r), r);
    } else {
      SortedEnd(list, r);
    }
  }

  lemma SortedEnd(list: seq<Record>, r: Record)
    requires Sorted(list) && (list == [] || list[|list| - 1].createdAt <= r.createdAt)
    ensures Sorted(list + [r]) && forall x :: x in list + [r] <==> x in list || x == r
  {
  }

  lemma InsertedInFront(list: seq<Record>, inserted: seq<Record>, r: Record)
    requires Sorted(list) && list != [] && list[|list| - 1].createdAt > r.createdAt
    requires Sorted(inserted) && forall x :: x in inserted <==> x in list[..|list| - 1] || x == r
    ensures var out := inserted + [list[|list| - 1]];
      Sorted(out) && forall x :: x in out <==> x in list || x == r
  {
    var n := |list| - 1;
    assert list == list[..n] + [list[n]];
    SortedAppend(inserted, list[n]);
  }

  lemma SortedAppend(list: seq<Record>, r: Record)
    requires Sorted(list) && forall x :: x in list ==> x.createdAt <= r.createdAt
    ensures Sorted(list + [r])
  {
    assert forall i :: 0 <= i < |list| ==> list[i] in list;
  }

  lemma {:induction false} InsertIsStable(list: seq<Record>, r: Record, t: int)
    requires Sorted(list)
    ensures CreatedAt(Insert(list, r), t) == CreatedAt(list + [r], t)
  {
    if list != [] && list[|list| - 1].createdAt > r.createdAt {
      var n := |list| - 1;
      InsertIsStable(list[..n], r, t);
      assert list == list[..n] + [list[n]];
      InsertInFront(list[..n], list[n], Insert(list[..n], r), r, t);
    }
  }

  /** Two records of different age may change places. */
  lemma InsertInFront(before: seq<Record>, last: Record, inserted: seq<Record>, r: Record, t: int)
    requires last.createdAt != r.createdAt && CreatedAt(inserted, t) == CreatedAt(before + [r], t)
    ensures CreatedAt(inserted + [last], t) == CreatedAt(before + [last] + [r], t)
  {
    CreatedAtLast(inserted, last, t);
    CreatedAtLast(before, r, t);
    CreatedAtLast(before + [last], r, t);
    CreatedAtLast(before, last, t);
  }

  /** What the sort gives is in order of age, with records of equal age as they were. */
  lemma {:induction false} SortIsStable(list: seq<Record>)
    ensures Sorted(StableSort(list)) && IsStable(list, StableSort(list))
  {
    if list != [] {
      var n := |list| - 1;
      var sorted := StableSort(list[..n]);
      SortIsStable(list[..n]);
      InsertIsSorted(sorted, list[n]);
      forall t ensures CreatedAt(StableSort(list), t) == CreatedAt(list, t) {
        InsertIsStable(sorted, list[n], t);
        CreatedAtLast(sorted, list[n], t);
      }
    }
  }

  /** The last record of a sorted list is the last of its age. */
  lemma LastIsNewest(a: seq<Record>, b: seq<Record>)
    requires a != [] && Sorted(a) && Sorted(b) && IsStable(a, b)
    ensures b != [] && b[|b| - 1].createdAt >= a[|a| - 1].createdAt
  {
    var t := a[|a| - 1].createdAt;
    assert CreatedAt(b, t) == CreatedAt(a, t) != [];
    if forall i :: 0 <= i < |b| ==> b[i].createdAt != t {
      NoneCreatedAt(b, t);
    }
  }

  lemma SameLast(a: seq<Record>, b: seq<Record>)
    requires a != [] && Sorted(a) && Sorted(b) && IsStable(a, b)
    ensures b != [] && a[|a| - 1] == b[|b| - 1] && IsStable(a[..|a| - 1], b[..|b| - 1])
  {
    LastIsNewest(a, b);
    LastIsNewest(b, a);
    var m, n := |a| - 1, |b| - 1;
    var t := a[m].createdAt;
    assert CreatedAt(a, t) == CreatedAt(b, t);
    SameEnd(CreatedAt(a[..m], t), CreatedAt(b[..n], t), a[m], b[n]);
    forall u ensures CreatedAt(b[..n], u) == CreatedAt(a[..m], u) {
      assert CreatedAt(a, u) == CreatedAt(b, u);
      SameButLast(CreatedAt(a[..m], u), CreatedAt(b[..n], u), if a[m].createdAt == u then [a[m]] else []);
    }
  }

  lemma SameEnd(a: seq<Record>, b: seq<Record>, x: Record, y: Record)
    requires a + [x] == b + [y]
    ensures x == y
  {
    assert (a + [x])[|a|] == x && (b + [y])[|b|] == y;
  }

  lemma SameButLast(a: seq<Record>, b: seq<Record>, last: seq<Record>)
    requires a + last == b + last
    ensures a == b
  {
    assert |a| == |b|;
    assert a == (a + last)[..|a|] && b == (b + last)[..|a|];
  }

  lemma {:induction false} SortedIsUnique(a: seq<Record>, b: seq<Record>)
    requires Sorted(a) && Sorted(b) && IsStable(a, b)
    ensures a == b
    decreases |a|
  {
    if a == [] {
      if b != [] {
        LastIsNewest(b, a);
      }
    } else {
      SameLast(a, b);
      SortedIsUnique(a[..|a| - 1], b[..|b| - 1]);
      assert a == a[..|a| - 1] + [a[|a| - 1]] && b == b[..|b| - 1] + [b[|b| - 1]];
    }
  }

  /** And it is the only list that is. */
  lemma StableSortIff(list: seq<Record>, out: seq<Record>)
    ensures out == StableSort(list) <==> Sorted(out) && IsStable(list, out)
  {
    SortIsStable(list);
    if Sorted(out) && IsStable(list, out) {
      forall t ensures CreatedAt(out, t) == CreatedAt(StableSort(list), t) {
        assert CreatedAt(out, t) == CreatedAt(list, t) == CreatedAt(StableSort(list), t);
      }
      SortedIsUnique(StableSort(list), out);
    }
  }

  // ----- The round trip

  lemma {:induction false} SortKeeps(list: seq<Record>)
    ensures forall x :: x in StableSort(list) <==> x in list
  {
    if list != [] {
      var n := |list| - 1;
      SortKeeps(list[..n]);
      SortIsStable(list[..n]);
      InsertIsSorted(StableSort(list[..n]), list[n]);
      assert list == list[..n] + [list[n]];
    }
  }

  lemma {:induction false} ListingHolds(st: Store, order: seq<string>)
    ensures forall x :: x in Listing(st, order) <==> exists id :: id in order && id in st.records && st.records[id] == x
  {
    if order != [] {
      var n := |order| - 1;
      ListingHolds(st, order[..n]);
      assert order == order[..n] + [order[n]];
    }
  }

  /** Reading back a list that holds one record per id. */
  lemma {:induction false} LoadedIs(list: seq<Record>, records: map<string, Record>)
    requires forall x :: x in list ==> IsComplete(x) && x.id in records && records[x.id] == x
    ensures var st := Loaded(list);
      && (forall id :: id in st.records ==> id in records && st.records[id] == records[id])
      && (forall x :: x in list ==> x.id in st.records)
      && |st.order| == |list| && (forall i :: 0 <= i < |list| ==> st.order[i] == list[i].id)
  {
    if list != [] {
      var n := |list| - 1;
      LoadedIs(list[..n], records);
      assert list == list[..n] + [list[n]];
    }
  }

  /** Saving and reopening loses no record and invents none, and the reopened store is
      valid again. */
  lemma ReopenKeepsRecords(st: Store)
    requires Valid(st)
    ensures Loaded(Saved(st)).records == st.records && Valid(Loaded(Saved(st)))
  {
    var list := Saved(st);
    ListingHolds(st, st.order);
    SortKeeps(Listing(st, st.order));
    ReloadKeepsRecords(list, st.records);
  }

  lemma ReloadKeepsRecords(list: seq<Record>, records: map<string, Record>)
    requires forall id :: id in records ==> records[id].id == id && IsComplete(records[id]) && records[id] in list
    requires forall x :: x in list ==> IsComplete(x) && x.id in records && records[x.id] == x
    ensures Loaded(list).records == records && Valid(Loaded(list))
  {
    LoadedIs(list, records);
    forall id | id in records ensures id in Loaded(list).records && id in Loaded(list).order {
      ReloadKeepsRecord(list, Loaded(list), records[id]);
    }
  }

  lemma ReloadKeepsRecord(list: seq<Record>, back: Store, r: Record)
    requires r in list && (forall x :: x in list ==> x.id in back.records)
    requires |back.order| == |list| && forall i :: 0 <= i < |list| ==> back.order[i] == list[i].id
    ensures r.id in back.records && r.id in back.order
  {
    var i :| 0 <= i < |list| && list[i] == r;
    assert back.order[i] == r.id;
  }

  ghost predicate InAgeOrder(st: Store) {
    forall i, j :: 0 <= i < j < |st.order| && st.order[i] in st.records && st.order[j] in st.records ==>
      st.records[st.order[i]].createdAt <= st.records[st.order[j]].createdAt
  }

  ghost predicate Exact(st: Store) {
    forall id :: id in st.order ==> id in st.records
  }

  lemma {:induction false} ListingAt(st: Store, order: seq<string>)
    requires forall id :: id in order ==> id in st.records
    ensures |Listing(st, order)| == |order|
    ensures forall i :: 0 <= i < |order| ==> Listing(st, order)[i] == st.records[order[i]]
  {
    if order != [] {
      ListingAt(st, order[..|order| - 1]);
    }
  }

  lemma SortOfSorted(list: seq<Record>)
    requires Sorted(list)
    ensures StableSort(list) == list
  {
    StableSortIff(list, list);
  }

  /** The whole store comes back, order and all, exactly when the order lists no missing
      record and is the order of age. */
  lemma ReopenKeepsStoreIff(st: Store)
    requires Valid(st)
    ensures Loaded(Saved(st)) == st <==> Exact(st) && InAgeOrder(st)
  {
    ReopenKeepsRecords(st);
    if Exact(st) && InAgeOrder(st) {
      AgeIsOrder(st);
    } else if Loaded(Saved(st)) == st {
      OrderIsAge(st);
    }
  }

  lemma AgeIsOrder(st: Store)
    requires Valid(st) && Exact(st) && InAgeOrder(st)
    ensures Loaded(Saved(st)).order == st.order
  {
    SavedOrder(st);
    ListingAt(st, st.order);
    SortOfSorted(Listing(st, st.order));
  }

  /** The order read back is the order of the saved records. */
  lemma SavedOrder(st: Store)
    requires Valid(st)
    ensures var list, back := Saved(st), Loaded(Saved(st));
      && |back.order| == |list| && (forall i :: 0 <= i < |list| ==> back.order[i] == list[i].id)
      && (forall i :: 0 <= i < |list| ==> list[i].id in st.records && st.records[list[i].id] == list[i])
      && Sorted(list)
  {
    var all := Listing(st, st.order);
    ListingHolds(st, st.order);
    SortKeeps(all);
    SortIsStable(all);
    assert forall i :: 0 <= i < |Saved(st)| ==> Saved(st)[i] in all;
    LoadedIs(Saved(st), st.records);
  }

  lemma OrderIsAge(st: Store)
    requires Valid(st) && Loaded(Saved(st)) == st
    ensures Exact(st) && InAgeOrder(st)
  {
    SavedOrder(st);
    var list := Saved(st);
    forall id | id in st.order ensures id in st.records {
      var i :| 0 <= i < |st.order| && st.order[i] == id;
      assert st.order[i] == list[i].id;
    }
    forall i, j | 0 <= i < j < |st.order| && st.order[i] in st.records && st.order[j] in st.records
      ensures st.records[st.order[i]].createdAt <= st.records[st.order[j]].createdAt
    {
      assert st.order[i] == list[i].id && st.order[j] == list[j].id;
    }
  }

  /** Records without an id or a key are neither taken nor read. */
  lemma IncompleteIsRefused(st: Store, r: Record)
    requires r.id == "" || r.key == ""
    ensures Put(st, r) == st
  {
  }

  lemma {:induction false} LoadedIsComplete(list: seq<Record>)
    ensures forall id :: id in Loaded(list).records ==>
      var r := Loaded(list).records[id]; r in list && r.id == id != "" && r.key != ""
  {
    if list != [] {
      var n := |list| - 1;
      LoadedIsComplete(list[..n]);
      SplitLast(list);
    }
  }

  /** What is not there can be neither changed nor removed. */
  lemma MissingIsLeftAlone(st: Store, id: string, r: Record)
    requires id !in st.records
    ensures Update(st, id, r) == st && Removed(st, id) == st
  {
  }

  // ----- The store in place

  class Index {
    var records: map<string, Record>
    var order: seq<string>
    var file: seq<Record>

    ghost function View(): Store
      reads this
    {
      Store(records, order)
    }

    /** Opens the index saved in `file`. */
    constructor (file: seq<Record>)
      ensures View() == Loaded(file) && this.file == file
    {
      var st := Store(map[], []);
      for i := 0 to |file|
        invariant st == Loaded(file[..i])
      {
        assert file[..i + 1][..i] == file[..i];
        var r := file[i];
        if IsComplete(r) {
          st := Store(st.records[r.id := r], st.order + [r.id]);
        }
      }
      assert file[..|file|] == file;
      records, order, this.file := st.records, st.order, file;
    }

    method Save()
      modifies this`file
      ensures file == Saved(View())
    {
      var list: seq<Record> := [];
      for i := 0 to |order|
        invariant list == Listing(View(), order[..i])
      {
        assert order[..i + 1][..i] == order[..i];
        if order[i] in records {
          list := list + [records[order[i]]];
        }
      }
      assert order[..|order|] == order;
      file := StableSort(list);
    }

    method Evict()
      modifies this`records, this`order
      ensures View() == Evicted(old(View()))
    {
      while |records| > MAX_RECORDS && |order| > 0
        invariant Evicted(View()) == Evicted(old(View()))
        decreases |order|
      {
        var oldest := order[0];
        order := order[1..];
        records := records - {oldest};
      }
    }

    method PutSession(r: Record) returns (ok: bool)
      modifies this
      ensures View() == Put(old(View()), r)
      ensures ok == IsComplete(r) && file == if ok then Saved(View()) else old(file)
    {
      if !IsComplete(r) {
        return false;
      }
      if r.id !in records {
        order := order + [r.id];
      }
      records := records[r.id := r];
      Evict();
      Save();
      ok := true;
    }

    method UpdateSession(id: string, r: Record)
      modifies this
      ensures View() == Update(old(View()), id, r)
      ensures file == if id in old(records) then Saved(View()) else old(file)
    {
      if id in records {
        records := records[id := r];
        Save();
      }
    }

    method RemoveSession(id: string)
      modifies this
      ensures View() == Removed(old(View()), id)
      ensures file == if id in old(records) then Saved(View()) else old(file)
    {
      if id !in records {
        return;
      }
      records := records - {id};
      var i := 0;
      while i < |order| && order[i] != id
        invariant 0 <= i <= |order| && order == old(order) && records == old(records) - {id}
        invariant forall k :: 0 <= k < i ==> order[k] != id
      {
        i := i + 1;
      }
      WithoutAt(order, id, i);
      if i < |order| {
        order := order[..i] + order[i + 1..];
      }
      Save();
    }
  }
}
