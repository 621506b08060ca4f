/** The two eviction loops that bound the stored records: purchases, and drawdown
    sessions. Only what eviction looks at is kept of a record: whether it is final (a
    terminal purchase, a session that is not open) and when it was last updated. */
module Eviction {
  import opened Seqs

  datatype Record = Record(final: bool, updated: int)
  type Records = map<string, Record>

  function Members(s: seq<string>): set<string> {
    set x | x in s
  }

  predicate Distinct(s: seq<string>) {
    forall i, j :: 0 <= i < j < |s| ==> s[i] != s[j]
  }

  /** `s` lists the final records of `r`, each once, in any order. */
  ghost predicate ListsFinal(r: Records, s: seq<string>) {
    Distinct(s) && forall id :: id in s <==> id in r && r[id].final
  }

  /** What eviction should do: drop only final records, no more than needed, oldest
      first, until the cap holds or no final record is left. */
  ghost predicate GoodEviction(r: Records, kept: Records, cap: nat) {
    && kept.Keys <= r.Keys
    && (forall id :: id in kept ==> kept[id] == r[id])
    && (forall id :: id in r && id !in kept ==> r[id].final)
    && (|r| <= cap ==> kept == r)
    && (|r| > cap ==> |kept| >= cap)
    && (|kept| <= cap || forall id :: id in kept ==> !kept[id].final)
    && (forall a, b :: a in r && a !in kept && b in kept && kept[b].final ==> r[a].updated <= r[b].updated)
  }

  lemma {:induction false} MembersCount(s: seq<string>)
    requires Distinct(s)
    ensures |Members(s)| == |s|
  {
    if s == [] {
      assert Members(s) == {};
    } else {
      var n := |s| - 1;
      MembersCount(s[..n]);
      assert s == s[..n] + [s[n]];
      assert Members(s) == Members(s[..n]) + {s[n]};
    }
  }

  lemma RemoveCount(r: Records, ids: set<string>)
    requires ids <= r.Keys
    ensures |r - ids| == |r| - |ids|
  {
    assert (r - ids).Keys == r.Keys - ids;
    assert |r.Keys - ids| == |r.Keys| - |ids|;
  }

  /** Collects the final records; a map is walked in no particular order. */
  method FinalIds(r: Records) returns (ids: seq<string>)
    ensures ListsFinal(r, ids)
  {
    ids := [];
    var rest := r.Keys;
    while rest != {}
      invariant rest <= r.Keys && Distinct(ids)
      invariant forall id :: id in ids <==> id in r.Keys - rest && r[id].final
      decreases |rest|
    {
      var id :| id in rest;
      rest := rest - {id};
      if r[id].final {
        ids := ids + [id];
      }
    }
  }

  // ----- Purchases: sort once, drop from the front

  ghost predicate SortedByAge(r: Records, s: seq<string>) {
    && (forall id :: id in s ==> id in r)
    && forall i, j :: 0 <= i < j < |s| ==> r[s[i]].updated <= r[s[j]].updated
  }

  lemma {:induction false} OldestExists(r: Records, ids: set<string>) returns (x: string)
    requires ids != {} && ids <= r.Keys
    ensures x in ids && forall y :: y in ids ==> r[x].updated <= r[y].updated
    decreases |ids|
  {
    x :| x in ids;
    if ids != {x} {
      var z := OldestExists(r, ids - {x});
      x := if r[z].updated < r[x].updated then z else x;
    }
  }

  /** Sorts by age, ties in any order. */
  method SortByAge(r: Records, ids: seq<string>) returns (s: seq<string>)
    requires Distinct(ids) && forall id :: id in ids ==> id in r
    ensures Distinct(s) && SortedByAge(r, s)
    ensures forall id :: id in s <==> id in ids
  {
    s := [];
    var rest := Members(ids);
    while rest != {}
      invariant rest <= r.Keys
      invariant Distinct(s) && SortedByAge(r, s)
      invariant forall id :: id in rest ==> id !in s
      invariant forall id :: id in ids <==> id in s || id in rest
      invariant forall k, id :: 0 <= k < |s| && id in rest ==> r[s[k]].updated <= r[id].updated
      decreases |rest|
    {
      ghost var w := OldestExists(r, rest);
      var x :| x in rest && forall y :: y in rest ==> r[x].updated <= r[y].updated;
      s, rest := s + [x], rest - {x};
    }
  }

  /** Dropping a prefix of the final records sorted by age is a good eviction. */
  lemma PrefixIsOlder(r: Records, s: seq<string>, n: nat, a: string, b: string)
    requires ListsFinal(r, s) && SortedByAge(r, s) && n <= |s|
    requires a in s[..n] && b !in s[..n] && b in r && r[b].final
    ensures a in r && r[a].updated <= r[b].updated
  {
    var i :| 0 <= i < n && s[i] == a;
    assert b in s;
    var j :| 0 <= j < |s| && s[j] == b;
    assert s == s[..n] + s[n..];
  }

  lemma PrefixIsGood(r: Records, s: seq<string>, n: nat, cap: nat)
    requires ListsFinal(r, s) && SortedByAge(r, s) && n <= |s|
    requires |r| <= cap ==> n == 0
    requires |r| > cap ==> |r| - n >= cap
    requires n == |s| || |r| - n <= cap
    ensures Members(s[..n]) <= r.Keys && |r - Members(s[..n])| == |r| - n
    ensures GoodEviction(r, r - Members(s[..n]), cap)
  {
    assert s == s[..n] + s[n..];
    assert Members(s[..n]) <= r.Keys;
    MembersCount(s[..n]);
    RemoveCount(r, Members(s[..n]));
    var kept := r - Members(s[..n]);
    forall a, b | a in r && a !in kept && b in kept && kept[b].final
      ensures r[a].updated <= r[b].updated
    {
      PrefixIsOlder(r, s, n, a, b);
    }
    if n == |s| {
      forall id | id in kept ensures !kept[id].final {
        assert s[..n] == s;
      }
    }
  }

  lemma PrefixStep(r: Records, s: seq<string>, n: nat)
    requires Distinct(s) && (forall id :: id in s ==> id in r) && n < |s|
    ensures r - Members(s[..n]) - {s[n]} == r - Members(s[..n + 1])
    ensures Members(s[..n + 1]) <= r.Keys && |r - Members(s[..n + 1])| == |r| - (n + 1)
  {
    assert s[..n + 1] == s[..n] + [s[n]];
    assert Members(s[..n + 1]) == Members(s[..n]) + {s[n]};
    MembersCount(s[..n + 1]);
    RemoveCount(r, Members(s[..n + 1]));
  }

  method BoundPurchases(r: Records, cap: nat) returns (kept: Records)
    ensures GoodEviction(r, kept, cap)
  {
    if |r| <= cap {
      return r;
    }
    var ids := FinalIds(r);
    var terms := SortByAge(r, ids);
    kept := r;
    var n := 0;
    assert Members(terms[..0]) == {} && r - {} == r;
    while |kept| > cap && n < |terms|
      invariant n <= |terms|
      invariant kept == r - Members(terms[..n])
      invariant |kept| == |r| - n && |kept| >= cap
    {
      PrefixStep(r, terms, n);
      kept := kept - {terms[n]};
      n := n + 1;
    }
    PrefixIsGood(r, terms, n, cap);
  }

  // ----- Drawdown sessions: search the oldest, but shorten the list from the front

  /** The oldest listed record that is still there, the first one listed on a tie. */
  function Oldest(r: Records, ids: seq<string>): (o: seq<string>)
    ensures |o| <= 1 && (o != [] ==> o[0] in r)
  {
    if ids == [] then []
    else
      var n := |ids| - 1;
      var before := Oldest(r, ids[..n]);
      if ids[n] in r && (before == [] || r[ids[n]].updated < r[before[0]].updated) then [ids[n]] else before
  }

  lemma {:induction false} OldestIs(r: Records, ids: seq<string>)
    ensures var o := Oldest(r, ids);
      && (o == [] <==> forall id :: id in ids ==> id !in r)
      && (o != [] ==> o[0] in ids && forall id :: id in ids && id in r ==> r[o[0]].updated <= r[id].updated)
  {
    if ids != [] {
      var n := |ids| - 1;
      OldestIs(r, ids[..n]);
      assert ids == ids[..n] + [ids[n]];
    }
  }

  /** What the loop leaves when it starts with `r` and the listing `closed`. */
  function Swept(r: Records, closed: seq<string>, cap: nat): Records
    decreases |closed|
  {
    if |r| <= cap || closed == [] then r
    else
      var o := Oldest(r, closed);
      if o == [] then r else Swept(r - {o[0]}, closed[1..], cap)
  }

  method BoundDrawdowns(r: Records, cap: nat) returns (kept: Records, ghost listing: seq<string>)
    ensures ListsFinal(r, listing) && kept == Swept(r, listing, cap)
    ensures kept.Keys <= r.Keys && forall id :: id in r && id !in kept ==> r[id].final
  {
    var closed := FinalIds(r);
    listing := closed;
    SweptDropsFinalOnly(r, listing, cap);
    kept := r;
    if |r| <= cap {
      return;
    }
    while |kept| > cap && |closed| > 0
      invariant Swept(kept, closed, cap) == Swept(r, listing, cap)
      decreases |closed|
    {
      var oldest := FindOldest(kept, closed);
      if oldest == [] {
        return;
      }
      kept := kept - {oldest[0]};
      closed := closed[1..];
    }
  }

  /** The victim of one round, as a sequence of at most one id. */
  method FindOldest(r: Records, closed: seq<string>) returns (oldest: seq<string>)
    ensures oldest == Oldest(r, closed)
  {
    oldest := [];
    for i := 0 to |closed|
      invariant oldest == Oldest(r, closed[..i])
    {
      assert closed[..i + 1][..i] == closed[..i];
      var id := closed[i];
      if id in r && (oldest == [] || r[id].updated < r[oldest[0]].updated) {
        oldest := [id];
      }
    }
    assert closed[..|closed|] == closed;
  }

  /** The loop only ever drops listed records, so never an open session. */
  lemma {:induction false} SweptDropsListed(r: Records, closed: seq<string>, cap: nat)
    ensures var kept := Swept(r, closed, cap);
      && kept.Keys <= r.Keys
      && (forall id :: id in kept ==> kept[id] == r[id])
      && (forall id :: id in r && id !in kept ==> id in closed)
      && (|r| <= cap ==> kept == r)
      && (|r| > cap ==> |kept| >= cap)
    decreases |closed|
  {
    if |r| > cap && closed != [] {
      var o := Oldest(r, closed);
      OldestIs(r, closed);
      if o != [] {
        RemoveCount(r, {o[0]});
        SweptDropsListed(r - {o[0]}, closed[1..], cap);
      }
    }
  }

  lemma SweptDropsFinalOnly(r: Records, closed: seq<string>, cap: nat)
    requires ListsFinal(r, closed)
    ensures var kept := Swept(r, closed, cap);
      kept.Keys <= r.Keys && forall id :: id in r && id !in kept ==> r[id].final
  {
    SweptDropsListed(r, closed, cap);
  }

  /** One record over the cap, as after every insertion into a bounded ledger, the loop
      is right. */
  lemma SweptIsGoodByOne(r: Records, closed: seq<string>, cap: nat)
    requires ListsFinal(r, closed) && |r| <= cap + 1
    ensures GoodEviction(r, Swept(r, closed, cap), cap)
  {
    SweptDropsListed(r, closed, cap);
    if |r| > cap && closed != [] {
      assert closed[0] in closed;
      var o := Oldest(r, closed);
      OldestIs(r, closed);
      RemoveCount(r, {o[0]});
      assert Swept(r - {o[0]}, closed[1..], cap) == r - {o[0]};
    }
  }

  // ----- Exactly when the loop is right for one listing

  /** `s` is the listing `c` sorted by age, all ages different. */
  ghost predicate StrictlySorted(r: Records, c: seq<string>, s: seq<string>) {
    && |s| == |c| && (forall id :: id in s <==> id in c) && Distinct(s)
    && (forall id :: id in s ==> id in r)
    && forall i, j :: 0 <= i < j < |s| ==> r[s[i]].updated < r[s[j]].updated
  }

  function Needed(r: Records, c: seq<string>, cap: nat): nat {
    if |r| <= cap then 0 else if |r| - cap < |c| then |r| - cap else |c|
  }

  /** The first `n` records by age are each still in the list when their turn comes. */
  ghost predicate InTime(c: seq<string>, s: seq<string>, n: nat)
    requires n <= |s| == |c|
  {
    forall i :: 0 <= i < n ==> s[i] in c[i..]
  }

  lemma Position(s: seq<string>, id: string, m: nat) returns (j: nat)
    requires id in s && m <= |s| && id !in Members(s[..m])
    ensures m <= j < |s| && s[j] == id
  {
    assert forall i :: 0 <= i < m ==> s[i] in Members(s[..m]);
    j :| 0 <= j < |s| && s[j] == id;
  }

  lemma NextStays(r: Records, c: seq<string>, s: seq<string>, m: nat)
    requires StrictlySorted(r, c, s) && m < |s|
    ensures s[m] in r - Members(s[..m])
  {
    assert s[m] in s;
  }

  /** Whatever is listed and left is at least as young as the next by age. */
  lemma LeftIsYounger(r: Records, c: seq<string>, s: seq<string>, m: nat, id: string)
    requires StrictlySorted(r, c, s) && m < |s|
    requires id in c[m..] && id in r - Members(s[..m])
    ensures id == s[m] || r[s[m]].updated < r[id].updated
  {
    assert c == c[..m] + c[m..];
    var j := Position(s, id, m);
  }

  lemma SweptStep(r: Records, list: seq<string>, x: string, cap: nat)
    requires |r| > cap && list != [] && Oldest(r, list) == [x]
    ensures Swept(r, list, cap) == Swept(r - {x}, list[1..], cap)
  {
  }

  /** As long as the oldest are in time, the loop drops them in order of age: after `n`
      rounds `left` and `list` are what is left of the records and of the listing. */
  lemma {:induction false} SweptInOrder(r: Records, c: seq<string>, s: seq<string>, n: nat, cap: nat)
      returns (left: Records, list: seq<string>)
    requires StrictlySorted(r, c, s)
    requires n <= Needed(r, c, cap) && InTime(c, s, n)
    ensures left == r - Members(s[..n]) && |left| == |r| - n && list == c[n..]
    ensures Swept(r, c, cap) == Swept(left, list, cap)
    decreases n
  {
    if n == 0 {
      left, list := r, c;
      DropNothing(r, s);
    } else {
      left, list := SweptInOrder(r, c, s, n - 1, cap);
      left, list := SweptNext(r, c, s, n - 1, left, list, cap);
    }
  }

  lemma DropNothing(r: Records, s: seq<string>)
    ensures r - Members(s[..0]) == r
  {
    assert Members(s[..0]) == {};
  }

  lemma SweptNext(r: Records, c: seq<string>, s: seq<string>, m: nat, left: Records, list: seq<string>, cap: nat)
      returns (left': Records, list': seq<string>)
    requires StrictlySorted(r, c, s) && m < |s| && s[m] in c[m..]
    requires left == r - Members(s[..m]) && list == c[m..] && |left| > cap
    ensures left' == r - Members(s[..m + 1]) && |left'| == |r| - (m + 1) && list' == c[m + 1..]
    ensures Swept(left, list, cap) == Swept(left', list', cap)
  {
    left', list' := left - {s[m]}, list[1..];
    PrefixStep(r, s, m);
    OldestIsNext(r, c, s, m);
    SweptStep(left, list, s[m], cap);
  }

  lemma OldestIsNext(r: Records, c: seq<string>, s: seq<string>, m: nat)
    requires StrictlySorted(r, c, s)
    requires m < |s| && s[m] in c[m..]
    ensures Oldest(r - Members(s[..m]), c[m..]) == [s[m]]
  {
    NextStays(r, c, s, m);
    var o := Oldest(r - Members(s[..m]), c[m..]);
    OldestIs(r - Members(s[..m]), c[m..]);
    LeftIsYounger(r, c, s, m, o[0]);
  }

  /** With all ages different, the loop evicts as it should if and only if, for every
      `i` up to the number of evictions needed, the `i`-th oldest closed session stands
      at position `i` or later of the listing. */
  lemma SweptIsGoodIff(r: Records, c: seq<string>, s: seq<string>, cap: nat)
    requires ListsFinal(r, c) && StrictlySorted(r, c, s)
    ensures GoodEviction(r, Swept(r, c, cap), cap) <==> InTime(c, s, Needed(r, c, cap))
  {
    var n := Needed(r, c, cap);
    if InTime(c, s, n) {
      var left, list := SweptInOrder(r, c, s, n, cap);
      assert Swept(left, list, cap) == left;
      PrefixIsGood(r, s, n, cap);
    } else {
      var m := FirstLate(c, s, n);
      var left, list := SweptInOrder(r, c, s, m, cap);
      LateIsBad(r, c, s, m, left, list, cap);
    }
  }

  lemma FirstLate(c: seq<string>, s: seq<string>, n: nat) returns (m: nat)
    requires n <= |s| == |c| && !InTime(c, s, n)
    ensures m < n && s[m] !in c[m..] && InTime(c, s, m)
  {
    m := 0;
    while m < n && s[m] in c[m..]
      invariant m <= n && InTime(c, s, m)
    {
      m := m + 1;
    }
  }

  lemma LateIsBad(r: Records, c: seq<string>, s: seq<string>, m: nat, left: Records, list: seq<string>, cap: nat)
    requires ListsFinal(r, c) && StrictlySorted(r, c, s)
    requires m < Needed(r, c, cap) && s[m] !in c[m..]
    requires left == r - Members(s[..m]) && |left| == |r| - m && list == c[m..]
    requires Swept(r, c, cap) == Swept(left, list, cap)
    ensures !GoodEviction(r, Swept(r, c, cap), cap)
  {
    var kept := Swept(left, list, cap);
    SweptDropsListed(left, list, cap);
    NextStays(r, c, s, m);
    assert s[m] in s && s[m] in c;
    assert s[m] in kept && kept[s[m]].final;
    var o := Oldest(left, list);
    OldestIs(left, list);
    if o != [] {
      LeftIsYounger(r, c, s, m, o[0]);
      SweptDropsListed(left - {o[0]}, list[1..], cap);
      assert o[0] in r && o[0] !in kept;
    }
  }

  /** As many open sessions as there is room for, and two closed ones. */
  function TwoTooMany(open: Records): Records {
    open["a" := Record(true, 2)]["b" := Record(true, 1)]
  }

  /** The loop ends above the cap although a closed session is left. */
  ghost predicate StopsEarly(r: Records, list: seq<string>, cap: nat) {
    var kept := Swept(r, list, cap);
    ListsFinal(r, list) && |kept| > cap && exists id :: id in kept && kept[id].final
  }

  /** Over the cap by two, a younger session listed first makes the loop stop early. */
  lemma SweptStopsEarly(open: Records)
    requires "a" !in open && "b" !in open && forall id :: id in open ==> !open[id].final
    ensures StopsEarly(TwoTooMany(open), ["a", "b"], |open|)
  {
    var r, cap := TwoTooMany(open), |open|;
    assert r.Keys == open.Keys + {"a", "b"} && |r.Keys| == |open.Keys| + 2;
    RemoveCount(r, {"b"});
    assert ["a", "b"][..1] == ["a"] && ["a"][..0] == [] && ["b"][..0] == [];
    assert Oldest(r, ["a"]) == ["a"];
    assert Oldest(r, ["a", "b"]) == ["b"];
    SweptStep(r, ["a", "b"], "b", cap);
    assert ["a", "b"][1..] == ["b"];
    assert Oldest(r - {"b"}, ["b"]) == [];
    assert Swept(r - {"b"}, ["b"], cap) == r - {"b"};
    assert (r - {"b"})["a"].final;
  }

  /** Records of any number of open sessions. */
  lemma {:induction false} OpenSessions(n: nat) returns (open: Records)
    ensures |open| == n && forall id :: id in open ==> !open[id].final && |id| < n && id == seq(|id|, i => 'x')
  {
    open := map[];
    if n > 0 {
      var rest := OpenSessions(n - 1);
      var id := seq(n - 1, i => 'x');
      open := rest[id := Record(false, 0)];
      assert open.Keys == rest.Keys + {id};
    }
  }

  /** At every cap, the one in use included, some records and some listing of the closed ones
      make the loop stop early, which is no good eviction. */
  lemma SweptCanStopEarly(cap: nat)
    ensures exists r: Records, list :: StopsEarly(r, list, cap) && !GoodEviction(r, Swept(r, list, cap), cap)
  {
    var open := OpenSessions(cap);
    assert "a"[0] == 'a' && "b"[0] == 'b';
    SweptStopsEarly(open);
    StopsEarlyIsBad(TwoTooMany(open), ["a", "b"], cap);
  }

  lemma StopsEarlyIsBad(r: Records, list: seq<string>, cap: nat)
    requires StopsEarly(r, list, cap)
    ensures !GoodEviction(r, Swept(r, list, cap), cap)
  {
  }

  // ----- Exactly when the loop is right for every listing

  function Finals(r: Records): set<string> {
    set id | id in r && r[id].final
  }

  /** The records of `ids` that share the oldest age among them. */
  function OldestAge(r: Records, ids: set<string>): set<string>
    requires ids <= r.Keys
  {
    set x | x in ids && forall y :: y in ids ==> r[x].updated <= r[y].updated
  }

  /** How many records have to go. */
  function Due(r: Records, cap: nat): nat {
    if |r| <= cap then 0 else if |r| - cap < |Finals(r)| then |r| - cap else |Finals(r)|
  }

  /** No more records are due than share the oldest age, or the second oldest. */
  ghost predicate Tame(r: Records, cap: nat) {
    var a := OldestAge(r, Finals(r));
    var b := OldestAge(r, Finals(r) - a);
    Due(r, cap) <= |a| || Due(r, cap) <= |b|
  }

  /** A record at the head of the list that nothing listed is older than is the victim. */
  lemma {:induction false} HeadIsOldest(r: Records, ids: seq<string>)
    requires ids != [] && ids[0] in r
    requires forall id :: id in ids && id in r ==> r[ids[0]].updated <= r[id].updated
    ensures Oldest(r, ids) == [ids[0]]
  {
    var n := |ids| - 1;
    if n > 0 {
      assert ids == ids[..n] + [ids[n]];
      OldestIs(r, ids[..n]);
      HeadIsOldest(r, ids[..n]);
    }
  }

  /** The listed records that are still there. */
  function Left(r: Records, list: seq<string>): set<string> {
    set id | id in list && id in r
  }

  /** `a` holds exactly the oldest of the listed records that are still there, or nothing. */
  ghost predicate OldestListed(r: Records, list: seq<string>, a: set<string>) {
    a == {} || a == OldestAge(r, Left(r, list))
  }

  /** One round takes one of the oldest, and no other of them leaves the list. */
  lemma OneRound(r: Records, list: seq<string>, a: set<string>) returns (x: string)
    requires a != {} && a == OldestAge(r, Left(r, list))
    ensures list != [] && Oldest(r, list) == [x] && x in a
    ensures OldestListed(r - {x}, list[1..], a - {x})
  {
    var z :| z in a;
    OldestIs(r, list);
    x := Oldest(r, list)[0];
    assert list == [list[0]] + list[1..];
    if list[0] in a {
      HeadIsOldest(r, list);
    }
    var left, after := Left(r, list), Left(r - {x}, list[1..]);
    assert after <= left;
    if y :| y in a - {x} {
      assert y in after;
      forall v | v in a - {x} ensures v in OldestAge(r - {x}, after) {
      }
      forall v | v in OldestAge(r - {x}, after) ensures v in a {
        assert r[v].updated <= r[y].updated;
      }
    }
  }

  lemma SweepOne(r: Records, list: seq<string>, a: set<string>, cap: nat)
      returns (x: string, r': Records, list': seq<string>)
    requires OldestListed(r, list, a) && a != {} && |r| > cap
    ensures x in a && list != [] && r' == r - {x} && list' == list[1..] && |r'| == |r| - 1 && |a - {x}| == |a| - 1
    ensures OldestListed(r', list', a - {x})
    ensures Swept(r, list, cap) == Swept(r', list', cap)
  {
    x := OneRound(r, list, a);
    r', list' := r - {x}, list[1..];
    RemoveCount(r, {x});
    SweptStep(r, list, x, cap);
  }

  /** So do the first `n` rounds, as long as there are that many: they take `d`, and `left`
      and `list'` are what is left of the records and of the listing. */
  lemma {:induction false} Rounds(r: Records, list: seq<string>, a: set<string>, cap: nat, n: nat)
      returns (d: set<string>, left: Records, list': seq<string>)
    requires OldestListed(r, list, a) && n <= |a| && (n == 0 || cap + n <= |r|)
    ensures d <= a && |d| == n <= |list|
    ensures left == r - d && list' == list[n..]
    ensures Swept(r, list, cap) == Swept(left, list', cap)
    decreases n
  {
    if n == 0 {
      d, left, list' := NoRounds(r, list);
    } else {
      var x, r1, list1 := SweepOne(r, list, a, cap);
      d, left, list' := Rounds(r1, list1, a - {x}, cap, n - 1);
      d := DropAlso(r, list, a, x, d, left, list');
    }
  }

  lemma NoRounds(r: Records, list: seq<string>) returns (d: set<string>, left: Records, list': seq<string>)
    ensures d == {} && left == r && list' == list && left == r - d && list' == list[0..]
  {
    d, left, list' := {}, r, list;
  }

  lemma DropAlso(r: Records, list: seq<string>, a: set<string>, x: string, d: set<string>,
                 left: Records, list': seq<string>) returns (d': set<string>)
    requires x in a && d <= a - {x} && |d| + 1 <= |list|
    requires left == r - {x} - d && list' == list[1..][|d|..]
    ensures d' <= a && |d'| == |d| + 1 && left == r - d' && list' == list[|d| + 1..]
  {
    d' := d + {x};
    DropDrop(list, 1, |d|);
  }

  lemma DropInTurn(r: Records, a: set<string>, b: set<string>)
    ensures r - a - b == r - (a + b)
  {
  }

  /** Dropping `d` is a good eviction when `d` is as large as it has to be and takes all of
      the oldest records before any of the second oldest, and no others. */
  lemma DropIsGood(r: Records, d: set<string>, cap: nat)
    requires var a := OldestAge(r, Finals(r));
      d <= a || (a <= d && d <= a + OldestAge(r, Finals(r) - a))
    requires |d| == Due(r, cap)
    ensures GoodEviction(r, r - d, cap)
  {
    var kept := r - d;
    assert d <= Finals(r);
    DropIsEnough(r, d, cap);
    forall x, y | x in r && x !in kept && y in kept && kept[y].final ensures r[x].updated <= r[y].updated {
      DropIsOlder(r, d, x, y);
    }
  }

  lemma DropIsEnough(r: Records, d: set<string>, cap: nat)
    requires d <= Finals(r) && |d| == Due(r, cap)
    ensures |r| <= cap ==> r - d == r
    ensures |r| > cap ==> |r - d| >= cap
    ensures |r - d| <= cap || forall id :: id in r - d ==> !r[id].final
  {
    RemoveCount(r, d);
    if |r| <= cap {
      assert d == {};
    }
    if |d| == |Finals(r)| {
      FullSubset(d, Finals(r));
    }
  }

  lemma DropIsOlder(r: Records, d: set<string>, x: string, y: string)
    requires var a := OldestAge(r, Finals(r));
      d <= a || (a <= d && d <= a + OldestAge(r, Finals(r) - a))
    requires x in d && y in Finals(r) && y !in d
    ensures r[x].updated <= r[y].updated
  {
  }

  lemma FullSubset(d: set<string>, f: set<string>)
    requires d <= f && |d| == |f|
    ensures d == f
  {
    assert |f - d| == |f| - |d|;
  }

  lemma {:induction false} OldestAgeExists(r: Records, ids: set<string>)
    requires ids <= r.Keys && ids != {}
    ensures OldestAge(r, ids) != {}
  {
    var x := OldestExists(r, ids);
    assert x in OldestAge(r, ids);
  }

  lemma OldestAgeListed(r: Records, list: seq<string>)
    requires ListsFinal(r, list)
    ensures OldestListed(r, list, OldestAge(r, Finals(r)))
  {
    assert Left(r, list) == Finals(r);
  }

  /** The loop has nothing more to do after `n` rounds when `n` records were due. */
  lemma SweptStops(r: Records, list: seq<string>, d: set<string>, rest: seq<string>, cap: nat)
    requires ListsFinal(r, list) && d <= Finals(r) && |d| == Due(r, cap) <= |list| && rest == list[|d|..]
    ensures Swept(r - d, rest, cap) == r - d
  {
    RemoveCount(r, d);
    if |r - d| > cap {
      MembersCount(list);
      assert Members(list) == Finals(r);
      assert rest == [];
    }
  }

  lemma SweptIsGoodWhenTame(r: Records, list: seq<string>, cap: nat)
    requires ListsFinal(r, list) && Tame(r, cap)
    ensures GoodEviction(r, Swept(r, list, cap), cap)
  {
    var a, k := OldestAge(r, Finals(r)), Due(r, cap);
    OldestAgeListed(r, list);
    if k <= |a| {
      var d, left, rest := Rounds(r, list, a, cap, k);
      SweptStops(r, list, d, rest, cap);
      DropIsGood(r, d, cap);
    } else {
      SweptTwoAges(r, list, cap);
    }
  }

  /** First all of the oldest go; of the second oldest at most as many have left the list by
      then, and the others go next. */
  lemma SweptTwoAges(r: Records, list: seq<string>, cap: nat)
    requires ListsFinal(r, list) && OldestListed(r, list, OldestAge(r, Finals(r)))
    requires |OldestAge(r, Finals(r))| < Due(r, cap) <= |OldestAge(r, Finals(r) - OldestAge(r, Finals(r)))|
    ensures GoodEviction(r, Swept(r, list, cap), cap)
  {
    var a := OldestAge(r, Finals(r));
    var d, left, rest := Rounds(r, list, a, cap, |a|);
    FullSubset(d, a);
    var e, left', rest' := SweptSecond(r, list, a, left, rest, cap);
    SecondIsGood(r, list, e, rest', cap);
  }

  lemma SweptSecond(r: Records, list: seq<string>, a: set<string>, left: Records, rest: seq<string>, cap: nat)
      returns (e: set<string>, left': Records, rest': seq<string>)
    requires ListsFinal(r, list) && a == OldestAge(r, Finals(r))
    requires |a| < Due(r, cap) <= |OldestAge(r, Finals(r) - a)|
    requires |a| <= |list| && left == r - a && rest == list[|a|..]
    ensures var k := Due(r, cap);
      && k <= |list| && e <= OldestAge(r, Finals(r) - a) && |a| + |e| == k
      && left' == r - (a + e) && rest' == list[k..]
      && Swept(left, rest, cap) == Swept(left', rest', cap)
  {
    var k := Due(r, cap);
    ListCounts(r, list, a);
    var b := SecondListed(r, list, a);
    e, left', rest' := Rounds(left, rest, b, cap, k - |a|);
    DropInTurn(r, a, e);
    DropDrop(list, |a|, k - |a|);
  }

  lemma ListCounts(r: Records, list: seq<string>, a: set<string>)
    requires ListsFinal(r, list) && a == OldestAge(r, Finals(r))
    ensures |list| == |Finals(r)| && |r - a| == |r| - |a|
  {
    MembersCount(list);
    assert Members(list) == Finals(r);
    RemoveCount(r, a);
  }

  lemma SecondIsGood(r: Records, list: seq<string>, e: set<string>, rest: seq<string>, cap: nat)
    requires ListsFinal(r, list) && Due(r, cap) <= |list| && rest == list[Due(r, cap)..]
    requires var a := OldestAge(r, Finals(r));
      e <= OldestAge(r, Finals(r) - a) && |a| + |e| == Due(r, cap)
    ensures var a := OldestAge(r, Finals(r));
      Swept(r - (a + e), rest, cap) == r - (a + e) && GoodEviction(r, r - (a + e), cap)
  {
    var a := OldestAge(r, Finals(r));
    assert |a + e| == |a| + |e|;
    SweptStops(r, list, a + e, rest, cap);
    DropIsGood(r, a + e, cap);
  }

  lemma SecondListed(r: Records, list: seq<string>, a: set<string>) returns (b: set<string>)
    requires ListsFinal(r, list) && a == OldestAge(r, Finals(r)) && |a| <= |list|
    ensures b <= OldestAge(r, Finals(r) - a) && OldestListed(r - a, list[|a|..], b)
    ensures |b| >= |OldestAge(r, Finals(r) - a)| - |a|
  {
    var all, gone := OldestAge(r, Finals(r) - a), Members(list[..|a|]);
    b := all - gone;
    MembersCount(list[..|a|]);
    MostRemain(all, gone);
    LeftAfter(r, list, a, |a|);
    KeepsOldest(r, r - a, Finals(r) - a, gone);
  }

  lemma LeftAfter(r: Records, list: seq<string>, a: set<string>, n: nat)
    requires ListsFinal(r, list) && n <= |list|
    ensures Left(r - a, list[n..]) == Finals(r) - a - Members(list[..n])
  {
    assert list == list[..n] + list[n..];
    forall id ensures id in list[n..] <==> id in list && id !in Members(list[..n]) {
      FrontIsGone(list, n, id);
    }
  }

  /** Taking records away leaves the oldest the oldest, unless it takes all of them. */
  lemma KeepsOldest(r: Records, r': Records, ids: set<string>, gone: set<string>)
    requires ids <= r.Keys && ids <= r'.Keys && forall id :: id in ids ==> r'[id] == r[id]
    ensures var b := OldestAge(r, ids) - gone;
      b == {} || b == OldestAge(r', ids - gone)
  {
    var b := OldestAge(r, ids) - gone;
    if y :| y in b {
      forall v | v in OldestAge(r', ids - gone) ensures v in b {
        assert r[v].updated <= r[y].updated;
      }
    }
  }

  lemma MostRemain(a: set<string>, b: set<string>)
    ensures |a - b| >= |a| - |b|
  {
    assert |a| == |a - b| + |a * b|;
    SubsetCount(a * b, b);
  }

  lemma SubsetCount(a: set<string>, b: set<string>)
    requires a <= b
    ensures |a| <= |b|
  {
    assert |b - a| == |b| - |a|;
  }

  /** A listing of `ids`. */
  lemma {:induction false} Listed(ids: set<string>) returns (s: seq<string>)
    ensures Distinct(s) && Members(s) == ids && |s| == |ids|
    decreases |ids|
  {
    if ids == {} {
      s := [];
    } else {
      var x :| x in ids;
      var rest := Listed(ids - {x});
      assert forall i :: 0 <= i < |rest| ==> rest[i] in Members(rest);
      s := [x] + rest;
      assert Members(s) == {x} + Members(rest);
    }
  }

  /** A listing of the final records that begins with `first`. */
  lemma ListedFrom(r: Records, first: set<string>) returns (list: seq<string>)
    requires first <= Finals(r)
    ensures ListsFinal(r, list) && |first| <= |list| && Members(list[..|first|]) == first
  {
    var x := Listed(first);
    var y := Listed(Finals(r) - first);
    list := x + y;
    assert list[..|first|] == x;
    assert forall i :: 0 <= i < |x| ==> x[i] in Members(x);
    assert forall i :: 0 <= i < |y| ==> y[i] in Members(y);
    assert forall id :: id in list <==> id in Members(x) || id in Members(y);
  }

  lemma SomeOf(ids: set<string>, n: nat) returns (some: set<string>)
    requires n <= |ids|
    ensures some <= ids && |some| == n
  {
    var s := Listed(ids);
    MembersCount(s[..n]);
    assert s == s[..n] + s[n..];
    some := Members(s[..n]);
  }

  /** When more are due, second oldest records listed in front are never dropped, and there
      is no good eviction that keeps them. */
  lemma WildHasBadListing(r: Records, cap: nat) returns (list: seq<string>)
    requires !Tame(r, cap)
    ensures ListsFinal(r, list) && !GoodEviction(r, Swept(r, list, cap), cap)
  {
    var a := OldestAge(r, Finals(r));
    var b := OldestAge(r, Finals(r) - a);
    WildAges(r, cap);
    var n := if |a| < |b| then |a| else |b|;
    var x := SomeOf(b, n);
    list := ListedFrom(r, x);
    OldestAgeListed(r, list);
    var d, left, rest := Rounds(r, list, a, cap, n);
    var kept := Swept(r, list, cap);
    SweptDropsListed(left, rest, cap);
    assert x <= kept.Keys by {
      forall id | id in x ensures id in kept {
        FrontIsGone(list, n, id);
      }
    }
    if GoodEviction(r, kept, cap) {
      KeepingLimits(r, kept, cap, x);
    }
  }

  lemma FrontIsGone(list: seq<string>, n: nat, id: string)
    requires Distinct(list) && n <= |list|
    ensures id in Members(list[..n]) ==> id !in list[n..]
  {
    if id in Members(list[..n]) {
      var i :| 0 <= i < n && list[..n][i] == id;
      forall j | 0 <= j < |list| - n ensures list[n..][j] != id {
        assert list[i] != list[n + j];
      }
    }
  }

  /** There are records of at least two ages. */
  lemma WildAges(r: Records, cap: nat)
    requires !Tame(r, cap)
    ensures var a := OldestAge(r, Finals(r));
      a != {} && OldestAge(r, Finals(r) - a) != {} && cap + |a| <= |r|
  {
    var a := OldestAge(r, Finals(r));
    assert Finals(r) != {};
    OldestAgeExists(r, Finals(r));
    assert |Finals(r) - a| == |Finals(r)| - |a|;
    OldestAgeExists(r, Finals(r) - a);
  }

  /** A good eviction that keeps `x` drops none but older records and other second oldest
      ones. */
  lemma KeepingLimits(r: Records, kept: Records, cap: nat, x: set<string>)
    requires x != {} && x <= OldestAge(r, Finals(r) - OldestAge(r, Finals(r)))
    requires x <= kept.Keys && GoodEviction(r, kept, cap)
    ensures var a := OldestAge(r, Finals(r));
      |r| - cap <= |a| + |OldestAge(r, Finals(r) - a)| - |x|
  {
    var a := OldestAge(r, Finals(r));
    var b := OldestAge(r, Finals(r) - a);
    var z :| z in x;
    assert kept[z].final && |kept| <= cap;
    var gone := r.Keys - kept.Keys;
    assert |gone| == |r.Keys| - |kept.Keys|;
    forall id | id in gone ensures id in a + (b - x) {
      assert r[id].updated <= r[z].updated;
      NotYounger(r, id, z);
    }
    SubsetCount(gone, a + (b - x));
    assert |a + (b - x)| == |a| + |b| - |x|;
  }

  lemma NotYounger(r: Records, id: string, z: string)
    requires id in Finals(r) && z in OldestAge(r, Finals(r) - OldestAge(r, Finals(r))) && r[id].updated <= r[z].updated
    ensures id in OldestAge(r, Finals(r)) + OldestAge(r, Finals(r) - OldestAge(r, Finals(r)))
  {
  }

  lemma AtMostOne(ids: set<string>)
    requires forall x, y :: x in ids && y in ids ==> x == y
    ensures |ids| <= 1
  {
    if x :| x in ids {
      assert ids == {x};
    }
  }

  /** With all ages different this comes down to one record. */
  lemma TameByOne(r: Records, cap: nat)
    requires forall x, y :: x in Finals(r) && y in Finals(r) && x != y ==> r[x].updated != r[y].updated
    ensures Tame(r, cap) <==> Due(r, cap) <= 1
  {
    var a := OldestAge(r, Finals(r));
    AtMostOne(a);
    AtMostOne(OldestAge(r, Finals(r) - a));
    if Finals(r) != {} {
      OldestAgeExists(r, Finals(r));
    }
  }

  /** The loop evicts as it should for every order in which the map may be walked, if and
      only if no more records are due than share the oldest age or the second oldest. */
  lemma SweptAlwaysGoodIff(r: Records, cap: nat)
    ensures (forall list :: ListsFinal(r, list) ==> GoodEviction(r, Swept(r, list, cap), cap)) <==> Tame(r, cap)
  {
    if Tame(r, cap) {
      forall list | ListsFinal(r, list) ensures GoodEviction(r, Swept(r, list, cap), cap) {
        SweptIsGoodWhenTame(r, list, cap);
      }
    } else {
      var list := WildHasBadListing(r, cap);
    }
  }
}
