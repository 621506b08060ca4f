/** The buyer's book of funded drawdown sessions: headroom is reserved when a purchase
    acquires a session, confirmed when its release lands, returned when it fails. */
module Ledger {
  import opened Text
  import Eviction

  const MAX_RECORDS: nat := 128
  const DEADLINE_MARGIN := 120

  datatype Status = Open | Closed | Disputed | Resolved | OpenFailed

  /** One purchase's draw; `tx` is empty and there is no time until its release is
      recorded. */
  datatype Draw = Draw(purchase: string, amount: int, tx: string, at: Option<int>)

  function Total(draws: seq<Draw>): int {
    if draws == [] then 0 else Total(draws[..|draws| - 1]) + draws[|draws| - 1].amount
  }

  datatype Session = Session(
    correlation: string, sellerPeer: string, seller: string, buyer: string, token: string,
    budget: int, drawn: int, deadline: int, status: Status, openTx: string,
    draws: seq<Draw>, lastDraw: Option<int>, updated: int)
  {
    function Headroom(): int {
      budget - drawn
    }

    /** The accounts balance, the budget is kept, and before the session is funded it
        carries at most the draw of the purchase that minted it. */
    ghost predicate Valid() {
      && drawn == Total(draws) && drawn <= budget
      && (forall i :: 0 <= i < |draws| ==> draws[i].amount > 0)
      && (openTx == "" ==> |draws| <= 1)
    }
  }

  // ----- One session

  function Reserve(s: Session, purchase: string, amount: int): Session {
    s.(drawn := s.drawn + amount, draws := s.draws + [Draw(purchase, amount, "", None)])
  }

  /** The last draw of `purchase` that has no tx yet, or -1. */
  function LastPending(draws: seq<Draw>, purchase: string): (i: int)
    ensures -1 <= i < |draws|
    ensures i >= 0 ==> draws[i].purchase == purchase && draws[i].tx == ""
    ensures forall j :: i < j < |draws| ==> draws[j].purchase != purchase || draws[j].tx != ""
  {
    if draws == [] then -1
    else
      var n := |draws| - 1;
      if draws[n].purchase == purchase && draws[n].tx == "" then n else LastPending(draws[..n], purchase)
  }

  /** The search of a confirmation or a rollback, from the last draw backwards. */
  method FindPending(draws: seq<Draw>, purchase: string) returns (i: int)
    ensures i == LastPending(draws, purchase)
  {
    i := |draws| - 1;
    while i >= 0 && (draws[i].purchase != purchase || draws[i].tx != "")
      invariant -1 <= i < |draws|
      invariant forall j :: i < j < |draws| ==> draws[j].purchase != purchase || draws[j].tx != ""
    {
      i := i - 1;
    }
  }

  function WithStamp(s: Session, i: nat, tx: string, now: int): Session
    requires i < |s.draws|
  {
    s.(draws := s.draws[i := s.draws[i].(tx := tx, at := Some(now))], lastDraw := Some(now))
  }

  function WithoutDraw(s: Session, i: nat): Session
    requires i < |s.draws|
  {
    s.(drawn := s.drawn - s.draws[i].amount, draws := s.draws[..i] + s.draws[i + 1..])
  }

  /** The draw of `purchase` confirmed by `tx`. */
  function Stamp(s: Session, purchase: string, tx: string, now: int): Session {
    var i := LastPending(s.draws, purchase);
    if i < 0 then s else WithStamp(s, i, tx, now)
  }

  /** The pending draw of `purchase` given back. */
  function GiveBack(s: Session, purchase: string): Session {
    var i := LastPending(s.draws, purchase);
    if i < 0 then s else WithoutDraw(s, i)
  }

  lemma {:induction false} TotalRemove(draws: seq<Draw>, i: nat)
    requires i < |draws|
    ensures Total(draws[..i] + draws[i + 1..]) == Total(draws) - draws[i].amount
    decreases |draws|
  {
    var n := |draws| - 1;
    var rest := draws[..i] + draws[i + 1..];
    if i == n {
      assert rest == draws[..n];
    } else {
      assert rest[..|rest| - 1] == draws[..n][..i] + draws[..n][i + 1..];
      assert rest[|rest| - 1] == draws[n];
      TotalRemove(draws[..n], i);
    }
  }

  lemma {:induction false} TotalSameAmounts(a: seq<Draw>, b: seq<Draw>)
    requires |a| == |b| && forall i :: 0 <= i < |a| ==> a[i].amount == b[i].amount
    ensures Total(a) == Total(b)
  {
    if a != [] {
      TotalSameAmounts(a[..|a| - 1], b[..|a| - 1]);
    }
  }

  lemma {:induction false} TotalPositive(draws: seq<Draw>)
    requires forall i :: 0 <= i < |draws| ==> draws[i].amount > 0
    ensures Total(draws) >= 0
  {
    if draws != [] {
      TotalPositive(draws[..|draws| - 1]);
    }
  }

  lemma DrawnWithinBudget(s: Session)
    requires s.Valid()
    ensures 0 <= s.drawn <= s.budget
  {
    TotalPositive(s.draws);
  }

  lemma ReserveKeepsValid(s: Session, purchase: string, amount: int)
    requires s.Valid() && 0 < amount <= s.Headroom() && (s.openTx == "" ==> s.draws == [])
    ensures Reserve(s, purchase, amount).Valid()
  {
    var t := Reserve(s, purchase, amount);
    assert t.draws[..|t.draws| - 1] == s.draws;
  }

  lemma ValidAtAnyTime(s: Session, now: int)
    requires s.Valid()
    ensures s.(updated := now).Valid()
  {
  }

  /** A confirmation gives the last pending draw of the purchase its tx and its time, sets the
      time of the last draw, and changes nothing else. */
  lemma StampIs(s: Session, purchase: string, tx: string, now: int)
    ensures var i, t := LastPending(s.draws, purchase), Stamp(s, purchase, tx, now);
      && (i < 0 ==> t == s)
      && (i >= 0 ==>
            && t == s.(draws := t.draws, lastDraw := Some(now)) && |t.draws| == |s.draws|
            && t.draws[i] == Draw(purchase, s.draws[i].amount, tx, Some(now))
            && forall k :: 0 <= k < |s.draws| && k != i ==> t.draws[k] == s.draws[k])
  {
  }

  lemma StampKeepsValid(s: Session, purchase: string, tx: string, now: int)
    requires s.Valid()
    ensures Stamp(s, purchase, tx, now).Valid()
  {
    TotalSameAmounts(s.draws, Stamp(s, purchase, tx, now).draws);
  }

  lemma GiveBackKeepsValid(s: Session, purchase: string)
    requires s.Valid()
    ensures GiveBack(s, purchase).Valid()
  {
    var i := LastPending(s.draws, purchase);
    if i >= 0 {
      TotalRemove(s.draws, i);
    }
  }

  // ----- The book

  type Sessions = map<string, Session>

  /** The sessions in memory, and the session files. Eviction leaves the files alone. */
  datatype State = State(mem: Sessions, disk: Sessions)

  function Save(st: State, id: string, s: Session): State {
    State(st.mem[id := s], st.disk[id := s])
  }

  ghost predicate Consistent(st: State) {
    && (forall id :: id in st.mem ==> id in st.disk && st.disk[id] == st.mem[id])
    && (forall id :: id in st.disk ==> st.disk[id].Valid())
  }

  lemma SaveKeepsConsistent(st: State, id: string, s: Session)
    requires Consistent(st) && s.Valid()
    ensures Consistent(Save(st, id, s))
  {
  }

  function Records(m: Sessions): (r: Eviction.Records)
    ensures r.Keys == m.Keys
  {
    map id | id in m :: Eviction.Record(m[id].status != Open, m[id].updated)
  }

  datatype Request = Request(
    purchase: string, peer: string, seller: string, buyer: string, token: string,
    amount: int, budget: Option<int>, deadline: int,
    newId: string, newCorrelation: string, now: int)

  datatype Grant = Reused(id: string) | Minted(id: string) | Refused

  /** A session that can serve the request. */
  predicate Serves(s: Session, q: Request) {
    && s.status == Open && s.openTx != ""
    && s.sellerPeer == q.peer && EqualFold(s.token, q.token)
    && s.deadline > q.now + DEADLINE_MARGIN
    && s.Headroom() >= q.amount
  }

  /** An open, funded session of the same seller, in the same token up to case, with the whole
      amount left of its budget and more than two minutes of its time. */
  predicate HasRoom(s: Session, q: Request) {
    && s.status == Open && s.openTx != ""
    && s.sellerPeer == q.peer && Lower(s.token) == Lower(q.token)
    && s.drawn + q.amount <= s.budget && s.deadline - q.now > 120
  }

  function MintedSession(q: Request): Session
    requires q.budget.Some?
  {
    Reserve(
      Session(q.newCorrelation, q.peer, q.seller, q.buyer, q.token, q.budget.value, 0, q.deadline, Open, "", [], None,
              q.now),
      q.purchase, q.amount)
  }

  /** How `acquire` may answer. Which of several suitable sessions it takes is open, as
      the sessions are walked in no particular order. */
  ghost predicate Acquires(a: State, q: Request, b: State, g: Grant) {
    match g
    case Reused(id) =>
      id in a.mem && Serves(a.mem[id], q) &&
      b == Save(a, id, Reserve(a.mem[id], q.purchase, q.amount).(updated := q.now))
    case Minted(id) =>
      && (forall x :: x in a.mem ==> !Serves(a.mem[x], q))
      && id == q.newId && q.budget.Some? && q.amount <= q.budget.value && 0 < q.budget.value
      && var s := MintedSession(q);
      && b.disk == a.disk[id := s]
      && b.mem.Keys <= a.mem.Keys + {id} && id in b.mem
      && (forall x :: x in b.mem ==> b.mem[x] == a.mem[id := s][x])
      && (forall x :: x in a.mem && x !in b.mem ==> a.mem[x].status != Open)
      && (|a.mem| < MAX_RECORDS ==> b.mem == a.mem[id := s])
    case Refused =>
      && (forall x :: x in a.mem ==> !Serves(a.mem[x], q))
      && (q.budget.None? || q.budget.value <= 0 || q.amount > q.budget.value)
      && b == a
  }

  lemma TotalOne(d: Draw)
    ensures Total([d]) == d.amount
  {
    assert [d][..0] == [];
  }

  lemma MintedIsValid(q: Request)
    requires q.budget.Some? && 0 < q.amount <= q.budget.value
    ensures MintedSession(q).Valid()
  {
    var d := Draw(q.purchase, q.amount, "", None);
    assert MintedSession(q).draws == [d];
    TotalOne(d);
  }

  lemma MintKeepsConsistent(a: State, b: State, id: string, s: Session)
    requires Consistent(a) && s.Valid() && b.disk == a.disk[id := s] && b.mem.Keys <= a.mem.Keys + {id}
    requires forall x :: x in b.mem ==> b.mem[x] == a.mem[id := s][x]
    ensures Consistent(b)
  {
  }

  lemma ReuseKeepsConsistent(a: State, q: Request, id: string)
    requires Consistent(a) && id in a.mem && Serves(a.mem[id], q) && q.amount > 0
    ensures Consistent(Save(a, id, Reserve(a.mem[id], q.purchase, q.amount).(updated := q.now)))
  {
    ReserveKeepsValid(a.mem[id], q.purchase, q.amount);
    ValidAtAnyTime(Reserve(a.mem[id], q.purchase, q.amount), q.now);
    SaveKeepsConsistent(a, id, Reserve(a.mem[id], q.purchase, q.amount).(updated := q.now));
  }

  lemma MintedKeepsConsistent(a: State, q: Request, b: State, id: string)
    requires Consistent(a) && Acquires(a, q, b, Minted(id)) && q.amount > 0
    ensures Consistent(b)
  {
    var s := MintedSession(q);
    assert s.Valid() by {
      MintedIsValid(q);
    }
    assert b.disk == a.disk[id := s];
    MintKeepsConsistent(a, b, id, s);
  }

  lemma AcquireKeepsConsistent(a: State, q: Request, b: State, g: Grant)
    requires Consistent(a) && Acquires(a, q, b, g) && q.amount > 0
    ensures Consistent(b)
  {
    match g {
      case Reused(id) => ReuseKeepsConsistent(a, q, id);
      case Minted(id) => MintedKeepsConsistent(a, q, b, id);
      case Refused =>
    }
  }

  /** A session is reused only with room for the draw, and its book grows by that draw alone;
      a new one is made for the seller and the token asked for. */
  lemma AcquireFits(a: State, q: Request, b: State, g: Grant)
    requires Acquires(a, q, b, g)
    ensures g.Reused? ==>
      && g.id in a.mem && HasRoom(a.mem[g.id], q)
      && b.disk == a.disk[g.id := b.mem[g.id]]
      && b.mem[g.id].draws == a.mem[g.id].draws + [Draw(q.purchase, q.amount, "", None)] && b.mem[g.id].updated == q.now
    ensures g.Minted? ==>
      && g.id in b.disk && g.id in b.mem && 0 < b.disk[g.id].budget
      && b.disk[g.id].draws == [Draw(q.purchase, q.amount, "", None)]
      && b.disk[g.id].sellerPeer == q.peer && b.disk[g.id].seller == q.seller && b.disk[g.id].buyer == q.buyer
      && b.disk[g.id].token == q.token && b.disk[g.id].status == Open && b.disk[g.id].openTx == ""
      && b.disk[g.id].drawn == q.amount <= b.disk[g.id].budget && b.disk[g.id].deadline == q.deadline
    ensures g.Minted? ==> (forall id :: id in b.mem && id != g.id ==> id in a.mem && b.mem[id] == a.mem[id])
    ensures g.Minted? && |a.mem| < 128 ==> a.mem.Keys <= b.mem.Keys
    ensures g.Refused? ==> b == a && (q.budget.Some? && 0 < q.budget.value ==> q.amount > q.budget.value)
    ensures !g.Reused? ==> forall id :: id in a.mem ==> !HasRoom(a.mem[id], q)
  {
  }

  function Recorded(st: State, id: string, purchase: string, tx: string, now: int): State {
    if id in st.mem && LastPending(st.mem[id].draws, purchase) >= 0
    then Save(st, id, Stamp(st.mem[id], purchase, tx, now).(updated := now))
    else st
  }

  function RolledBack(st: State, id: string, purchase: string, now: int): State {
    if id in st.mem then Save(st, id, GiveBack(st.mem[id], purchase).(updated := now)) else st
  }

  function Opened(st: State, id: string, tx: string, now: int): State {
    if id in st.mem then Save(st, id, st.mem[id].(openTx := tx, updated := now)) else st
  }

  function Ended(st: State, id: string, status: Status, now: int): State {
    if id in st.mem then Save(st, id, st.mem[id].(status := status, updated := now)) else st
  }

  /** At most the session under `id` differs between the two. */
  ghost predicate OnlyAt(a: State, b: State, id: string) {
    && b.mem.Keys == a.mem.Keys && a.disk.Keys <= b.disk.Keys <= a.disk.Keys + {id} && (id !in a.mem ==> b == a)
    && (forall x :: x in a.mem && x != id ==> b.mem[x] == a.mem[x])
    && (forall x :: x in a.disk && x != id ==> b.disk[x] == a.disk[x])
  }

  lemma SaveIsOnly(st: State, id: string, s: Session)
    requires id in st.mem
    ensures OnlyAt(st, Save(st, id, s), id)
  {
  }

  /** Confirming, giving back, opening and ending concern one known session. */
  lemma OnlyOneChanges(st: State, id: string, purchase: string, tx: string, status: Status, now: int)
    ensures OnlyAt(st, Recorded(st, id, purchase, tx, now), id) && OnlyAt(st, RolledBack(st, id, purchase, now), id)
    ensures OnlyAt(st, Opened(st, id, tx, now), id) && OnlyAt(st, Ended(st, id, status, now), id)
  {
    if id in st.mem {
      SaveIsOnly(st, id, Stamp(st.mem[id], purchase, tx, now).(updated := now));
      SaveIsOnly(st, id, GiveBack(st.mem[id], purchase).(updated := now));
      SaveIsOnly(st, id, st.mem[id].(openTx := tx, updated := now));
      SaveIsOnly(st, id, st.mem[id].(status := status, updated := now));
    }
  }

  /** They change it in memory and in its file, and record when. */
  lemma ChangesAreRecorded(st: State, id: string, purchase: string, tx: string, status: Status, now: int)
    requires id in st.mem
    ensures var b := RolledBack(st, id, purchase, now); b.disk[id] == b.mem[id] && b.mem[id].updated == now
    ensures var b := Opened(st, id, tx, now); b.disk[id] == b.mem[id] == st.mem[id].(openTx := tx, updated := now)
    ensures var b := Ended(st, id, status, now);
      b.disk[id] == b.mem[id] == st.mem[id].(status := status, updated := now)
    ensures LastPending(st.mem[id].draws, purchase) >= 0 ==>
      var b := Recorded(st, id, purchase, tx, now); id in b.disk && b.disk[id] == b.mem[id] && b.mem[id].updated == now
  {
  }

  predicate IsExpired(s: Session, now: int) {
    s.status == Open && s.openTx != "" && s.deadline <= now
  }

  class DrawdownLedger {
    var sessions: Sessions
    var files: Sessions

    ghost predicate Valid()
      reads this
    {
      Consistent(View())
    }

    ghost function View(): State
      reads this
    {
      State(sessions, files)
    }

    /** Loads the session files at boot. */
    constructor (files: Sessions)
      requires forall id :: id in files ==> files[id].Valid()
      ensures Valid() && View() == State(files, files)
    {
      this.sessions, this.files := files, files;
    }

    method SaveSession(id: string, s: Session)
      requires Valid() && s.Valid()
      modifies this
      ensures Valid() && View() == Save(old(View()), id, s)
    {
      sessions := sessions[id := s];
      files := files[id := s];
    }

    /** A session that can serve the request, if there is one. */
    method FindServing(q: Request) returns (found: Option<string>)
      ensures found.Some? ==> found.value in sessions && Serves(sessions[found.value], q)
      ensures found.None? ==> forall id :: id in sessions ==> !Serves(sessions[id], q)
    {
      var rest := sessions.Keys;
      while rest != {}
        invariant rest <= sessions.Keys
        invariant forall id :: id in sessions.Keys - rest ==> !Serves(sessions[id], q)
        decreases |rest|
      {
        var id :| id in rest;
        rest := rest - {id};
        if Serves(sessions[id], q) {
          return Some(id);
        }
      }
      found := None;
    }

    method Acquire(q: Request) returns (g: Grant)
      requires Valid() && q.amount > 0
      modifies this
      ensures Valid() && Acquires(old(View()), q, View(), g)
      ensures g.Reused? <==> exists id :: id in old(sessions) && HasRoom(old(sessions)[id], q)
      ensures g.Minted? <==> !g.Reused? && q.budget.Some? && 0 < q.budget.value && q.amount <= q.budget.value
    {
      var found := FindServing(q);
      if found.Some? {
        var id := found.value;
        ReserveKeepsValid(sessions[id], q.purchase, q.amount);
        SaveSession(id, Reserve(sessions[id], q.purchase, q.amount).(updated := q.now));
        return Reused(id);
      }
      if q.budget.None? || q.budget.value <= 0 || q.amount > q.budget.value {
        return Refused;
      }
      g := Minted(q.newId);
      Mint(q);
      AcquireKeepsConsistent(old(View()), q, View(), g);
    }

    /** Enters a new session and bounds the book. */
    method Mint(q: Request)
      requires q.budget.Some?
      modifies this
      ensures files == old(files)[q.newId := MintedSession(q)]
      ensures q.newId in sessions && sessions.Keys <= old(sessions).Keys + {q.newId}
      ensures var all := old(sessions)[q.newId := MintedSession(q)];
        && (forall x :: x in sessions ==> sessions[x] == all[x])
        && (forall x :: x in all && x !in sessions ==> all[x].status != Open)
        && (|old(sessions)| < MAX_RECORDS ==> sessions == all)
    {
      var s := MintedSession(q);
      var all := sessions[q.newId := s];
      var kept, listing := Eviction.BoundDrawdowns(Records(all), MAX_RECORDS);
      Eviction.SweptDropsListed(Records(all), listing, MAX_RECORDS);
      assert |Records(all)| == |Records(all).Keys| == |all.Keys|;
      assert all.Keys == sessions.Keys + {q.newId};
      sessions := map id | id in all && id in kept :: all[id];
      files := files[q.newId := s];
    }

    /** Confirms a released draw; fails when there is no pending draw to confirm. */
    method RecordDraw(id: string, purchase: string, tx: string, now: int) returns (ok: bool)
      requires Valid()
      modifies this
      ensures Valid() && View() == Recorded(old(View()), id, purchase, tx, now)
      ensures ok <==> id in old(sessions) && LastPending(old(sessions)[id].draws, purchase) >= 0
    {
      if id !in sessions {
        return false;
      }
      var s := sessions[id];
      var i := FindPending(s.draws, purchase);
      ok := i >= 0;
      if ok {
        s := WithStamp(s, i, tx, now);
        StampKeepsValid(sessions[id], purchase, tx, now);
        ValidAtAnyTime(s, now);
        SaveSession(id, s.(updated := now));
      }
    }

    method RollbackDraw(id: string, purchase: string, now: int)
      requires Valid()
      modifies this
      ensures Valid() && View() == RolledBack(old(View()), id, purchase, now)
    {
      if id !in sessions {
        return;
      }
      var s := sessions[id];
      var i := FindPending(s.draws, purchase);
      if i >= 0 {
        s := WithoutDraw(s, i);
      }
      GiveBackKeepsValid(sessions[id], purchase);
      ValidAtAnyTime(s, now);
      SaveSession(id, s.(updated := now));
    }

    /** Stamps the open tx as it comes; the accounts stay in order exactly unless an empty
        one is written over a session that carries several draws. */
    method MarkOpened(id: string, tx: string, now: int) returns (ok: bool)
      requires Valid()
      modifies this
      ensures View() == Opened(old(View()), id, tx, now)
      ensures Valid() <==> !(tx == "" && id in old(sessions) && |old(sessions)[id].draws| > 1)
      ensures ok <==> id in old(sessions)
    {
      if id !in sessions {
        return false;
      }
      var s := sessions[id].(openTx := tx, updated := now);
      sessions := sessions[id := s];
      files := files[id := s];
      assert files[id] == s;
      ok := true;
    }

    method MarkClosed(id: string, status: Status, now: int)
      requires Valid()
      modifies this
      ensures Valid() && View() == Ended(old(View()), id, status, now)
    {
      if id in sessions {
        SaveSession(id, sessions[id].(status := status, updated := now));
      }
    }

    /** The funded open sessions whose deadline has passed. */
    method Expired(now: int) returns (out: set<string>)
      ensures forall id :: id in out <==>
        && id in sessions && sessions[id].status == Open && sessions[id].openTx != "" && sessions[id].deadline <= now
    {
      out := {};
      var rest := sessions.Keys;
      while rest != {}
        invariant rest <= sessions.Keys
        invariant forall id :: id in out <==> id in sessions.Keys - rest && IsExpired(sessions[id], now)
        decreases |rest|
      {
        var id :| id in rest;
        rest := rest - {id};
        if IsExpired(sessions[id], now) {
          out := out + {id};
        }
      }
    }
  }
}
