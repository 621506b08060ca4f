/** The seller's session registry: caps, the per-connection index, the reaper and one
    receipt per session, with the per-connection agent on top of it. */
module Registry {
  import opened Text

  const DEFAULT_MAX := 4
  const PEER_SHARE_DIVISOR := 2
  const KEY_NONCE_LENGTH := 16

  datatype Status = Open | Active | Completed | Closed | Failed

  /** A session; `key` is its id in lower case, `receipts` counts the receipts minted for
      it. */
  datatype Session = Session(
    key: string, peer: string, conn: nat, status: Status, openedAt: int, promptDone: bool, receipts: nat)

  predicate IsLive(s: Session) {
    s.status == Open || s.status == Active
  }

  /** Sessions are shared by reference: a handle is a position in `table`, which holds
      every session ever registered. `sessions` and `byConn` are the registry proper. */
  datatype State = State(max: int, table: seq<Session>, sessions: map<string, nat>, byConn: map<nat, seq<nat>>)

  function MaxSessions(r: State): (n: int)
    ensures n > 0 && (r.max > 0 ==> n == r.max)
  {
    if r.max > 0 then r.max else DEFAULT_MAX
  }

  function PeerCap(r: State): (n: int)
    ensures 0 < n <= MaxSessions(r)
    ensures MaxSessions(r) > 1 ==> 2 * n <= MaxSessions(r) <= 2 * n + 1
  {
    var share := MaxSessions(r) / PEER_SHARE_DIVISOR;
    if share < 1 then 1 else share
  }

  /** Every handle in the registry is in the table. */
  ghost predicate Handles(r: State) {
    && (forall k :: k in r.sessions ==> r.sessions[k] < |r.table|)
    && (forall c, i :: c in r.byConn && 0 <= i < |r.byConn[c]| ==> r.byConn[c][i] < |r.table|)
  }

  // ----- Operations

  /** The keys of registered live sessions, of all peers or of one. */
  function LiveKeys(r: State): set<string>
    requires Handles(r)
  {
    set k | k in r.sessions && IsLive(r.table[r.sessions[k]])
  }

  function PeerKeys(r: State, peer: string): set<string>
    requires Handles(r)
  {
    set k | k in r.sessions && IsLive(r.table[r.sessions[k]]) && r.table[r.sessions[k]].peer == peer
  }

  predicate Admits(r: State, s: Session)
    requires Handles(r)
  {
    |LiveKeys(r)| < MaxSessions(r) && |PeerKeys(r, s.peer)| < PeerCap(r) && s.key !in r.sessions
  }

  function ListOf(r: State, conn: nat): seq<nat> {
    if conn in r.byConn then r.byConn[conn] else []
  }

  function Registered(r: State, s: Session): State
    requires Handles(r)
  {
    if !Admits(r, s) then r
    else
      var h := |r.table|;
      r.(table := r.table + [s], sessions := r.sessions[s.key := h],
         byConn := r.byConn[s.conn := ListOf(r, s.conn) + [h]])
  }

  function Without(list: seq<nat>, h: nat): seq<nat> {
    if list == [] then []
    else
      var n := |list| - 1;
      if list[n] == h then Without(list[..n], h) else Without(list[..n], h) + [list[n]]
  }

  function Unlisted(byConn: map<nat, seq<nat>>, conn: nat, h: nat): map<nat, seq<nat>> {
    if conn !in byConn || byConn[conn] == [] then byConn
    else if Without(byConn[conn], h) == [] then byConn - {conn}
    else byConn[conn := Without(byConn[conn], h)]
  }

  /** Ends a live session: one receipt, and out of the registry. */
  function Finished(r: State, h: nat, status: Status): State
    requires h < |r.table|
  {
    var s := r.table[h];
    if !IsLive(s) then r
    else State(r.max, r.table[h := s.(status := status, receipts := s.receipts + 1)], r.sessions - {s.key},
               Unlisted(r.byConn, s.conn, h))
  }

  function AllFinished(r: State, handles: seq<nat>, status: Status): (r': State)
    requires forall i :: 0 <= i < |handles| ==> handles[i] < |r.table|
    ensures |r'.table| == |r.table|
  {
    if handles == [] then r
    else
      var n := |handles| - 1;
      Finished(AllFinished(r, handles[..n], status), handles[n], status)
  }

  /** A dropped connection. */
  function Finalized(r: State, conn: nat): State
    requires Handles(r)
  {
    AllFinished(r.(byConn := r.byConn - {conn}), ListOf(r, conn), Failed)
  }

  predicate IsExpired(r: State, h: nat, now: int, ttl: int)
    requires h < |r.table|
  {
    IsLive(r.table[h]) && now - r.table[h].openedAt > ttl
  }

  /** `handles` lists, in some order, the registered sessions the reaper ends at `now`. */
  ghost predicate ReapList(r: State, handles: seq<nat>, now: int, ttl: int)
    requires Handles(r)
  {
    forall h :: h in handles <==> exists k :: k in r.sessions && r.sessions[k] == h && IsExpired(r, h, now, ttl)
  }

  /** A spawned agent is bound to the session; nothing checks that it is still live. */
  function Activated(r: State, h: nat): State
    requires h < |r.table|
  {
    r.(table := r.table[h := r.table[h].(status := Active)])
  }

  function Prompted(r: State, h: nat): State
    requires h < |r.table|
  {
    r.(table := r.table[h := r.table[h].(promptDone := true)])
  }

  // ----- The invariant

  function LiveSet(r: State): set<nat> {
    set h | 0 <= h < |r.table| && IsLive(r.table[h])
  }

  function LiveOf(r: State, peer: string): set<nat> {
    set h | 0 <= h < |r.table| && IsLive(r.table[h]) && r.table[h].peer == peer
  }

  /** The registry holds exactly the live sessions, under unique keys. */
  ghost predicate Indexed(r: State) {
    && (forall k :: k in r.sessions ==>
          r.sessions[k] < |r.table| && IsLive(r.table[r.sessions[k]]) && r.table[r.sessions[k]].key == k)
    && (forall h :: 0 <= h < |r.table| && IsLive(r.table[h]) ==>
          r.table[h].key in r.sessions && r.sessions[r.table[h].key] == h)
  }

  ghost predicate Distinct(list: seq<nat>) {
    forall i, j :: 0 <= i < j < |list| ==> list[i] != list[j]
  }

  ghost predicate ListOk(r: State, conn: nat, list: seq<nat>) {
    && list != [] && Distinct(list)
    && (forall i :: 0 <= i < |list| ==>
          list[i] < |r.table| && IsLive(r.table[list[i]]) && r.table[list[i]].conn == conn)
  }

  /** Each live session, apart from those in `pending`, is listed once under its
      connection, and nothing else is. */
  ghost predicate Listed(r: State, pending: set<nat>) {
    && (forall c :: c in r.byConn ==> ListOk(r, c, r.byConn[c]))
    && (forall h :: 0 <= h < |r.table| && IsLive(r.table[h]) && h !in pending ==> h in ListOf(r, r.table[h].conn))
  }

  ghost predicate Capped(r: State) {
    |LiveSet(r)| <= MaxSessions(r) && forall peer :: |LiveOf(r, peer)| <= PeerCap(r)
  }

  /** No receipt while live, one afterwards. */
  ghost predicate OneReceiptEach(r: State) {
    forall h :: 0 <= h < |r.table| ==> r.table[h].receipts == if IsLive(r.table[h]) then 0 else 1
  }

  ghost predicate InvBut(r: State, pending: set<nat>) {
    Indexed(r) && Listed(r, pending) && Capped(r) && OneReceiptEach(r)
  }

  ghost predicate Inv(r: State) {
    InvBut(r, {})
  }

  // ----- Registering

  lemma {:induction false} SubsetSize<T>(a: set<T>, b: set<T>)
    requires a <= b
    ensures |a| <= |b|
    decreases a
  {
    if x :| x in a {
      SubsetSize(a - {x}, b - {x});
    }
  }

  /** Counting handles is counting their keys. */
  lemma {:induction false} SameSize(r: State, handles: set<nat>, keys: set<string>)
    requires Indexed(r) && keys <= r.sessions.Keys
    requires forall k :: k in r.sessions ==> (k in keys <==> r.sessions[k] in handles)
    requires handles <= LiveSet(r)
    ensures |handles| == |keys|
    decreases keys
  {
    assert forall h :: h in handles ==> r.table[h].key in keys;
    if k :| k in keys {
      SameSize(r, handles - {r.sessions[k]}, keys - {k});
    } else {
      assert handles == {};
    }
  }

  lemma CountsAgree(r: State, peer: string)
    requires Indexed(r) && Handles(r)
    ensures |LiveSet(r)| == |LiveKeys(r)| && |LiveOf(r, peer)| == |PeerKeys(r, peer)|
  {
    SameSize(r, LiveSet(r), LiveKeys(r));
    SameSize(r, LiveOf(r, peer), PeerKeys(r, peer));
  }

  /** A longer table counts one more. */
  lemma AppendCounts(r: State, r': State, s: Session)
    requires r'.table == r.table + [s] && IsLive(s)
    ensures |LiveSet(r')| == |LiveSet(r)| + 1
  {
    var n := |r.table|;
    assert n !in LiveSet(r) && LiveSet(r') == LiveSet(r) + {n};
  }

  lemma AppendCountsPeer(r: State, r': State, s: Session, peer: string)
    requires r'.table == r.table + [s] && IsLive(s)
    ensures |LiveOf(r', peer)| == |LiveOf(r, peer)| + if s.peer == peer then 1 else 0
  {
    var n := |r.table|;
    if peer == s.peer {
      assert n !in LiveOf(r, peer) && LiveOf(r', peer) == LiveOf(r, peer) + {n};
    } else {
      assert LiveOf(r', peer) == LiveOf(r, peer);
    }
  }

  lemma RegisterKeepsCaps(r: State, s: Session)
    requires Indexed(r) && Capped(r) && Handles(r) && IsLive(s) && Admits(r, s)
    ensures Capped(Registered(r, s))
  {
    var r' := Registered(r, s);
    CountsAgree(r, s.peer);
    AppendCounts(r, r', s);
    forall peer ensures |LiveOf(r', peer)| <= PeerCap(r') {
      AppendCountsPeer(r, r', s, peer);
    }
  }

  lemma RegisterKeepsLists(r: State, s: Session)
    requires Listed(r, {}) && Handles(r) && IsLive(s) && Admits(r, s)
    ensures Listed(Registered(r, s), {})
  {
    var r' := Registered(r, s);
    forall c | c in r'.byConn ensures ListOk(r', c, r'.byConn[c]) {
      if c in r.byConn {
        assert ListOk(r, c, r.byConn[c]);
      }
      RegisteredListOk(r, s, c);
    }
    forall h | 0 <= h < |r'.table| && IsLive(r'.table[h]) ensures h in ListOf(r', r'.table[h].conn) {
      assert h < |r.table| ==> h in ListOf(r, r.table[h].conn);
      RegisteredIsListed(r, s, h);
    }
  }

  lemma RegisteredIsListed(r: State, s: Session, h: nat)
    requires Handles(r) && Admits(r, s) && h < |Registered(r, s).table|
    requires h < |r.table| ==> h in ListOf(r, r.table[h].conn)
    ensures var r' := Registered(r, s); h in ListOf(r', r'.table[h].conn)
  {
  }

  lemma RegisteredListOk(r: State, s: Session, conn: nat)
    requires Handles(r) && IsLive(s) && Admits(r, s)
    requires conn in r.byConn ==> ListOk(r, conn, r.byConn[conn])
    requires conn in Registered(r, s).byConn
    ensures ListOk(Registered(r, s), conn, Registered(r, s).byConn[conn])
  {
  }

  lemma RegisterKeepsIndex(r: State, s: Session)
    requires Indexed(r) && Handles(r) && IsLive(s) && Admits(r, s)
    ensures Indexed(Registered(r, s))
  {
  }

  lemma RegisterKeepsInv(r: State, s: Session)
    requires Inv(r) && Handles(r) && IsLive(s) && s.receipts == 0
    ensures Inv(Registered(r, s))
  {
    if Admits(r, s) {
      RegisterKeepsIndex(r, s);
      RegisterKeepsCaps(r, s);
      RegisterKeepsLists(r, s);
      RegisterKeepsReceipts(r, s);
    }
  }

  lemma RegisterKeepsReceipts(r: State, s: Session)
    requires OneReceiptEach(r) && Handles(r) && IsLive(s) && s.receipts == 0
    ensures OneReceiptEach(Registered(r, s))
  {
  }

  // ----- Finishing

  lemma {:induction false} WithoutIs(list: seq<nat>, h: nat)
    ensures forall x :: x in Without(list, h) <==> x in list && x != h
    ensures Distinct(list) ==> Distinct(Without(list, h))
  {
    if list != [] {
      var n := |list| - 1;
      WithoutIs(list[..n], h);
      assert list == list[..n] + [list[n]];
      assert Distinct(list) ==> list[n] !in list[..n];
    }
  }

  lemma FinishKeepsLists(r: State, pending: set<nat>, h: nat, status: Status)
    requires InvBut(r, pending) && h < |r.table| && status !in {Open, Active} && IsLive(r.table[h])
    ensures Listed(Finished(r, h, status), pending - {h})
  {
    var r' := Finished(r, h, status);
    var conn := r.table[h].conn;
    WithoutIs(ListOf(r, conn), h);
    forall c | c in r'.byConn ensures ListOk(r', c, r'.byConn[c]) {
      assert ListOk(r, c, r.byConn[c]);
      forall i | 0 <= i < |r'.byConn[c]|
        ensures r'.byConn[c][i] < |r'.table| && IsLive(r'.table[r'.byConn[c][i]]) && r'.table[r'.byConn[c][i]].conn == c
      {
        assert r'.byConn[c][i] in r'.byConn[c];
        assert r'.byConn[c][i] in r.byConn[c];
      }
    }
    forall x | 0 <= x < |r'.table| && IsLive(r'.table[x]) && x !in pending - {h}
      ensures x in ListOf(r', r'.table[x].conn)
    {
      assert x in ListOf(r, r.table[x].conn);
    }
  }

  lemma FinishKeepsCaps(r: State, h: nat, status: Status)
    requires Capped(r) && h < |r.table| && status !in {Open, Active}
    ensures Capped(Finished(r, h, status))
  {
    var r' := Finished(r, h, status);
    SubsetSize(LiveSet(r'), LiveSet(r));
    forall peer ensures |LiveOf(r', peer)| <= PeerCap(r') {
      SubsetSize(LiveOf(r', peer), LiveOf(r, peer));
    }
  }

  lemma FinishKeepsInv(r: State, pending: set<nat>, h: nat, status: Status)
    requires InvBut(r, pending) && h < |r.table| && status !in {Open, Active}
    ensures InvBut(Finished(r, h, status), pending - {h})
  {
    if IsLive(r.table[h]) {
      FinishKeepsLists(r, pending, h, status);
      FinishKeepsCaps(r, h, status);
    }
  }

  lemma {:induction false} AllFinishedKeepsInv(r: State, pending: set<nat>, handles: seq<nat>, status: Status)
    requires InvBut(r, pending) && status !in {Open, Active}
    requires forall i :: 0 <= i < |handles| ==> handles[i] < |r.table|
    ensures InvBut(AllFinished(r, handles, status), pending - set h | h in handles)
  {
    if handles != [] {
      var n := |handles| - 1;
      AllFinishedKeepsInv(r, pending, handles[..n], status);
      FinishKeepsInv(AllFinished(r, handles[..n], status), pending - (set h | h in handles[..n]), handles[n], status);
      LessOne(pending, handles);
    } else {
      assert pending - (set h | h in handles) == pending;
    }
  }

  lemma LessOne(pending: set<nat>, handles: seq<nat>)
    requires handles != []
    ensures var n := |handles| - 1;
      pending - (set h | h in handles[..n]) - {handles[n]} == pending - set h | h in handles
  {
    var n := |handles| - 1;
    assert handles == handles[..n] + [handles[n]];
  }

  /** What ending several sessions does to the table. */
  lemma {:induction false} AllFinishedTable(r: State, handles: seq<nat>, status: Status, h: nat)
    requires status !in {Open, Active} && h < |r.table|
    requires forall i :: 0 <= i < |handles| ==> handles[i] < |r.table|
    ensures AllFinished(r, handles, status).table[h] ==
      var s := r.table[h];
      if h in handles && IsLive(s) then s.(status := status, receipts := s.receipts + 1) else s
  {
    if handles != [] {
      var n := |handles| - 1;
      AllFinishedTable(r, handles[..n], status, h);
      assert handles == handles[..n] + [handles[n]];
    }
  }

  /** Dropping a connection keeps the invariant and leaves the connection no live
      session; the other connections' sessions are untouched. */
  lemma FinalizeKeepsInv(r: State, conn: nat)
    requires Inv(r) && Handles(r)
    ensures Inv(Finalized(r, conn))
    ensures forall h :: 0 <= h < |r.table| ==>
      Finalized(r, conn).table[h] ==
        var s := r.table[h];
        if s.conn == conn && IsLive(s) then s.(status := Failed, receipts := 1) else s
  {
    FinalizedInv(r, conn);
    forall h | 0 <= h < |r.table|
      ensures Finalized(r, conn).table[h] ==
        var s := r.table[h];
        if s.conn == conn && IsLive(s) then s.(status := Failed, receipts := 1) else s
    {
      AllFinishedTable(r.(byConn := r.byConn - {conn}), ListOf(r, conn), Failed, h);
      ListHolds(r, conn, h);
    }
  }

  ghost predicate NoneLive(r: State, conn: nat) {
    forall h :: 0 <= h < |r.table| ==> !(IsLive(r.table[h]) && r.table[h].conn == conn)
  }

  lemma FinalizeSafe(r: State, conn: nat)
    requires Handles(r)
    ensures Inv(r) ==> Inv(Finalized(r, conn)) && NoneLive(Finalized(r, conn), conn)
  {
    if Inv(r) {
      FinalizeKeepsInv(r, conn);
    }
  }

  lemma FinalizedInv(r: State, conn: nat)
    requires Inv(r) && Handles(r)
    ensures Inv(Finalized(r, conn))
  {
    var list := ListOf(r, conn);
    DropList(r, conn);
    AllFinishedKeepsInv(r.(byConn := r.byConn - {conn}), (set h | h in list), list, Failed);
    assert (set h | h in list) - (set h | h in list) == {};
  }

  lemma DropList(r: State, conn: nat)
    requires Inv(r)
    ensures InvBut(r.(byConn := r.byConn - {conn}), set h | h in ListOf(r, conn))
  {
    var r1 := r.(byConn := r.byConn - {conn});
    SameTableKeepsCaps(r, r1);
    DropListListed(r, conn);
  }

  lemma SameTableKeepsCaps(r: State, r': State)
    requires Capped(r) && r'.table == r.table && r'.max == r.max
    ensures Capped(r')
  {
    assert LiveSet(r') == LiveSet(r);
    assert forall peer :: LiveOf(r', peer) == LiveOf(r, peer);
  }

  lemma DropListListed(r: State, conn: nat)
    requires Listed(r, {})
    ensures Listed(r.(byConn := r.byConn - {conn}), set h | h in ListOf(r, conn))
  {
    var r1 := r.(byConn := r.byConn - {conn});
    forall c | c in r1.byConn ensures ListOk(r1, c, r1.byConn[c]) {
      assert ListOk(r, c, r.byConn[c]);
    }
  }

  lemma ListHolds(r: State, conn: nat, h: nat)
    requires Inv(r) && h < |r.table|
    ensures h in ListOf(r, conn) <==> IsLive(r.table[h]) && r.table[h].conn == conn
  {
    assert conn in r.byConn ==> ListOk(r, conn, r.byConn[conn]);
  }

  /** The reaper keeps the invariant and leaves no expired session. */
  lemma ReapKeepsInv(r: State, handles: seq<nat>, now: int, ttl: int)
    requires Inv(r) && Handles(r) && ReapList(r, handles, now, ttl)
    ensures forall i :: 0 <= i < |handles| ==> handles[i] < |r.table|
    ensures Inv(AllFinished(r, handles, Failed))
    ensures forall h :: 0 <= h < |r.table| ==> !IsExpired(AllFinished(r, handles, Failed), h, now, ttl)
  {
    forall i | 0 <= i < |handles| ensures handles[i] < |r.table| {
      assert handles[i] in handles;
    }
    AllFinishedKeepsInv(r, {}, handles, Failed);
    assert {} - (set h | h in handles) == {};
    forall h | 0 <= h < |r.table| ensures !IsExpired(AllFinished(r, handles, Failed), h, now, ttl) {
      AllFinishedTable(r, handles, Failed, h);
      if IsExpired(r, h, now, ttl) {
        assert r.sessions[r.table[h].key] == h;
        assert h in handles;
      }
    }
  }

  // ----- Activating

  /** Binding an agent keeps the invariant exactly when the session is still live. */
  lemma ActivateKeepsInvIff(r: State, h: nat)
    requires Inv(r) && h < |r.table|
    ensures Inv(Activated(r, h)) <==> IsLive(r.table[h])
  {
    var r' := Activated(r, h);
    if IsLive(r.table[h]) {
      SameLivesKeepInv(r, r');
    } else {
      assert r'.table[h].receipts == 1 && IsLive(r'.table[h]);
    }
  }

  lemma SameLivesKeepInv(r: State, r': State)
    requires Inv(r) && SameLives(r, r')
    ensures Inv(r')
  {
    SameLiveSets(r, r');
    forall c | c in r'.byConn ensures ListOk(r', c, r'.byConn[c]) {
      SameList(r, r', c);
    }
  }

  lemma SameLiveSets(r: State, r': State)
    requires SameLives(r, r')
    ensures LiveSet(r') == LiveSet(r) && forall peer :: LiveOf(r', peer) == LiveOf(r, peer)
  {
  }

  /** No session changes its place, its receipts, or whether it is live. */
  ghost predicate SameLives(r: State, r': State) {
    && r' == r.(table := r'.table) && |r'.table| == |r.table|
    && forall h :: 0 <= h < |r.table| ==>
         var s, t := r.table[h], r'.table[h];
         t.key == s.key && t.peer == s.peer && t.conn == s.conn && t.receipts == s.receipts && IsLive(t) == IsLive(s)
  }

  lemma SameList(r: State, r': State, c: nat)
    requires SameLives(r, r') && c in r.byConn && ListOk(r, c, r.byConn[c])
    ensures ListOk(r', c, r'.byConn[c])
  {
  }

  // ----- Runs

  /** What handlers, the reaper and dropped connections do to the registry, in any order
      and on any sessions. */
  datatype Step =
    | Register(s: Session)
    | Activate(h: nat)
    | Prompt(h: nat)
    | Finish(h: nat, status: Status)
    | Finalize(conn: nat)
    | Reap(handles: seq<nat>, now: int, ttl: int)

  predicate IsNew(s: Session) {
    s.status == Open && !s.promptDone && s.receipts == 0
  }

  ghost predicate Next(r: State, step: Step, r': State) {
    Handles(r) &&
    match step
    case Register(s) => IsNew(s) && r' == Registered(r, s)
    case Activate(h) => h < |r.table| && r' == Activated(r, h)
    case Prompt(h) => h < |r.table| && r' == Prompted(r, h)
    case Finish(h, status) => h < |r.table| && status !in {Open, Active} && r' == Finished(r, h, status)
    case Finalize(conn) => r' == Finalized(r, conn)
    case Reap(handles, now, ttl) =>
      && ReapList(r, handles, now, ttl) && (forall i :: 0 <= i < |handles| ==> handles[i] < |r.table|)
      && r' == AllFinished(r, handles, Failed)
  }

  /** The step binds an agent to a session that has ended. */
  predicate Revives(r: State, step: Step) {
    step.Activate? && step.h < |r.table| && !IsLive(r.table[step.h])
  }

  /** A step keeps the invariant exactly when it does not bring an ended session back. */
  lemma NextKeepsInvIff(r: State, step: Step, r': State)
    requires Inv(r) && Next(r, step, r')
    ensures Inv(r') <==> !Revives(r, step)
  {
    match step {
      case Register(s) => RegisterKeepsInv(r, s);
      case Activate(h) => ActivateKeepsInvIff(r, h);
      case Prompt(h) => SameLivesKeepInv(r, r');
      case Finish(h, status) =>
        FinishKeepsInv(r, {}, h, status);
        assert {} - {h} == {};
      case Finalize(conn) => FinalizeKeepsInv(r, conn);
      case Reap(handles, now, ttl) => ReapKeepsInv(r, handles, now, ttl);
    }
  }

  function Empty(max: int): State {
    State(max, [], map[], map[])
  }

  ghost predicate IsRun(run: seq<State>, steps: seq<Step>) {
    && |run| == |steps| + 1 && run[0] == Empty(run[0].max)
    && forall i, j :: 0 <= i && j == i + 1 < |run| ==> Next(run[i], steps[i], run[j])
  }

  lemma StepOfRun(run: seq<State>, steps: seq<Step>, i: nat)
    requires IsRun(run, steps) && i < |steps| && Inv(run[i])
    ensures Inv(run[i + 1]) <==> !Revives(run[i], steps[i])
  {
    var j := i + 1;
    NextKeepsInvIff(run[i], steps[i], run[j]);
  }

  lemma {:induction false} RunKeepsInv(run: seq<State>, steps: seq<Step>, n: nat)
    requires IsRun(run, steps) && n <= |steps| && forall i :: 0 <= i < n ==> !Revives(run[i], steps[i])
    ensures Inv(run[n])
  {
    if n == 0 {
      EmptyInv(run[0].max);
    } else {
      RunKeepsInv(run, steps, n - 1);
      StepOfRun(run, steps, n - 1);
    }
  }

  /** A run keeps the caps, the index and one receipt per session in all its states exactly
      when no step of it brings an ended session back. */
  lemma RunKeepsInvIff(run: seq<State>, steps: seq<Step>)
    requires IsRun(run, steps)
    ensures (forall i :: 0 <= i < |run| ==> Inv(run[i])) <==>
      (forall i :: 0 <= i < |steps| ==> !Revives(run[i], steps[i]))
  {
    if forall i :: 0 <= i < |steps| ==> !Revives(run[i], steps[i]) {
      forall i | 0 <= i < |run| ensures Inv(run[i]) {
        RunKeepsInv(run, steps, i);
      }
    } else {
      var i :| 0 <= i < |steps| && Revives(run[i], steps[i]);
      if Inv(run[i]) {
        StepOfRun(run, steps, i);
      }
    }
  }

  lemma EmptyInv(max: int)
    ensures Inv(Empty(max))
  {
    assert LiveSet(Empty(max)) == {};
    assert forall peer :: LiveOf(Empty(max), peer) == {};
  }

  // ----- The registry in place

  /** How many registered sessions are live, in all and of `peer`. */
  method CountLive(r: State, peer: string) returns (active: nat, peerActive: nat)
    requires Handles(r)
    ensures active == |LiveKeys(r)| && peerActive == |PeerKeys(r, peer)|
  {
    ghost var live, mine: set<string> := {}, {};
    var rest := r.sessions.Keys;
    active, peerActive := 0, 0;
    while rest != {}
      invariant rest <= r.sessions.Keys
      invariant forall k :: k in live <==> k in r.sessions && k !in rest && IsLive(r.table[r.sessions[k]])
      invariant forall k :: k in mine <==> k in live && r.table[r.sessions[k]].peer == peer
      invariant active == |live| && peerActive == |mine|
      decreases rest
    {
      var k :| k in rest;
      rest := rest - {k};
      var other := r.table[r.sessions[k]];
      if IsLive(other) {
        active, live := active + 1, live + {k};
        if other.peer == peer {
          peerActive, mine := peerActive + 1, mine + {k};
        }
      }
    }
    assert live == LiveKeys(r);
    assert mine == PeerKeys(r, peer);
  }

  lemma RegisterKeepsHandles(r: State, s: Session)
    requires Handles(r)
    ensures Handles(Registered(r, s))
  {
  }

  class SessionMgr {
    const max: int
    var table: seq<Session>
    var sessions: map<string, nat>
    var byConn: map<nat, seq<nat>>

    ghost function View(): State
      reads this
    {
      State(max, table, sessions, byConn)
    }

    constructor (max: int)
      ensures View() == Empty(max) && Inv(View())
    {
      this.max, table, sessions, byConn := max, [], map[], map[];
      new;
      EmptyInv(max);
    }

    /** Installs a gated session when the caps allow it. */
    method RegisterSession(s: Session) returns (ok: bool)
      requires Handles(View())
      modifies this
      ensures View() == Registered(old(View()), s) && ok == Admits(old(View()), s)
      ensures Handles(View())
    {
      var r := State(max, table, sessions, byConn);
      var active, peerActive := CountLive(r, s.peer);
      if active >= MaxSessions(r) || peerActive >= PeerCap(r) || s.key in sessions {
        return false;
      }
      RegisterKeepsHandles(r, s);
      var h := |table|;
      table := table + [s];
      sessions := sessions[s.key := h];
      byConn := byConn[s.conn := (if s.conn in byConn then byConn[s.conn] else []) + [h]];
      ok := true;
    }

    method FinishSession(h: nat, status: Status)
      requires Handles(View()) && h < |table|
      modifies this
      ensures View() == Finished(old(View()), h, status)
      ensures Handles(View()) && |table| == |old(table)|
    {
      var s := table[h];
      if !IsLive(s) {
        return;
      }
      table := table[h := s.(status := status, receipts := s.receipts + 1)];
      sessions := sessions - {s.key};
      if s.conn in byConn && |byConn[s.conn]| > 0 {
        var list, kept, i := byConn[s.conn], [], 0;
        while i < |list|
          invariant 0 <= i <= |list| && kept == Without(list[..i], h)
          invariant forall k :: 0 <= k < |kept| ==> kept[k] < |table|
        {
          assert list[..i + 1][..i] == list[..i];
          if list[i] != h {
            kept := kept + [list[i]];
          }
          i := i + 1;
        }
        assert list[..i] == list;
        if |kept| == 0 {
          byConn := byConn - {s.conn};
        } else {
          byConn := byConn[s.conn := kept];
        }
      }
    }

    method FinishEach(handles: seq<nat>, status: Status)
      requires Handles(View()) && forall i :: 0 <= i < |handles| ==> handles[i] < |table|
      modifies this
      ensures View() == AllFinished(old(View()), handles, status) && Handles(View())
    {
      var i := 0;
      while i < |handles|
        invariant 0 <= i <= |handles| && |table| == |old(table)| && Handles(View())
        invariant View() == AllFinished(old(View()), handles[..i], status)
      {
        FinishSession(handles[i], status);
        assert handles[..i + 1][..i] == handles[..i];
        i := i + 1;
      }
      assert handles[..i] == handles;
    }

    /** Ends every session of a dropped connection. */
    method FinalizeConn(conn: nat)
      requires Handles(View())
      modifies this
      ensures View() == Finalized(old(View()), conn) && Handles(View()) && |table| == |old(table)|
      ensures Inv(old(View())) ==> Inv(View()) && NoneLive(View(), conn)
    {
      FinalizeSafe(View(), conn);
      var list := if conn in byConn then byConn[conn] else [];
      byConn := byConn - {conn};
      FinishEach(list, Failed);
    }

    /** Ends the registered sessions that outlived `ttl`. */
    method ReapSessions(now: int, ttl: int) returns (ghost reaped: seq<nat>)
      requires Handles(View())
      modifies this
      ensures ReapList(old(View()), reaped, now, ttl)
      ensures forall i :: 0 <= i < |reaped| ==> reaped[i] < |old(table)|
      ensures View() == AllFinished(old(View()), reaped, Failed) && Handles(View())
    {
      var expired: seq<nat> := [];
      var rest := sessions.Keys;
      while rest != {}
        invariant rest <= sessions.Keys && View() == old(View())
        invariant forall i :: 0 <= i < |expired| ==> expired[i] < |table|
        invariant forall h :: h in expired <==>
          exists k :: k in sessions && k !in rest && sessions[k] == h && IsExpired(View(), h, now, ttl)
        decreases |rest|
      {
        var k :| k in rest;
        rest := rest - {k};
        var s := table[sessions[k]];
        if IsLive(s) && now - s.openedAt > ttl {
          expired := expired + [sessions[k]];
        }
      }
      reaped := expired;
      FinishEach(expired, Failed);
    }

    method Bind(h: nat)
      requires Handles(View()) && h < |table|
      modifies this
      ensures View() == Activated(old(View()), h) && Handles(View())
    {
      table := table[h := table[h].(status := Active)];
    }

    /** Ends a session a dropped connection still held. */
    method Drop(held: Option<nat>)
      requires Handles(View()) && Inv(View()) && (held.Some? ==> held.value < |table|)
      modifies this
      ensures Handles(View()) && Inv(View()) && |table| == |old(table)|
      ensures View() == if held.Some? then Finished(old(View()), held.value, Failed) else old(View())
    {
      if held.Some? {
        FinishKeepsInv(View(), {}, held.value, Failed);
        assert {} - {held.value} == {};
        FinishSession(held.value, Failed);
      }
    }
  }

  // ----- The agent of one connection

  datatype Agent = Agent(peer: string, conn: nat, pending: Option<nat>, active: Option<nat>)

  ghost predicate AgentOk(r: State, a: Agent) {
    (a.pending.Some? ==> a.pending.value < |r.table|) && (a.active.Some? ==> a.active.value < |r.table|)
  }

  /** A gated session is registered, and awaits its binding unless the connection already
      has one; then it stays behind in the registry. */
  function OpenedBy(r: State, a: Agent, id: string, now: int): (State, Agent)
    requires Handles(r)
  {
    var s := Session(Lower(id), a.peer, a.conn, Open, now, false, 0);
    (Registered(r, s),
     if Admits(r, s) && a.pending.None? && a.active.None? then a.(pending := Some(|r.table|)) else a)
  }

  /** `session/new`: `servers` when the buyer asks for its own servers, `spawned` when the
      agent could be started. */
  function NewSession(r: State, a: Agent, servers: bool, spawned: bool): (State, Agent)
    requires AgentOk(r, a)
  {
    if a.pending.None? then (r, a)
    else
      var h, a' := a.pending.value, a.(pending := None);
      if servers then (r, a')
      else if !spawned then (Finished(r, h, Failed), a')
      else (Activated(r, h), a'.(active := Some(h)))
  }

  function Closing(r: State, a: Agent, id: string): (State, Agent)
    requires AgentOk(r, a)
  {
    if a.active.None? then (r, a)
    else
      var s, a' := r.table[a.active.value], a.(active := None);
      if Lower(id) != s.key then (r, a')
      else (Finished(r, a.active.value, if s.promptDone then Closed else Failed), a')
  }

  class MarketAgent {
    const mgr: SessionMgr
    const peer: string
    const conn: nat
    var pending: Option<nat>
    var active: Option<nat>

    ghost function View(): Agent
      reads this
    {
      Agent(peer, conn, pending, active)
    }

    ghost predicate Valid()
      reads this, mgr
    {
      Handles(mgr.View()) && AgentOk(mgr.View(), View())
    }

    constructor (mgr: SessionMgr, peer: string, conn: nat)
      requires Handles(mgr.View())
      ensures Valid() && this.mgr == mgr && View() == Agent(peer, conn, None, None)
    {
      this.mgr, this.peer, this.conn := mgr, peer, conn;
      pending, active := None, None;
    }

    method OpenSession(id: string, now: int) returns (ok: bool)
      requires Valid()
      modifies this, mgr
      ensures Valid() && (mgr.View(), View()) == OpenedBy(old(mgr.View()), old(View()), id, now)
      ensures ok ==> pending.Some? && mgr.table[pending.value].key == Lower(id)
    {
      var h := |mgr.table|;
      ok := mgr.RegisterSession(Session(Lower(id), peer, conn, Open, now, false, 0));
      if ok {
        if pending.Some? || active.Some? {
          return false;
        }
        pending := Some(h);
      }
    }

    method BindSession(servers: bool, spawned: bool) returns (ok: bool)
      requires Valid()
      modifies this, mgr
      ensures Valid() && (mgr.View(), View()) == NewSession(old(mgr.View()), old(View()), servers, spawned)
      ensures ok == (old(pending).Some? && !servers && spawned)
    {
      var s := pending;
      pending := None;
      if s.None? || servers {
        return false;
      }
      if !spawned {
        mgr.FinishSession(s.value, Failed);
        return false;
      }
      mgr.Bind(s.value);
      active := s;
      ok := true;
    }

    method CloseSession(id: string) returns (ok: bool)
      requires Valid()
      modifies this, mgr
      ensures Valid() && (mgr.View(), View()) == Closing(old(mgr.View()), old(View()), id)
    {
      var s := active;
      active := None;
      if s.None? || Lower(id) != mgr.table[s.value].key {
        return false;
      }
      mgr.FinishSession(s.value, if mgr.table[s.value].promptDone then Closed else Failed);
      ok := true;
    }

    /** The transport dropped. */
    method ConnectionClosed()
      requires Valid() && Inv(mgr.View())
      modifies this, mgr
      ensures Valid() && Inv(mgr.View()) && pending.None? && active.None?
      ensures |mgr.table| == |old(mgr.table)|
      ensures NoneLive(mgr.View(), conn)
    {
      var s, p := active, pending;
      active, pending := None, None;
      mgr.Drop(s);
      mgr.Drop(p);
      mgr.FinalizeConn(conn);
    }
  }

  /** Binding the connection's pending session keeps the registry sound exactly when that
      session has not ended in the meantime. */
  lemma NewSessionKeepsInvIff(r: State, a: Agent, servers: bool, spawned: bool)
    requires Inv(r) && AgentOk(r, a)
    ensures Inv(NewSession(r, a, servers, spawned).0) <==>
      !(a.pending.Some? && !servers && spawned && !IsLive(r.table[a.pending.value]))
  {
    if a.pending.Some? {
      ActivateKeepsInvIff(r, a.pending.value);
      FinishKeepsInv(r, {}, a.pending.value, Failed);
      assert {} - {a.pending.value} == {};
    }
  }

  /** On a sound registry a session is admitted exactly when fewer sessions than the cap are
      live, fewer than a peer's share are that peer's, and none is live under its key. */
  lemma AdmitsIff(r: State, s: Session)
    requires Inv(r) && Handles(r)
    ensures Admits(r, s) <==>
      && |LiveSet(r)| < MaxSessions(r) && |LiveOf(r, s.peer)| < PeerCap(r)
      && forall h :: 0 <= h < |r.table| && IsLive(r.table[h]) ==> r.table[h].key != s.key
  {
    CountsAgree(r, s.peer);
    if s.key in r.sessions {
      assert IsLive(r.table[r.sessions[s.key]]);
    }
  }

  /** The reaper ends a live session exactly when it was opened longer ago than the limit. */
  lemma ReapedIff(r: State, handles: seq<nat>, now: int, ttl: int, h: nat)
    requires Inv(r) && ReapList(r, handles, now, ttl) && forall i :: 0 <= i < |handles| ==> handles[i] < |r.table|
    requires h < |r.table| && IsLive(r.table[h])
    ensures IsLive(AllFinished(r, handles, Failed).table[h]) <==> now <= r.table[h].openedAt + ttl
  {
    AllFinishedTable(r, handles, Failed, h);
    assert r.table[h].key in r.sessions && r.sessions[r.table[h].key] == h;
  }

  /** The active session ends as closed exactly when its prompt was answered, else as failed;
      with one more receipt. */
  lemma ClosingTells(r: State, a: Agent, prompted: bool)
    requires AgentOk(r, a) && a.active.Some?
    requires var s := r.table[a.active.value]; IsLive(s) && !s.promptDone && Lower(s.key) == s.key
    ensures var h := a.active.value;
      var (r', a') := Closing(if prompted then Prompted(r, h) else r, a, r.table[h].key);
      && r'.table[h].status == (if prompted then Closed else Failed) && r'.table[h].receipts == r.table[h].receipts + 1
      && a'.active.None? && r.table[h].key !in r'.sessions
  {
  }

  /** A connection that has a session keeps it: a second one is registered, if there is room,
      but not taken; and what is closed is only the session that is named. */
  lemma OneSessionEach(r: State, a: Agent, id: string, now: int)
    requires Handles(r) && AgentOk(r, a)
    ensures a.pending.Some? || a.active.Some? ==> OpenedBy(r, a, id, now).1 == a
    ensures var s := Session(Lower(id), a.peer, a.conn, Open, now, false, 0);
      a.pending.None? && a.active.None? ==>
        OpenedBy(r, a, id, now).1 == if Admits(r, s) then a.(pending := Some(|r.table|)) else a
    ensures a.active.Some? && r.table[a.active.value].key != Lower(id) ==>
      Closing(r, a, id) == (r, a.(active := None))
    ensures a.active.None? ==> Closing(r, a, id) == (r, a)
  {
  }

  // ----- A reaped session that comes back

  const ALICE := Agent("alice", 1, None, None)
  const BOB := Agent("bob", 2, None, None)

  /** alice's and bob's sessions on the escrow `e`. */
  const A := Session("e", "alice", 1, Open, 0, false, 0)
  const B := Session("e", "bob", 2, Open, 2000, false, 0)
  const OPENED := State(1, [A], map["e" := 0], map[1 := [0]])
  const REAPED := State(1, [A.(status := Failed, receipts := 1)], map[], map[])
  const SHARED := State(1, [A.(status := Failed, receipts := 1), B], map["e" := 1], map[2 := [1]])
  const REVIVED := State(1, [A.(status := Active, receipts := 1), B], map["e" := 1], map[2 := [1]])
  const ENDED := State(1, [A.(status := Failed, receipts := 2), B], map[], map[2 := [1]])

  lemma OpenedStep()
    ensures Handles(Empty(1)) && Registered(Empty(1), A) == OPENED && Next(Empty(1), Register(A), OPENED)
  {
    var r := Empty(1);
    assert LiveKeys(r) == {} && PeerKeys(r, "alice") == {};
    assert [A] == [] + [A] && [0] == [] + [0];
  }

  /** With room for one session, alice opens one. */
  lemma OpenedEscrow()
    ensures OpenedBy(Empty(1), ALICE, "e", 0) == (OPENED, ALICE.(pending := Some(0))) && Inv(OPENED)
  {
    assert Lower("e") == "e";
    EmptyInv(1);
    OpenedStep();
    RegisterKeepsInv(Empty(1), A);
  }

  /** She waits too long, and the reaper ends it. */
  lemma ReapedSession()
    ensures Handles(OPENED) && ReapList(OPENED, [0], 2000, 1800)
    ensures AllFinished(OPENED, [0], Failed) == REAPED && Next(OPENED, Reap([0], 2000, 1800), REAPED)
  {
    assert OPENED.sessions["e"] == 0 && IsExpired(OPENED, 0, 2000, 1800);
    assert [0][..0] == [];
    assert AllFinished(OPENED, [0][..0], Failed) == OPENED;
    assert Finished(OPENED, 0, Failed) == REAPED;
  }

  lemma ReapedIsSound()
    ensures Inv(REAPED)
  {
    OpenedEscrow();
    ReapedSession();
    ReapKeepsInv(OPENED, [0], 2000, 1800);
  }

  /** bob then opens the same escrow. */
  lemma ReopenedEscrow()
    ensures OpenedBy(REAPED, BOB, "e", 2000) == (SHARED, BOB.(pending := Some(1)))
    ensures Next(REAPED, Register(B), SHARED)
  {
    assert Lower("e") == "e";
    assert LiveKeys(REAPED) == {} && PeerKeys(REAPED, "bob") == {};
    assert [1] == [] + [1] && SHARED.table == REAPED.table + [B];
    assert Registered(REAPED, B) == SHARED;
  }

  lemma ReopenedIsSound()
    ensures Inv(SHARED)
  {
    ReapedIsSound();
    ReopenedEscrow();
    RegisterKeepsInv(REAPED, B);
  }

  /** alice binds her ended session after all: two live sessions where one is allowed. */
  lemma RevivedSession()
    ensures NewSession(SHARED, ALICE.(pending := Some(0)), false, true) == (REVIVED, ALICE.(active := Some(0)))
    ensures Next(SHARED, Activate(0), REVIVED) && MaxSessions(REVIVED) == 1 && LiveSet(REVIVED) == {0, 1}
  {
    assert SHARED.table[0 := REVIVED.table[0]] == REVIVED.table;
  }

  /** She closes it: a second receipt, and bob's live session is out of the registry. */
  lemma EndedTwice()
    ensures AgentOk(REVIVED, ALICE.(active := Some(0)))
    ensures Closing(REVIVED, ALICE.(active := Some(0)), "e").0 == ENDED && Next(REVIVED, Finish(0, Failed), ENDED)
    ensures ENDED.table[0].receipts == 2 && IsLive(ENDED.table[1]) && ENDED.sessions == map[]
  {
    assert Lower("e") == "e";
    assert REVIVED.table[0 := ENDED.table[0]] == ENDED.table;
  }

  /** Some run takes these steps and ends in `r`. */
  ghost predicate RunTo(r: State, steps: seq<Step>) {
    exists run :: IsRun(run, steps) && run[|steps|] == r
  }

  lemma RunOn(r: State, steps: seq<Step>, step: Step, r': State)
    requires RunTo(r, steps) && Next(r, step, r')
    ensures RunTo(r', steps + [step])
  {
    var run :| IsRun(run, steps) && run[|steps|] == r;
    RunGrows(run, steps, step, r');
  }

  lemma RunGrows(run: seq<State>, steps: seq<Step>, step: Step, r: State)
    requires IsRun(run, steps) && Next(run[|steps|], step, r)
    ensures IsRun(run + [r], steps + [step]) && (run + [r])[|steps + [step]|] == r
  {
    var longer, more := run + [r], steps + [step];
    forall i, j | 0 <= i && j == i + 1 < |longer| ensures Next(longer[i], more[i], longer[j]) {
      if j < |run| {
        assert longer[i] == run[i] && more[i] == steps[i] && longer[j] == run[j];
      }
    }
  }

  const REAP := Reap([0], 2000, 1800)
  const OPENING: seq<Step> := [Register(A)]
  const REAPING := OPENING + [REAP] + [Register(B)]
  const REVIVING := REAPING + [Activate(0)]

  lemma EmptyRun(none: seq<Step>)
    requires none == []
    ensures RunTo(Empty(1), none)
  {
    assert IsRun([Empty(1)], none);
  }

  lemma OpeningRun()
    ensures RunTo(OPENED, OPENING)
  {
    EmptyRun([]);
    OpenedStep();
    RunOn(Empty(1), [], Register(A), OPENED);
    assert [] + OPENING == OPENING;
  }

  lemma ReapingRun()
    ensures RunTo(SHARED, REAPING)
  {
    OpeningRun();
    ReapedSession();
    RunOn(OPENED, OPENING, REAP, REAPED);
    ReopenedEscrow();
    RunOn(REAPED, OPENING + [REAP], Register(B), SHARED);
  }

  /** The whole run from the empty registry, sound up to the revival, broken by it. */
  lemma RevivingRun()
    ensures RunTo(SHARED, REAPING) && Inv(SHARED)
    ensures RunTo(REVIVED, REVIVING) && !Inv(REVIVED)
    ensures RunTo(ENDED, REVIVING + [Finish(0, Failed)])
    ensures LiveSet(REVIVED) == {0, 1} && MaxSessions(REVIVED) == 1
    ensures ENDED.table[0].receipts == 2 && IsLive(ENDED.table[1]) && ENDED.sessions == map[]
  {
    ReapingRun();
    ReopenedIsSound();
    RevivedSession();
    RunOn(SHARED, REAPING, Activate(0), REVIVED);
    NextKeepsInvIff(SHARED, Activate(0), REVIVED);
    EndedTwice();
    RunOn(REVIVED, REVIVING, Finish(0, Failed), ENDED);
  }

  // ----- Keys of drawdown tasks

  function Short(nonce: string): string {
    if |nonce| > KEY_NONCE_LENGTH then Lower(nonce)[..KEY_NONCE_LENGTH] else Lower(nonce)
  }

  function DrawdownKey(escrow: string, nonce: string): string {
    if nonce == "" then escrow else escrow + "#" + Short(nonce)
  }

  /** Where the first '#' stands. */
  function FirstHash(s: string): nat {
    if s == "" || s[0] == '#' then 0 else 1 + FirstHash(s[1..])
  }

  lemma {:induction false} FirstHashAfter(e: string, rest: string)
    requires '#' !in e
    ensures FirstHash(e + "#" + rest) == |e|
  {
    if e != "" {
      assert (e + "#" + rest)[1..] == e[1..] + "#" + rest;
      FirstHashAfter(e[1..], rest);
    }
  }

  /** The first sixteen letters, without regard to case. */
  function Sixteen(nonce: string): string {
    if |Lower(nonce)| <= 16 then Lower(nonce) else Lower(nonce)[..16]
  }

  /** Two draws share a registry key exactly when they share the escrow and the first
      sixteen letters of their nonces, up to case. */
  lemma DrawdownKeysAgreeIff(e: string, n: string, f: string, m: string)
    requires '#' !in e && '#' !in f && n != "" && m != ""
    ensures DrawdownKey(e, n) == DrawdownKey(f, m) <==> e == f && Sixteen(n) == Sixteen(m)
    ensures DrawdownKey(e, "") == e
  {
    var x, y := DrawdownKey(e, n), DrawdownKey(f, m);
    FirstHashAfter(e, Short(n));
    FirstHashAfter(f, Short(m));
    assert x[..|e|] == e && y[..|f|] == f && x[|e| + 1..] == Short(n) && y[|f| + 1..] == Short(m);
  }
}
