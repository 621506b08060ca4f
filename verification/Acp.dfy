/** Tool permissions of the editor-facing server: session modes, cached always-decisions,
    permission prompts, and sessions saved and loaded again. */
module Acp {
  import opened SessionStore

  const ASK := "ask"
  const AUTO := "auto"
  const READ_ONLY := "read-only"

  datatype Policy = Prompt | Allow | Deny

  function ModeForPolicy(p: Policy): string {
    match p
    case Allow => AUTO
    case Deny => READ_ONLY
    case Prompt => ASK
  }

  function PolicyForMode(mode: string): Policy {
    if mode == AUTO then Allow else if mode == READ_ONLY then Deny else Prompt
  }

  predicate Offered(policy: Policy, mode: string) {
    if policy == Deny then mode == READ_ONLY else mode in {ASK, AUTO, READ_ONLY}
  }

  /** A session in memory; an empty `mode` inherits the server's policy. */
  datatype Session = Session(id: string, mode: string, allow: set<string>, deny: set<string>, closed: bool)

  function EffectivePolicy(s: Session, policy: Policy): Policy {
    PolicyForMode(if s.mode != "" then s.mode else ModeForPolicy(policy))
  }

  /** Sessions are shared by reference: a handle is a position in `table`; `live` is the
      server's session map. `hasStore` says whether sessions are persisted. */
  datatype Server = Server(
    policy: Policy, hasStore: bool, table: seq<Session>, live: map<string, nat>, store: Store)

  ghost predicate Handles(v: Server) {
    forall id :: id in v.live ==> v.live[id] < |v.table| && v.table[v.live[id]].id == id && !v.table[v.live[id]].closed
  }

  // ----- Server operations

  /** A fresh session, recorded in the store. */
  function Created(v: Server, r: Record): Server {
    v.(table := v.table + [Session(r.id, "", {}, {}, false)], live := v.live[r.id := |v.table|],
       store := if v.hasStore then Put(v.store, r) else v.store)
  }

  function CloseHandle(table: seq<Session>, h: nat): seq<Session>
    requires h < |table|
  {
    table[h := table[h].(closed := true)]
  }

  predicate CanLoad(v: Server, id: string) {
    v.hasStore && id in v.store.records
  }

  /** A persisted session comes back and displaces the one in memory. */
  function LoadedSession(v: Server, id: string): Server
    requires Handles(v) && CanLoad(v, id)
  {
    var r := v.store.records[id];
    var s := Session(id, if Offered(v.policy, r.mode) then r.mode else "", r.allow, r.deny, false);
    var table := if id in v.live then CloseHandle(v.table, v.live[id]) else v.table;
    v.(table := table + [s], live := v.live[id := |v.table|])
  }

  function StoreDecisions(st: Store, id: string, allow: set<string>, deny: set<string>): Store {
    if id in st.records then Update(st, id, st.records[id].(allow := allow, deny := deny)) else st
  }

  function StoreMode(st: Store, id: string, mode: string): Store {
    if id in st.records then Update(st, id, st.records[id].(mode := mode)) else st
  }

  predicate CanSwitch(v: Server, id: string, mode: string) {
    id in v.live && Offered(v.policy, mode)
  }

  /** The mode changes; cached decisions go, in memory and in the store. */
  function Switched(v: Server, id: string, mode: string): Server
    requires Handles(v) && CanSwitch(v, id, mode)
  {
    var h := v.live[id];
    v.(table := v.table[h := v.table[h].(mode := mode, allow := {}, deny := {})],
       store := if v.hasStore then StoreMode(StoreDecisions(v.store, id, {}, {}), id, mode) else v.store)
  }

  function ClosedSession(v: Server, id: string): Server
    requires Handles(v)
  {
    if id in v.live then v.(table := CloseHandle(v.table, v.live[id]), live := v.live - {id}) else v
  }

  /** An always-answer is cached on the session it was asked for, and persisted. */
  function Cached(v: Server, h: nat, tool: string, approved: bool): Server
    requires h < |v.table|
  {
    var s := v.table[h];
    var t := if approved then s.(allow := s.allow + {tool}) else s.(deny := s.deny + {tool});
    v.(table := v.table[h := t],
       store := if v.hasStore then StoreDecisions(v.store, s.id, t.allow, t.deny) else v.store)
  }

  /** How a tool call is judged: a chat that is no open session is none of the approver's
      business; `Unreachable` when there is no client to ask. */
  datatype Verdict = Abstain | ByPolicy(ok: bool) | FromCache(ok: bool) | Unreachable | AskClient(h: nat)

  function Judge(v: Server, id: string, tool: string, connected: bool): Verdict
    requires Handles(v)
  {
    if id !in v.live then Abstain
    else
      var s := v.table[v.live[id]];
      match EffectivePolicy(s, v.policy)
      case Allow => ByPolicy(true)
      case Deny => ByPolicy(false)
      case Prompt =>
        if tool in s.deny then FromCache(false)
        else if tool in s.allow then FromCache(true)
        else if !connected then Unreachable
        else AskClient(v.live[id])
  }

  predicate Approves(verdict: Verdict) {
    match verdict
    case Abstain => true
    case ByPolicy(ok) => ok
    case FromCache(ok) => ok
    case _ => false
  }

  class AcpServer {
    const policy: Policy
    const hasStore: bool
    var table: seq<Session>
    var live: map<string, nat>
    var store: Store

    ghost function View(): Server
      reads this
    {
      Server(policy, hasStore, table, live, store)
    }

    constructor (policy: Policy, hasStore: bool, store: Store)
      ensures View() == Server(policy, hasStore, [], map[], store) && Handles(View())
    {
      this.policy, this.hasStore, this.table, this.live, this.store := policy, hasStore, [], map[], store;
    }

    method NewSession(r: Record)
      requires Handles(View())
      modifies this
      ensures View() == Created(old(View()), r) && Handles(View())
    {
      var h := |table|;
      table := table + [Session(r.id, "", {}, {}, false)];
      live := live[r.id := h];
      if hasStore {
        store := Put(store, r);
      }
    }

    /** `pinned` is the agent this server is pinned to, empty for none. */
    method LoadSession(id: string, pinned: string) returns (ok: bool)
      requires Handles(View())
      modifies this
      ensures ok == (CanLoad(old(View()), id) && (pinned == "" || old(store).records[id].agent == pinned))
      ensures View() == (if ok then LoadedSession(old(View()), id) else old(View())) && Handles(View())
    {
      if !hasStore || id !in store.records {
        return false;
      }
      var r := store.records[id];
      if pinned != "" && r.agent != pinned {
        return false;
      }
      var h := |table|;
      var s := Session(id, if Offered(policy, r.mode) then r.mode else "", r.allow, r.deny, false);
      if id in live {
        table := CloseHandle(table, live[id]);
      }
      table := table + [s];
      live := live[id := h];
      ok := true;
    }

    method SetSessionMode(id: string, mode: string) returns (ok: bool)
      requires Handles(View())
      modifies this
      ensures ok == CanSwitch(old(View()), id, mode)
      ensures View() == (if ok then Switched(old(View()), id, mode) else old(View())) && Handles(View())
    {
      if id !in live || !Offered(policy, mode) {
        return false;
      }
      var h := live[id];
      table := table[h := table[h].(mode := mode, allow := {}, deny := {})];
      if hasStore {
        store := StoreDecisions(store, id, {}, {});
        store := StoreMode(store, id, mode);
      }
      ok := true;
    }

    method CloseSession(id: string)
      requires Handles(View())
      modifies this
      ensures View() == ClosedSession(old(View()), id) && Handles(View())
    {
      if id in live {
        table := CloseHandle(table, live[id]);
        live := live - {id};
      }
    }

    method CacheDecision(h: nat, tool: string, approved: bool)
      requires Handles(View()) && h < |table|
      modifies this
      ensures View() == Cached(old(View()), h, tool, approved) && Handles(View())
    {
      var s := table[h];
      if approved {
        s := s.(allow := s.allow + {tool});
      } else {
        s := s.(deny := s.deny + {tool});
      }
      table := table[h := s];
      if hasStore {
        store := StoreDecisions(store, s.id, s.allow, s.deny);
      }
    }
  }

  // ----- Runs

  /** What a client answers a prompt with; `Dismissed` is a cancelled, failed or unknown
      answer. */
  datatype Answer = AllowOnce | AllowAlways | RejectOnce | RejectAlways | Dismissed

  datatype Event =
    | Judged(id: string, tool: string, verdict: Verdict)
    | Answered(id: string, tool: string, answer: Answer)
    | ModeSet(id: string)

  /** `asked` holds the prompts that are still open. */
  datatype World = World(server: Server, asked: multiset<(nat, string)>, log: seq<Event>)

  datatype Step =
    | New(r: Record)
    | Load(id: string)
    | SetMode(id: string, mode: string)
    | Close(id: string)
    | Ask(id: string, tool: string, connected: bool)
    | Reply(h: nat, tool: string, answer: Answer)
    | Restart(policy: Policy)

  function Log(w: World, v: Server, e: Event): World {
    World(v, w.asked, w.log + [e])
  }

  function Replied(w: World, h: nat, tool: string, answer: Answer): World
    requires h < |w.server.table|
  {
    var v := match answer
      case AllowAlways => Cached(w.server, h, tool, true)
      case RejectAlways => Cached(w.server, h, tool, false)
      case _ => w.server;
    World(v, w.asked - multiset{(h, tool)}, w.log + [Answered(w.server.table[h].id, tool, answer)])
  }

  ghost predicate Next(w: World, step: Step, w': World) {
    var v := w.server;
    Handles(v) &&
    match step
    case New(r) =>
      && r.id !in v.live && r.id !in v.store.records && r.mode == "" && r.allow == {} && r.deny == {} && IsComplete(r)
      && w' == w.(server := Created(v, r))
    case Load(id) => CanLoad(v, id) && w' == w.(server := LoadedSession(v, id))
    case SetMode(id, mode) => CanSwitch(v, id, mode) && w' == Log(w, Switched(v, id, mode), ModeSet(id))
    case Close(id) => w' == w.(server := ClosedSession(v, id))
    case Ask(id, tool, connected) =>
      var verdict := Judge(v, id, tool, connected);
      w' == Log(w, v, Judged(id, tool, verdict))
        .(asked := if verdict.AskClient? then w.asked + multiset{(verdict.h, tool)} else w.asked)
    case Reply(h, tool, answer) => (h, tool) in w.asked && h < |v.table| && w' == Replied(w, h, tool, answer)
    case Restart(policy) =>
      w' == World(Server(policy, v.hasStore, [], map[], Loaded(Saved(v.store))), multiset{}, w.log)
  }

  ghost predicate Steps(w: World, w': World) {
    exists step :: Next(w, step, w')
  }

  /** A run of servers over one store. */
  ghost predicate IsRun(run: seq<World>) {
    && run != [] && Started(run[0])
    && forall i, j :: 0 <= i && j == i + 1 < |run| ==> Steps(run[i], run[j])
  }

  /** A server that has just been started, on any valid store. */
  ghost predicate Started(w: World) {
    w.server.table == [] && w.server.live == map[] && w.asked == multiset{} && w.log == [] && Valid(w.server.store)
  }

  // ----- A server that denies

  /** While the policy is deny, every session ever created is read-only and no prompt is
      open. */
  ghost predicate DenyOk(w: World) {
    && Handles(w.server)
    && (w.server.policy == Deny ==>
          && w.asked == multiset{}
          && AllReadOnly(w.server.table))
  }

  lemma NextKeepsHandles(w: World, step: Step, w': World)
    requires Next(w, step, w')
    ensures Handles(w'.server)
  {
    match step {
      case Load(id) => LoadKeepsHandles(w.server, id);
      case SetMode(id, mode) => SwitchKeepsHandles(w.server, id, mode);
      case Reply(h, tool, answer) => ReplyKeepsHandles(w, h, tool, answer);
      case _ =>
    }
  }

  lemma LoadKeepsHandles(v: Server, id: string)
    requires Handles(v) && CanLoad(v, id)
    ensures Handles(LoadedSession(v, id))
  {
  }

  lemma SwitchKeepsHandles(v: Server, id: string, mode: string)
    requires Handles(v) && CanSwitch(v, id, mode)
    ensures Handles(Switched(v, id, mode))
  {
  }

  lemma ReplyKeepsHandles(w: World, h: nat, tool: string, answer: Answer)
    requires Handles(w.server) && h < |w.server.table|
    ensures Handles(Replied(w, h, tool, answer).server)
  {
  }

  ghost predicate AllReadOnly(table: seq<Session>) {
    forall h :: 0 <= h < |table| ==> EffectivePolicy(table[h], Deny) == Deny
  }

  lemma NextKeepsDenyOk(w: World, step: Step, w': World)
    requires DenyOk(w) && Next(w, step, w')
    ensures DenyOk(w')
  {
    NextKeepsHandles(w, step, w');
    if w.server.policy == Deny && !step.Restart? {
      NextKeepsReadOnly(w, step, w');
    }
  }

  lemma NextKeepsReadOnly(w: World, step: Step, w': World)
    requires Next(w, step, w') && !step.Restart? && w.server.policy == Deny
    requires w.asked == multiset{} && AllReadOnly(w.server.table)
    ensures w'.asked == multiset{} && AllReadOnly(w'.server.table)
  {
  }

  lemma {:induction false} RunKeepsDenyOk(run: seq<World>, i: nat)
    requires IsRun(run) && i < |run|
    ensures DenyOk(run[i])
  {
    if i > 0 {
      RunKeepsDenyOk(run, i - 1);
      assert Steps(run[i - 1], run[i]);
      var step :| Next(run[i - 1], step, run[i]);
      NextKeepsDenyOk(run[i - 1], step, run[i]);
    }
  }

  /** On a deny policy no tool call of an open session is approved, whatever the store held
      at the start and whatever policies ran before; nor is any client asked. */
  lemma DenyIsFinal(run: seq<World>, i: nat, id: string, tool: string, connected: bool)
    requires IsRun(run) && i < |run| && run[i].server.policy == Deny && id in run[i].server.live
    ensures Handles(run[i].server)
    ensures Judge(run[i].server, id, tool, connected) == ByPolicy(false)
    ensures run[i].asked == multiset{}
  {
    RunKeepsDenyOk(run, i);
  }

  // ----- What the modes promise

  /** In auto mode, and without a mode where the server allows, every call is approved. */
  lemma AutoApproves(run: seq<World>, i: nat, id: string, tool: string, connected: bool)
    requires IsRun(run) && i < |run| && id in run[i].server.live
    ensures Handles(run[i].server)
    ensures var v := run[i].server;
      var s := v.table[v.live[id]];
      s.mode == AUTO || (s.mode == "" && v.policy == Allow) ==> Approves(Judge(v, id, tool, connected))
  {
    RunKeepsDenyOk(run, i);
  }

  /** In read-only mode, and without a mode where the server denies, none is. */
  lemma ReadOnlyRefuses(run: seq<World>, i: nat, id: string, tool: string, connected: bool)
    requires IsRun(run) && i < |run| && id in run[i].server.live
    ensures Handles(run[i].server)
    ensures var v := run[i].server;
      var s := v.table[v.live[id]];
      s.mode == READ_ONLY || (s.mode == "" && v.policy == Deny) ==> !Approves(Judge(v, id, tool, connected))
  {
    RunKeepsDenyOk(run, i);
  }

  /** Otherwise a call without a cached answer is put to the client, once, and refused when
      there is no client. */
  lemma AskModeAsks(run: seq<World>, i: nat, id: string, tool: string, connected: bool, w': World)
    requires IsRun(run) && i < |run| && id in run[i].server.live && Next(run[i], Ask(id, tool, connected), w')
    requires var v := run[i].server;
      && v.live[id] < |v.table|
      && var s := v.table[v.live[id]];
      && (s.mode == ASK || (s.mode == "" && v.policy == Prompt)) && tool !in s.allow && tool !in s.deny
    ensures !Approves(Judge(run[i].server, id, tool, connected)) && w'.server == run[i].server
    ensures w'.asked == run[i].asked + if connected then multiset{(run[i].server.live[id], tool)} else multiset{}
  {
  }

  // ----- Approvals without a prompt

  /** `tool` was always-allowed for `id` and the mode has not been set since. */
  predicate Granted(log: seq<Event>, id: string, tool: string) {
    log != [] &&
    var n := |log| - 1;
    log[n] == Answered(id, tool, AllowAlways) || (log[n] != ModeSet(id) && Granted(log[..n], id, tool))
  }

  lemma GrantedAppend(log: seq<Event>, e: Event, id: string, tool: string)
    ensures Granted(log + [e], id, tool) <==>
      e == Answered(id, tool, AllowAlways) || (e != ModeSet(id) && Granted(log, id, tool))
  {
    assert (log + [e])[..|log|] == log;
  }

  /** Every approval in `allow` was granted. */
  ghost predicate AllGranted(log: seq<Event>, id: string, allow: set<string>) {
    forall tool :: tool in allow ==> Granted(log, id, tool)
  }

  ghost predicate LiveGranted(v: Server, log: seq<Event>, id: string) {
    id in v.live ==> v.live[id] < |v.table| && AllGranted(log, id, v.table[v.live[id]].allow)
  }

  ghost predicate StoreGranted(v: Server, log: seq<Event>, id: string) {
    v.hasStore && id in v.store.records ==> AllGranted(log, id, v.store.records[id].allow)
  }

  /** Whatever could still be read from a cache was granted since the last mode switch, in
      memory and in the store. */
  ghost predicate GrantsOk(w: World) {
    && Handles(w.server) && Valid(w.server.store)
    && (forall id :: LiveGranted(w.server, w.log, id))
    && (forall id :: StoreGranted(w.server, w.log, id))
  }

  /** The step answers a prompt of a session that still caches approvals from before the
      last mode switch, and its whole cache goes into the store. */
  ghost predicate WritesStale(w: World, step: Step) {
    && step.Reply? && (step.h, step.tool) in w.asked && step.h < |w.server.table|
    && step.answer in {AllowAlways, RejectAlways}
    && var s := w.server.table[step.h];
    && w.server.hasStore && s.id in w.server.store.records
    && exists tool ::
         tool in s.allow && !Granted(w.log, s.id, tool) && (step.answer == AllowAlways ==> tool != step.tool)
  }

  lemma CreatedKeepsGrants(w: World, r: Record, w': World)
    requires GrantsOk(w) && Next(w, New(r), w')
    ensures GrantsOk(w')
  {
    var v, v' := w.server, w'.server;
    NextKeepsHandles(w, New(r), w');
    PutKeepsValid(v.store, r);
    forall id ensures LiveGranted(v', w.log, id) {
      assert LiveGranted(v, w.log, id);
    }
    forall id ensures StoreGranted(v', w.log, id) {
      PutAllow(v.store, r, id);
      assert StoreGranted(v, w.log, id);
    }
  }

  /** Putting a fresh record leaves the others as they are, or evicts them. */
  lemma PutAllow(st: Store, r: Record, id: string)
    requires IsComplete(r) && r.id !in st.records
    ensures id in Put(st, r).records ==>
      Put(st, r).records[id] == (if id == r.id then r else if id in st.records then st.records[id] else r)
    ensures id in Put(st, r).records ==> id == r.id || id in st.records
  {
    EvictedIs(Store(st.records[r.id := r], st.order + [r.id]));
  }

  lemma LoadKeepsGrants(w: World, id: string, w': World)
    requires GrantsOk(w) && Next(w, Load(id), w')
    ensures GrantsOk(w')
  {
    NextKeepsHandles(w, Load(id), w');
    forall x ensures LiveGranted(w'.server, w.log, x) {
      assert LiveGranted(w.server, w.log, x) && StoreGranted(w.server, w.log, x);
    }
    forall x ensures StoreGranted(w'.server, w.log, x) {
      assert StoreGranted(w.server, w.log, x);
    }
  }

  lemma CloseKeepsGrants(w: World, id: string, w': World)
    requires GrantsOk(w) && Next(w, Close(id), w')
    ensures GrantsOk(w')
  {
    NextKeepsHandles(w, Close(id), w');
    forall x ensures LiveGranted(w'.server, w.log, x) && StoreGranted(w'.server, w.log, x) {
      assert LiveGranted(w.server, w.log, x) && StoreGranted(w.server, w.log, x);
    }
  }

  lemma SwitchKeepsGrants(w: World, id: string, mode: string, w': World)
    requires GrantsOk(w) && Next(w, SetMode(id, mode), w')
    ensures GrantsOk(w')
  {
    NextKeepsHandles(w, SetMode(id, mode), w');
    forall x ensures LiveGranted(w'.server, w'.log, x) && StoreGranted(w'.server, w'.log, x) {
      assert LiveGranted(w.server, w.log, x) && StoreGranted(w.server, w.log, x);
      LogKeepsGrants(w.server, w.log, ModeSet(id), x);
    }
  }

  /** An event other than a mode switch of `id` takes no grant of `id` away. */
  lemma LogKeepsGrants(v: Server, log: seq<Event>, e: Event, id: string)
    ensures LiveGranted(v, log, id) && e != ModeSet(id) ==> LiveGranted(v, log + [e], id)
    ensures StoreGranted(v, log, id) && e != ModeSet(id) ==> StoreGranted(v, log + [e], id)
  {
    if e != ModeSet(id) {
      forall tool ensures Granted(log, id, tool) ==> Granted(log + [e], id, tool) {
        GrantedAppend(log, e, id, tool);
      }
    }
  }

  lemma AskKeepsGrants(w: World, id: string, tool: string, connected: bool, w': World)
    requires GrantsOk(w) && Next(w, Ask(id, tool, connected), w')
    ensures GrantsOk(w')
  {
    var e := Judged(id, tool, Judge(w.server, id, tool, connected));
    forall x ensures LiveGranted(w'.server, w'.log, x) && StoreGranted(w'.server, w'.log, x) {
      assert LiveGranted(w.server, w.log, x) && StoreGranted(w.server, w.log, x);
      LogKeepsGrants(w.server, w.log, e, x);
    }
  }

  lemma RestartKeepsGrants(w: World, policy: Policy, w': World)
    requires GrantsOk(w) && Next(w, Restart(policy), w')
    ensures GrantsOk(w')
  {
    ReopenKeepsRecords(w.server.store);
    forall x ensures LiveGranted(w'.server, w'.log, x) && StoreGranted(w'.server, w'.log, x) {
      assert StoreGranted(w.server, w.log, x);
    }
  }

  /** The approvals the session holds after the answer. */
  function AllowAfter(s: Session, tool: string, answer: Answer): set<string> {
    if answer == AllowAlways then s.allow + {tool} else s.allow
  }

  /** After the answer, all approvals of the session were granted exactly when no older one
      is stale. */
  lemma AllowAfterGranted(log: seq<Event>, s: Session, tool: string, answer: Answer)
    ensures AllGranted(log + [Answered(s.id, tool, answer)], s.id, AllowAfter(s, tool, answer)) <==>
      !exists t :: t in s.allow && !Granted(log, s.id, t) && (answer == AllowAlways ==> t != tool)
  {
    var e := Answered(s.id, tool, answer);
    forall t
      ensures Granted(log + [e], s.id, t) <==> (answer == AllowAlways && t == tool) || Granted(log, s.id, t)
    {
      GrantedAppend(log, e, s.id, t);
    }
    forall t | t in s.allow && !Granted(log, s.id, t) && (answer == AllowAlways ==> t != tool)
      ensures t in AllowAfter(s, tool, answer) && !Granted(log + [e], s.id, t)
    {
    }
  }

  lemma ReplyKeepsLive(w: World, h: nat, tool: string, answer: Answer, w': World, x: string)
    requires GrantsOk(w) && Next(w, Reply(h, tool, answer), w')
    ensures LiveGranted(w'.server, w'.log, x)
  {
    var s, e := w.server.table[h], Answered(w.server.table[h].id, tool, answer);
    assert LiveGranted(w.server, w.log, x);
    LogKeepsGrants(w.server, w.log, e, x);
    if x in w.server.live && w.server.live[x] == h {
      AllowAfterGranted(w.log, s, tool, answer);
    }
  }

  lemma ReplyStore(w: World, h: nat, tool: string, answer: Answer, w': World, x: string)
    requires GrantsOk(w) && Next(w, Reply(h, tool, answer), w')
    ensures StoreGranted(w'.server, w'.log, x) <==>
      !(WritesStale(w, Reply(h, tool, answer)) && x == w.server.table[h].id)
  {
    var s, e := w.server.table[h], Answered(w.server.table[h].id, tool, answer);
    assert StoreGranted(w.server, w.log, x);
    LogKeepsGrants(w.server, w.log, e, x);
    AllowAfterGranted(w.log, s, tool, answer);
  }

  lemma ReplyKeepsGrantsIff(w: World, h: nat, tool: string, answer: Answer, w': World)
    requires GrantsOk(w) && Next(w, Reply(h, tool, answer), w')
    ensures GrantsOk(w') <==> !WritesStale(w, Reply(h, tool, answer))
  {
    NextKeepsHandles(w, Reply(h, tool, answer), w');
    forall x ensures LiveGranted(w'.server, w'.log, x) {
      ReplyKeepsLive(w, h, tool, answer, w', x);
    }
    forall x
      ensures StoreGranted(w'.server, w'.log, x) <==>
        !(WritesStale(w, Reply(h, tool, answer)) && x == w.server.table[h].id)
    {
      ReplyStore(w, h, tool, answer, w', x);
    }
    assert StoreGranted(w'.server, w'.log, w.server.table[h].id) <==> !WritesStale(w, Reply(h, tool, answer));
  }

  /** A step keeps all cached approvals backed by an answer since the last mode switch,
      exactly when it does not write a stale cache into the store. */
  lemma NextKeepsGrantsIff(w: World, step: Step, w': World)
    requires GrantsOk(w) && Next(w, step, w')
    ensures GrantsOk(w') <==> !WritesStale(w, step)
  {
    match step {
      case New(r) => CreatedKeepsGrants(w, r, w');
      case Load(id) => LoadKeepsGrants(w, id, w');
      case SetMode(id, mode) => SwitchKeepsGrants(w, id, mode, w');
      case Close(id) => CloseKeepsGrants(w, id, w');
      case Ask(id, tool, connected) => AskKeepsGrants(w, id, tool, connected, w');
      case Reply(h, tool, answer) => ReplyKeepsGrantsIff(w, h, tool, answer, w');
      case Restart(policy) => RestartKeepsGrants(w, policy, w');
    }
  }

  /** A run of servers over one store, which starts empty, with the steps it takes. */
  ghost predicate IsRunOf(run: seq<World>, steps: seq<Step>) {
    && |run| == |steps| + 1 && Started(run[0]) && run[0].server.store.records == map[]
    && forall i, j :: 0 <= i && j == i + 1 < |run| ==> Next(run[i], steps[i], run[j])
  }

  lemma StepOfRun(run: seq<World>, steps: seq<Step>, i: nat)
    requires IsRunOf(run, steps) && i < |steps| && GrantsOk(run[i])
    ensures GrantsOk(run[i + 1]) <==> !WritesStale(run[i], steps[i])
  {
    var j := i + 1;
    NextKeepsGrantsIff(run[i], steps[i], run[j]);
  }

  lemma {:induction false} RunKeepsGrants(run: seq<World>, steps: seq<Step>, n: nat)
    requires IsRunOf(run, steps) && n <= |steps| && forall i :: 0 <= i < n ==> !WritesStale(run[i], steps[i])
    ensures GrantsOk(run[n])
  {
    if n > 0 {
      RunKeepsGrants(run, steps, n - 1);
      StepOfRun(run, steps, n - 1);
    }
  }

  /** A run keeps all cached and stored approvals backed by answers in all its states
      exactly when none of its steps writes a stale cache. */
  lemma RunKeepsGrantsIff(run: seq<World>, steps: seq<Step>)
    requires IsRunOf(run, steps)
    ensures (forall i :: 0 <= i < |run| ==> GrantsOk(run[i])) <==>
      (forall i :: 0 <= i < |steps| ==> !WritesStale(run[i], steps[i]))
  {
    if forall i :: 0 <= i < |steps| ==> !WritesStale(run[i], steps[i]) {
      forall i | 0 <= i < |run| ensures GrantsOk(run[i]) {
        RunKeepsGrants(run, steps, i);
      }
    } else {
      var i :| 0 <= i < |steps| && WritesStale(run[i], steps[i]);
      if GrantsOk(run[i]) {
        StepOfRun(run, steps, i);
      }
    }
  }

  // ----- Prompts of closed sessions

  /** An always-answer reaches a session that has been closed since it was asked. */
  predicate AnswersClosed(v: Server, step: Step) {
    && step.Reply? && step.answer in {AllowAlways, RejectAlways}
    && step.h < |v.table| && v.table[step.h].closed
  }

  /** A session that is not closed is the live one under its id. */
  ghost predicate OpenIsLive(v: Server) {
    forall h :: 0 <= h < |v.table| && !v.table[h].closed ==> v.table[h].id in v.live && v.live[v.table[h].id] == h
  }

  lemma NextKeepsOpenIsLive(w: World, step: Step, w': World)
    requires OpenIsLive(w.server) && Next(w, step, w')
    ensures OpenIsLive(w'.server)
  {
  }

  lemma {:induction false} RunKeepsOpenIsLive(run: seq<World>, steps: seq<Step>, i: nat)
    requires IsRunOf(run, steps) && i < |run|
    ensures OpenIsLive(run[i].server)
  {
    if i > 0 {
      RunKeepsOpenIsLive(run, steps, i - 1);
      NextKeepsOpenIsLive(run[i - 1], steps[i - 1], run[i]);
    }
  }

  /** Only the answer to a prompt of a closed session can write a stale cache. */
  lemma StaleAnswersClosed(w: World, step: Step)
    requires GrantsOk(w) && OpenIsLive(w.server) && WritesStale(w, step)
    ensures AnswersClosed(w.server, step)
  {
    assert LiveGranted(w.server, w.log, w.server.table[step.h].id);
  }

  lemma {:induction false} OpenAnswersKeepGrants(run: seq<World>, steps: seq<Step>, n: nat)
    requires IsRunOf(run, steps) && n <= |steps| && forall i :: 0 <= i < n ==> !AnswersClosed(run[i].server, steps[i])
    ensures GrantsOk(run[n])
  {
    if n > 0 {
      OpenAnswersKeepGrants(run, steps, n - 1);
      RunKeepsOpenIsLive(run, steps, n - 1);
      if WritesStale(run[n - 1], steps[n - 1]) {
        StaleAnswersClosed(run[n - 1], steps[n - 1]);
      }
      StepOfRun(run, steps, n - 1);
    }
  }

  /** Where the client would be prompted, a tool call that is approved without asking has
      an always-allow answer for that tool and session since the last mode switch, also
      after the session was saved, loaded and the server restarted, as long as no closed
      session was given an always-answer. */
  lemma SilentApprovalWasGranted(run: seq<World>, steps: seq<Step>, i: nat, id: string, tool: string, connected: bool)
    requires IsRunOf(run, steps) && i < |run| && id in run[i].server.live && Handles(run[i].server)
    requires forall k :: 0 <= k < i ==> !AnswersClosed(run[k].server, steps[k])
    requires var v := run[i].server; EffectivePolicy(v.table[v.live[id]], v.policy) == Prompt
    requires Approves(Judge(run[i].server, id, tool, connected))
    ensures Granted(run[i].log, id, tool)
  {
    OpenAnswersKeepGrants(run, steps, i);
    assert LiveGranted(run[i].server, run[i].log, id);
  }

  /** Just after a mode switch nothing is granted, so an old prompt of the same id may be
      given an always-answer exactly when its session is not closed or holds no approval
      other than the one given now. */
  lemma AnswerAfterSwitchIff(w: World, id: string, mode: string, w1: World,
                             h: nat, tool: string, answer: Answer, w2: World)
    requires GrantsOk(w) && OpenIsLive(w.server) && w.server.hasStore && id in w.server.store.records
    requires answer in {AllowAlways, RejectAlways}
    requires Next(w, SetMode(id, mode), w1) && Next(w1, Reply(h, tool, answer), w2)
    requires h < |w.server.table| && w.server.table[h].id == id
    ensures GrantsOk(w2) <==>
      !w.server.table[h].closed || w.server.table[h].allow <= if answer == AllowAlways then {tool} else {}
  {
    var step := Reply(h, tool, answer);
    NextKeepsGrantsIff(w, SetMode(id, mode), w1);
    NextKeepsGrantsIff(w1, step, w2);
    forall t ensures !Granted(w1.log, id, t) {
      GrantedAppend(w.log, ModeSet(id), id, t);
    }
    var s, t := w.server.table[h], w1.server.table[h];
    if !s.closed {
      assert t.allow == {};
    } else {
      assert t == s;
      if x :| x in s.allow && (answer == AllowAlways ==> x != tool) {
        assert x in t.allow && !Granted(w1.log, id, x);
        assert WritesStale(w1, step);
      }
    }
  }

  // ----- Rejections

  /** The step neither replaces nor resets the session in memory under `id`. */
  predicate LeavesSession(step: Step, id: string) {
    match step
    case New(r) => r.id != id
    case Load(x) => x != id
    case SetMode(x, _) => x != id
    case Close(x) => x != id
    case Restart(_) => false
    case _ => true
  }

  ghost predicate Rejects(v: Server, id: string, tool: string) {
    id in v.live && v.live[id] < |v.table| && tool in v.table[v.live[id]].deny
  }

  lemma NextKeepsRejection(w: World, step: Step, w': World, id: string, tool: string)
    requires Next(w, step, w') && LeavesSession(step, id) && Rejects(w.server, id, tool)
    ensures Rejects(w'.server, id, tool) && w'.server.live[id] == w.server.live[id]
  {
    var h := w.server.live[id];
    match step {
      case Load(x) => assert w'.server.live[id] == h && w'.server.table[h] == w.server.table[h];
      case SetMode(x, mode) => assert w'.server.live[id] == h && w'.server.table[h] == w.server.table[h];
      case Close(x) => assert w'.server.live[id] == h && w'.server.table[h] == w.server.table[h];
      case Reply(g, t, answer) => ReplyKeepsRejection(w, g, t, answer, h);
      case _ =>
    }
  }

  lemma ReplyKeepsRejection(w: World, g: nat, tool: string, answer: Answer, h: nat)
    requires g < |w.server.table| && h < |w.server.table|
    ensures var v := Replied(w, g, tool, answer).server;
      v.live == w.server.live && |v.table| == |w.server.table| && w.server.table[h].deny <= v.table[h].deny
  {
  }

  /** A run, from any point on, whose steps leave the session under `id` in place. */
  ghost predicate LeavesSessionAlone(run: seq<World>, steps: seq<Step>, id: string) {
    && |run| == |steps| + 1
    && forall k, n :: 0 <= k && n == k + 1 < |run| ==> Next(run[k], steps[k], run[n]) && LeavesSession(steps[k], id)
  }

  lemma {:induction false} RejectionStays(run: seq<World>, steps: seq<Step>, id: string, tool: string, i: nat)
    requires LeavesSessionAlone(run, steps, id) && i < |run| && Rejects(run[0].server, id, tool)
    ensures Rejects(run[i].server, id, tool)
  {
    if i > 0 {
      RejectionStays(run, steps, id, tool, i - 1);
      NextKeepsRejection(run[i - 1], steps[i - 1], run[i], id, tool);
    }
  }

  /** Once the client has always-rejected a tool, the session never asks about it again and
      approves no later call of it, unless its mode approves everything, until it is reset,
      loaded again or closed; an always-allow answer does not override it. */
  lemma RejectionIsFinal(run: seq<World>, steps: seq<Step>, id: string, tool: string, i: nat, connected: bool)
    requires LeavesSessionAlone(run, steps, id) && i < |run| && Rejects(run[0].server, id, tool)
    requires Handles(run[i].server)
    ensures var v := run[i].server;
      && id in v.live
      && Judge(v, id, tool, connected) in {ByPolicy(true), ByPolicy(false), FromCache(false)}
      && (Approves(Judge(v, id, tool, connected)) ==> EffectivePolicy(v.table[v.live[id]], v.policy) == Allow)
  {
    RejectionStays(run, steps, id, tool, i);
  }

  // ----- Allowances

  ghost predicate Allows(v: Server, id: string, tool: string) {
    && id in v.live && v.live[id] < |v.table|
    && tool in v.table[v.live[id]].allow && tool !in v.table[v.live[id]].deny
  }

  /** The step does not always-reject `tool` for the session under `id`. */
  predicate Rejecting(v: Server, step: Step, id: string, tool: string) {
    step.Reply? && step.answer == RejectAlways && step.tool == tool && id in v.live && step.h == v.live[id]
  }

  lemma ReplyKeepsAllowance(w: World, g: nat, t: string, answer: Answer, id: string, tool: string)
    requires g < |w.server.table| && Allows(w.server, id, tool) && !Rejecting(w.server, Reply(g, t, answer), id, tool)
    ensures var v := Replied(w, g, t, answer).server; v.live == w.server.live && Allows(v, id, tool)
  {
  }

  lemma NextKeepsAllowance(w: World, step: Step, w': World, id: string, tool: string)
    requires Next(w, step, w') && LeavesSession(step, id) && Allows(w.server, id, tool)
    requires !Rejecting(w.server, step, id, tool)
    ensures Allows(w'.server, id, tool)
  {
    var h := w.server.live[id];
    match step {
      case Load(x) => assert w'.server.live[id] == h && w'.server.table[h] == w.server.table[h];
      case SetMode(x, mode) => assert w'.server.live[id] == h && w'.server.table[h] == w.server.table[h];
      case Close(x) => assert w'.server.live[id] == h && w'.server.table[h] == w.server.table[h];
      case Reply(g, t, answer) => ReplyKeepsAllowance(w, g, t, answer, id, tool);
      case _ =>
    }
  }

  lemma {:induction false} AllowanceStays(run: seq<World>, steps: seq<Step>, id: string, tool: string, i: nat)
    requires LeavesSessionAlone(run, steps, id) && i < |run| && Allows(run[0].server, id, tool)
    requires forall k :: 0 <= k < i ==> !Rejecting(run[k].server, steps[k], id, tool)
    ensures Allows(run[i].server, id, tool)
  {
    if i > 0 {
      AllowanceStays(run, steps, id, tool, i - 1);
      NextKeepsAllowance(run[i - 1], steps[i - 1], run[i], id, tool);
    }
  }

  /** Once the client has always-allowed a tool, every later call of it is approved unasked
      wherever the client would be prompted, until the session is reset, loaded again or
      closed, or the tool is always-rejected. */
  lemma AllowanceIsFinal(w: World, h: nat, run: seq<World>, steps: seq<Step>, id: string, tool: string, i: nat,
                         connected: bool)
    requires id in w.server.live && w.server.live[id] == h && h < |w.server.table| && tool !in w.server.table[h].deny
    requires LeavesSessionAlone(run, steps, id) && i < |run| && Next(w, Reply(h, tool, AllowAlways), run[0])
    requires (forall k :: 0 <= k < i ==> !Rejecting(run[k].server, steps[k], id, tool)) && Handles(run[i].server)
    ensures var v := run[i].server;
      && id in v.live
      && (EffectivePolicy(v.table[v.live[id]], v.policy) == Prompt ==>
            Approves(Judge(v, id, tool, connected)) && !Judge(v, id, tool, connected).AskClient?)
  {
    assert Allows(run[0].server, id, tool);
    AllowanceStays(run, steps, id, tool, i);
  }

  /** An always-answer given to the live session outlives the server: after a restart and a
      load, the tool is approved, respectively refused, without asking, wherever the client
      would be prompted. */
  lemma AnswersOutliveServer(w: World, h: nat, tool: string, answer: Answer, w1: World, policy: Policy, w2: World,
                             id: string, w3: World, connected: bool)
    requires w.server.hasStore && Valid(w.server.store) && id in w.server.store.records
    requires id in w.server.live && w.server.live[id] == h && h < |w.server.table| && w.server.table[h].id == id
    requires answer in {AllowAlways, RejectAlways} && (answer == AllowAlways ==> tool !in w.server.table[h].deny)
    requires Next(w, Reply(h, tool, answer), w1) && Next(w1, Restart(policy), w2) && Next(w2, Load(id), w3)
    ensures Handles(w3.server) && id in w3.server.live
    ensures var v := w3.server;
      EffectivePolicy(v.table[v.live[id]], v.policy) == Prompt ==>
        Judge(v, id, tool, connected) == FromCache(answer == AllowAlways)
  {
    NextKeepsHandles(w2, Load(id), w3);
    ReplyIsStored(w, h, tool, answer);
    ReopenKeepsRecords(w1.server.store);
  }

  lemma ReplyIsStored(w: World, h: nat, tool: string, answer: Answer)
    requires w.server.hasStore && Valid(w.server.store) && h < |w.server.table|
    requires w.server.table[h].id in w.server.store.records && answer in {AllowAlways, RejectAlways}
    ensures var st, s := Replied(w, h, tool, answer).server.store, w.server.table[h];
      && Valid(st) && s.id in st.records
      && st.records[s.id].allow == (if answer == AllowAlways then s.allow + {tool} else s.allow)
      && st.records[s.id].deny == (if answer == RejectAlways then s.deny + {tool} else s.deny)
  {
  }

  /** So does a mode, unless the new policy does not offer it; the decisions cleared by the
      switch stay cleared. */
  lemma ModeOutlivesServer(w: World, id: string, mode: string, w1: World, policy: Policy, w2: World, w3: World)
    requires w.server.hasStore && Valid(w.server.store) && id in w.server.store.records
    requires Next(w, SetMode(id, mode), w1) && Next(w1, Restart(policy), w2) && Next(w2, Load(id), w3)
    ensures Handles(w3.server) && id in w3.server.live
    ensures var s := w3.server.table[w3.server.live[id]];
      s == Session(id, if Offered(policy, mode) then mode else "", {}, {}, false)
  {
    NextKeepsHandles(w2, Load(id), w3);
    assert Valid(w1.server.store);
    ReopenKeepsRecords(w1.server.store);
  }

  /** A switched session behaves by its new mode at once, whatever it had cached. */
  lemma SwitchTakesEffect(w: World, id: string, mode: string, w': World, tool: string, connected: bool)
    requires Next(w, SetMode(id, mode), w')
    ensures Handles(w'.server) && id in w'.server.live && Offered(w.server.policy, mode)
    ensures var verdict := Judge(w'.server, id, tool, connected);
      && (Approves(verdict) <==> mode == AUTO)
      && (verdict.AskClient? <==> mode == ASK && connected)
  {
    NextKeepsHandles(w, SetMode(id, mode), w');
  }

  /** A closed session is out of the approver's hands: calls of its chat are none of its
      business, and no prompt is put for it. */
  lemma CloseEnds(w: World, id: string, w': World, tool: string, connected: bool)
    requires Next(w, Close(id), w')
    ensures Handles(w'.server) && id !in w'.server.live
    ensures Approves(Judge(w'.server, id, tool, connected)) && !Judge(w'.server, id, tool, connected).AskClient?
    ensures id in w.server.live ==> w'.server.table[w.server.live[id]].closed
    ensures forall x :: x in w.server.live && x != id ==> x in w'.server.live && w'.server.live[x] == w.server.live[x]
  {
    NextKeepsHandles(w, Close(id), w');
  }

  /** A new session comes back from the store without a mode and without decisions. */
  lemma FreshOutlivesServer(w: World, r: Record, w1: World, policy: Policy, w2: World, w3: World)
    requires w.server.hasStore && Valid(w.server.store)
    requires Next(w, New(r), w1) && Next(w1, Restart(policy), w2) && Next(w2, Load(r.id), w3)
    ensures Handles(w3.server) && r.id in w3.server.live
    ensures var s := w3.server.table[w3.server.live[r.id]];
      s.allow == {} && s.deny == {} && s.mode == ""
  {
    NextKeepsHandles(w2, Load(r.id), w3);
    PutKeepsValid(w.server.store, r);
    PutAllow(w.server.store, r, r.id);
    ReopenKeepsRecords(w1.server.store);
  }

  /** Without a store nothing is ever recorded. */
  lemma NothingIsRecorded(w: World, step: Step, w': World)
    requires !w.server.hasStore && Valid(w.server.store) && Next(w, step, w')
    ensures !w'.server.hasStore && w'.server.store.records == w.server.store.records
  {
    if step.Restart? {
      ReopenKeepsRecords(w.server.store);
    }
  }

  // ----- A stale answer

  /** A session `s` with one record; the worlds below hold its handles and what its record
      says. */
  function RecordOf(mode: string, allow: set<string>, deny: set<string>): Record {
    Record("s", "main", "agent:main:acp:s", 0, mode, allow, deny)
  }

  function WorldOf(table: seq<Session>, r: Record, asked: multiset<(nat, string)>, log: seq<Event>): World
    requires table != []
  {
    World(Server(Prompt, true, table, map["s" := |table| - 1], Store(map["s" := r], ["s"])), asked, log)
  }

  const NEW := Session("s", "", {}, {}, false)
  const GRANT := [Judged("s", "sh", AskClient(0)), Answered("s", "sh", AllowAlways)]
  const TWO_ASKS := GRANT + [Judged("s", "x", AskClient(0))]
  const CALLED_OFF := TWO_ASKS + [ModeSet("s")]

  /** The client always-allows `sh`, and a prompt about `x` stays open. */
  const BEFORE := WorldOf([NEW.(allow := {"sh"})], RecordOf("", {"sh"}, {}), multiset{(0, "x")}, TWO_ASKS)
  /** The client loads the session again and sets its mode. */
  const RELOADED := WorldOf(
    [NEW.(allow := {"sh"}, closed := true), NEW.(allow := {"sh"})],
    RecordOf("", {"sh"}, {}), multiset{(0, "x")}, TWO_ASKS)
  const SWITCHED := WorldOf(
    [NEW.(allow := {"sh"}, closed := true), NEW.(mode := ASK)], RecordOf(ASK, {}, {}), multiset{(0, "x")}, CALLED_OFF)
  /** The client answers the old prompt, and loads the session once more. */
  const AFTER := WorldOf(
    [NEW.(allow := {"sh"}, deny := {"x"}, closed := true), NEW.(mode := ASK)], RecordOf(ASK, {"sh"}, {"x"}), multiset{},
    CALLED_OFF + [Answered("s", "x", RejectAlways)])

  const BLANK := World(Server(Prompt, true, [], map[], Store(map[], [])), multiset{}, [])
  const FRESH := WorldOf([NEW], RecordOf("", {}, {}), multiset{}, [])
  const ASKED := WorldOf([NEW], RecordOf("", {}, {}), multiset{(0, "sh")}, [GRANT[0]])
  const ALLOWED := WorldOf([NEW.(allow := {"sh"})], RecordOf("", {"sh"}, {}), multiset{}, GRANT)

  const AGAIN := WorldOf(
    [NEW.(allow := {"sh"}, deny := {"x"}, closed := true), NEW.(mode := ASK, closed := true),
     NEW.(mode := ASK, allow := {"sh"}, deny := {"x"})],
    RecordOf(ASK, {"sh"}, {"x"}), multiset{}, CALLED_OFF + [Answered("s", "x", RejectAlways)])

  const STALE_STEPS := [
    New(RecordOf("", {}, {})), Ask("s", "sh", true), Reply(0, "sh", AllowAlways), Ask("s", "x", true),
    Load("s"), SetMode("s", ASK), Reply(0, "x", RejectAlways), Load("s")]

  /** Some run takes these steps and ends in `w`. */
  ghost predicate RunTo(w: World, steps: seq<Step>) {
    exists run :: IsRunOf(run, steps) && run[|steps|] == w
  }

  lemma RunOn(w: World, steps: seq<Step>, step: Step, w': World)
    requires RunTo(w, steps) && Next(w, step, w')
    ensures RunTo(w', steps + [step])
  {
    var run :| IsRunOf(run, steps) && run[|steps|] == w;
    RunGrows(run, steps, step, w');
  }

  lemma RunGrows(run: seq<World>, steps: seq<Step>, step: Step, w: World)
    requires IsRunOf(run, steps) && Next(run[|steps|], step, w)
    ensures IsRunOf(run + [w], steps + [step]) && (run + [w])[|steps + [step]|] == w
  {
    var longer, more := run + [w], steps + [step];
    forall i, j | 0 <= i && j == i + 1 < |longer| ensures Next(longer[i], more[i], longer[j]) {
      if j < |run| {
        assert longer[i] == run[i] && more[i] == steps[i] && longer[j] == run[j];
      }
    }
  }

  /** How the session gets there from a fresh start. */
  lemma StaleStart()
    ensures RunTo(FRESH, STALE_STEPS[..1])
  {
    assert [] + [NEW] == [NEW] && [] + ["s"] == ["s"];
    assert Next(BLANK, STALE_STEPS[0], FRESH);
    var none: seq<Step> := [];
    assert IsRunOf([BLANK], none) && [BLANK][|none|] == BLANK;
    RunOn(BLANK, none, STALE_STEPS[0], FRESH);
    assert none + [STALE_STEPS[0]] == STALE_STEPS[..1];
  }

  lemma StaleAsks()
    ensures Next(FRESH, STALE_STEPS[1], ASKED)
  {
    assert [] + [GRANT[0]] == [GRANT[0]];
  }

  lemma StaleAnswers()
    ensures Next(ASKED, STALE_STEPS[2], ALLOWED)
  {
    assert [GRANT[0]] + [GRANT[1]] == GRANT && {} + {"sh"} == {"sh"};
  }

  lemma StaleAsksAgain()
    ensures Next(ALLOWED, STALE_STEPS[3], BEFORE)
  {
  }

  lemma StaleLoads()
    ensures Next(BEFORE, STALE_STEPS[4], RELOADED)
  {
  }

  lemma StaleSwitches()
    ensures Next(RELOADED, STALE_STEPS[5], SWITCHED)
  {
  }

  /** The answer to the old prompt puts back the approval that the switch had cleared. */
  lemma StaleSwitch()
    ensures Next(SWITCHED, STALE_STEPS[6], AFTER) && AnswersClosed(SWITCHED.server, STALE_STEPS[6])
    ensures "sh" !in SWITCHED.server.store.records["s"].allow && "sh" in AFTER.server.store.records["s"].allow
  {
    assert {} + {"x"} == {"x"};
  }

  lemma StaleLoadsAgain()
    ensures Next(AFTER, STALE_STEPS[7], AGAIN)
  {
  }

  /** One more step of the failing run. */
  lemma StaleOn(w: World, n: nat, w': World)
    requires n < |STALE_STEPS| && RunTo(w, STALE_STEPS[..n]) && Next(w, STALE_STEPS[n], w')
    ensures RunTo(w', STALE_STEPS[..n + 1])
  {
    RunOn(w, STALE_STEPS[..n], STALE_STEPS[n], w');
    assert STALE_STEPS[..n + 1] == STALE_STEPS[..n] + [STALE_STEPS[n]];
  }

  lemma StalePrompt()
    ensures RunTo(ALLOWED, STALE_STEPS[..3])
  {
    StaleStart();
    StaleAsks();
    StaleOn(FRESH, 1, ASKED);
    StaleAnswers();
    StaleOn(ASKED, 2, ALLOWED);
  }

  lemma StaleReload()
    ensures RunTo(RELOADED, STALE_STEPS[..5])
  {
    StalePrompt();
    StaleAsksAgain();
    StaleOn(ALLOWED, 3, BEFORE);
    StaleLoads();
    StaleOn(BEFORE, 4, RELOADED);
  }

  lemma StaleAnswer()
    ensures RunTo(AFTER, STALE_STEPS[..7])
  {
    StaleReload();
    StaleSwitches();
    StaleOn(RELOADED, 5, SWITCHED);
    StaleSwitch();
    StaleOn(SWITCHED, 6, AFTER);
  }

  lemma StaleRun()
    ensures RunTo(AGAIN, STALE_STEPS)
  {
    StaleAnswer();
    StaleLoadsAgain();
    StaleOn(AFTER, 7, AGAIN);
    assert STALE_STEPS[..8] == STALE_STEPS;
  }

  /** A whole run after which `sh` is approved without asking, although no answer since the
      mode switch allows it: the client always-allows `sh`, is asked about `x`, loads the
      session again, sets its mode, answers the old prompt, and loads once more. */
  lemma StaleApproval()
    ensures RunTo(AGAIN, STALE_STEPS)
    ensures var v := AGAIN.server;
      && Handles(v) && "s" in v.live && EffectivePolicy(v.table[v.live["s"]], v.policy) == Prompt
      && Judge(v, "s", "sh", true) == FromCache(true)
    ensures !Granted(AGAIN.log, "s", "sh")
  {
    StaleRun();
    GrantedAppend(TWO_ASKS, ModeSet("s"), "s", "sh");
    GrantedAppend(CALLED_OFF, Answered("s", "x", RejectAlways), "s", "sh");
  }
}
