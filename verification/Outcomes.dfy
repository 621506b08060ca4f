/** What becomes of a purchase: out of whose session it is paid, when it is completed, what a
    refusal leaves behind, and what its state tells. */
module Outcomes {
  import opened Text
  import opened Ledger
  import opened Purchases
  import opened Operator
  import opened Payouts
  import Handshake

  // ----- What the steps of others leave alone

  /** At most the state and the number of release calls differ. */
  predicate SameWork(p: Purchase, p': Purchase) {
    p' == p.(state := p'.state, attempts := p'.attempts)
  }

  lemma HandSameWork(w: World, n: nat, a: Answer, q: string)
    requires n in w.hands && w.hands[n].purchase in w.purchases && q in w.purchases
    ensures q in HandStep(w, n, a).purchases && SameWork(w.purchases[q], HandStep(w, n, a).purchases[q])
  {
  }

  /** Only its own orchestration and a restart move a purchase on in its work. */
  lemma OthersLeave(w: World, step: Step, w': World, id: string)
    requires Next(w, step, w') && id in w.purchases && PurchaseOk(w.purchases[id])
    requires w.purchases[id].pc !in {NotStarted, Acquiring} && !step.Restart? && !(step.Orchestrate? && step.id == id)
    ensures id in w'.purchases && SameWork(w.purchases[id], w'.purchases[id])
  {
    if step.Orchestrate? {
      AdvanceLeaves(w, step.id, step.a, id);
    } else if step.ByHand? {
      HandSameWork(w, step.n, step.a, id);
    } else {
      VerbRecord(w, step, w', id);
      VerbSameWork(w.purchases[id], w'.purchases[id]);
    }
  }

  lemma VerbSameWork(p: Purchase, p': Purchase)
    requires PurchaseOk(p) && VerbMoves(p, p') && p.pc !in {NotStarted, Acquiring} && p'.pc == p.pc
    ensures SameWork(p, p')
  {
  }

  // ----- Draws come only by acquiring

  lemma OwnStepBooks(w: World, step: Step, w': World, id: string, s: string, n: int)
    requires Base(w) && Next(w, step, w') && (step.Orchestrate? || step.ByHand?) && Booked(w'.ledger, s, id, n)
    ensures Booked(w.ledger, s, id, n)
  {
    if step.Orchestrate? {
      AdvanceBooks(w, step.id, step.a, id, s, n);
    } else {
      HandFrame(w, step.n, step.a);
      HandReach(w, step.n, step.a);
    }
  }

  lemma AdvanceBooks(w: World, id: string, a: Answer, q: string, s: string, n: int)
    requires Base(w) && id in w.purchases && a.tx != "" && Booked(Advance(w, id, a).ledger, s, q, n)
    ensures Booked(w.ledger, s, q, n)
  {
    if q == id {
      LedgerAfterMoves(w.ledger, id, w.purchases[id], a);
    } else {
      AdvanceFrame(w, id, a);
    }
  }

  lemma VerbStepBooks(w: World, step: Step, w': World, id: string, s: string, n: int)
    requires Base(w) && Next(w, step, w') && !step.Orchestrate? && !step.ByHand? && !step.AcquireSession?
    requires Booked(w'.ledger, s, id, n)
    ensures Booked(w.ledger, s, id, n)
  {
    match step {
      case Dispute(q, ok, now) => ObservedFrame(w, q, WasDisputed, now);
      case Refund(q, ok, now) => ObservedFrame(w, q, WasWithdrawn, now);
      case Observe(q, e, now) => ObservedFrame(w, q, e, now);
      case Restart => RestartMoves(w, w');
      case Sweep(session, ok, now) => SweepIsStill(w, session, ok, now);
      case _ =>
    }
  }

  /** A draw of `id` that is in the book was there before, unless `id` just acquired it. */
  lemma StepBooks(w: World, step: Step, w': World, id: string, s: string, n: int)
    requires Base(w) && Next(w, step, w') && !(step.AcquireSession? && step.id == id) && Booked(w'.ledger, s, id, n)
    ensures Booked(w.ledger, s, id, n)
  {
    if step.Orchestrate? || step.ByHand? {
      OwnStepBooks(w, step, w', id, s, n);
    } else if step.AcquireSession? {
      AcquireFrame(w, step.id, step.q, step.g, w');
    } else {
      VerbStepBooks(w, step, w', id, s, n);
    }
  }

  // ----- Whose session

  /** The session was made for the seller of the deal, in its token up to case. */
  predicate IsFor(s: Session, deal: Handshake.Purchase) {
    s.sellerPeer == deal.sellerPeer && Lower(s.token) == Lower(deal.token)
  }

  ghost predicate HasDraw(w: World, id: string)
    requires id in w.purchases
  {
    exists n :: Booked(w.ledger, w.purchases[id].home, id, n)
  }

  /** The purchase has a draw in its session, is paid out of it or may be. */
  ghost predicate UsesHome(w: World, id: string)
    requires id in w.purchases
  {
    var p := w.purchases[id];
    p.drawdown && (InFlight(p) || p.state == AwaitRelease || p.attempts > 0 || HasHand(w, id) || HasDraw(w, id))
  }

  ghost predicate HomeOk(w: World, id: string) {
    id in w.purchases && UsesHome(w, id) ==>
      w.purchases[id].home in w.ledger.disk && IsFor(w.ledger.disk[w.purchases[id].home], w.purchases[id].deal)
  }

  /** A purchase that has just come in does not use a session. */
  lemma NewUsesNone(w: World, step: Step, w': World, id: string)
    requires Base(w) && Next(w, step, w') && id in w'.purchases && id !in w.purchases
    ensures !UsesHome(w', id)
  {
    NewIsUncounted(w, step, w', id);
    BeginIs(w, step, w');
    if HasHand(w', id) {
      HandsStay(w, step, w', id);
    }
  }

  /** Its home, its deal and what it needs a session for: all as before. */
  lemma RecordUses(w: World, step: Step, w': World, id: string)
    requires Base(w) && Next(w, step, w') && id in w.purchases && !(step.AcquireSession? && step.id == id)
    ensures id in w'.purchases
    ensures var p, p' := w.purchases[id], w'.purchases[id];
      && p'.home == p.home && p'.deal == p.deal && p'.drawdown == p.drawdown
      && (p.drawdown && (InFlight(p') || p'.state == AwaitRelease) ==> InFlight(p) || p.state == AwaitRelease)
  {
    var p := w.purchases[id];
    assert PurchaseOk(p);
    if step.Orchestrate? {
      AdvanceUses(w, step.id, step.a, id);
    } else if step.ByHand? {
      HandSameWork(w, step.n, step.a, id);
      HandUses(w, step.n, step.a, id);
    } else {
      VerbRecord(w, step, w', id);
      VerbUses(p, w'.purchases[id]);
    }
  }

  lemma VerbUses(p: Purchase, p': Purchase)
    requires PurchaseOk(p) && VerbMoves(p, p') && (p'.home == p.home)
    requires p.pc == Acquiring ==> p'.pc in {Acquiring, Finished}
    ensures p'.deal == p.deal && p'.drawdown == p.drawdown
    ensures p.drawdown && (InFlight(p') || p'.state == AwaitRelease) ==> InFlight(p) || p.state == AwaitRelease
  {
  }

  lemma HandUses(w: World, n: nat, a: Answer, q: string)
    requires n in w.hands && w.hands[n].purchase in w.purchases && q in w.purchases
    ensures q in HandStep(w, n, a).purchases
    ensures HandStep(w, n, a).purchases[q].state in {w.purchases[q].state, Completed, Disputable}
  {
  }

  lemma AdvanceUses(w: World, id: string, a: Answer, q: string)
    requires id in w.purchases && q in w.purchases && PurchaseOk(w.purchases[id])
    ensures q in Advance(w, id, a).purchases
    ensures var p, p' := w.purchases[q], Advance(w, id, a).purchases[q];
      && p'.home == p.home && p'.deal == p.deal && p'.drawdown == p.drawdown
      && (p.drawdown && (InFlight(p') || p'.state == AwaitRelease) ==> InFlight(p) || p.state == AwaitRelease)
  {
    var p := w.purchases[id];
    NextRecordMoves(w.functions, p, a, p.home in w.ledger.mem);
    NextRecordHolds(w.functions, p, a, p.home in w.ledger.mem);
    NextRecordDeal(w.functions, p, a, p.home in w.ledger.mem);
  }

  lemma NextRecordDeal(f: Handshake.Functions, p: Purchase, a: Answer, known: bool)
    ensures NextRecord(f, p, a, known).deal == p.deal
  {
  }

  lemma UseArises(w: World, step: Step, w': World, id: string)
    requires Base(w) && Next(w, step, w') && id in w'.purchases && UsesHome(w', id)
    requires !(step.AcquireSession? && step.id == id)
    ensures id in w.purchases && UsesHome(w, id)
    ensures w'.purchases[id].home == w.purchases[id].home && w'.purchases[id].deal == w.purchases[id].deal
  {
    if id !in w.purchases {
      NewUsesNone(w, step, w', id);
    } else {
      RecordUses(w, step, w', id);
      StepCounts(w, step, w', id, Calls);
      if HasHand(w', id) {
        HandsStay(w, step, w', id);
      }
      if Happens(w, step, id, Calls) && step.ByHand? {
        assert HasHand(w, id);
      }
      if n :| Booked(w'.ledger, w'.purchases[id].home, id, n) {
        StepBooks(w, step, w', id, w'.purchases[id].home, n);
      }
    }
  }

  lemma AcquireIsForSeller(w: World, id: string, q: Request, g: Grant, w': World)
    requires Base(w) && AcquireStep(w, id, q, g, w')
    ensures HomeOk(w', id)
  {
    AcquireFits(w.ledger, q, w'.ledger, g);
    if g.Refused? {
      RefusedUsesNone(w, id, q, w');
    }
  }

  lemma RefusedUsesNone(w: World, id: string, q: Request, w': World)
    requires Base(w) && AcquireStep(w, id, q, Refused, w')
    ensures !UsesHome(w', id)
  {
    GrantedOk(w.purchases[id], Refused);
  }

  lemma NextKeepsHome(w: World, step: Step, w': World, id: string)
    requires Base(w) && Next(w, step, w') && HomeOk(w, id)
    ensures HomeOk(w', id)
  {
    if step.AcquireSession? && step.id == id {
      AcquireIsForSeller(w, id, step.q, step.g, w');
    } else if id in w'.purchases && UsesHome(w', id) {
      UseArises(w, step, w', id);
      NextMovesLedger(w, step, w');
      assert SessionMoves(w.ledger.disk[w.purchases[id].home], w'.ledger.disk[w.purchases[id].home]);
    }
  }

  lemma {:induction false} RunKeepsHome(run: seq<World>, steps: seq<Step>, i: nat, id: string)
    requires IsRun(run, steps) && i < |run|
    ensures HomeOk(run[i], id)
  {
    if i > 0 {
      RunKeepsHome(run, steps, i - 1, id);
      NextOfRun(run, steps, i - 1);
      NextKeepsHome(run[i - 1], steps[i - 1], run[i], id);
    }
  }

  /** A step of a run. */
  lemma NextOfRun(run: seq<World>, steps: seq<Step>, i: nat)
    requires IsRun(run, steps) && i < |steps|
    ensures Base(run[i]) && Base(run[i + 1]) && Next(run[i], steps[i], run[i + 1])
  {
    var j := i + 1;
    assert Next(run[i], steps[i], run[j]);
    RunKeepsBase(run, steps, i);
    RunKeepsBase(run, steps, j);
  }

  /** In every run, hazards included, a draw is booked only in a session that was made for the
      seller of its purchase, in the token of its deal. */
  lemma DrawIsForSeller(run: seq<World>, steps: seq<Step>, i: nat, s: string, id: string, n: int)
    requires IsRun(run, steps) && i < |run| && Booked(run[i].ledger, s, id, n)
    ensures id in run[i].purchases && IsFor(run[i].ledger.disk[s], run[i].purchases[id].deal)
  {
    RunKeepsBase(run, steps, i);
    assert HasDraw(run[i], id);
    RunKeepsHome(run, steps, i, id);
  }

  /** And every payment goes out of such a session, to the seller of the purchase. */
  lemma PaymentIsForSeller(run: seq<World>, steps: seq<Step>, i: nat, k: nat)
    requires IsRun(run, steps) && i < |run| && k < |run[i].payments|
    ensures var y := run[i].payments[k];
      && y.purchase in run[i].purchases && y.session in run[i].ledger.disk
      && IsFor(run[i].ledger.disk[y.session], run[i].purchases[y.purchase].deal)
      && y.amount == run[i].purchases[y.purchase].amount
  {
    RunKeepsBase(run, steps, i);
    assert PaymentOk(run[i], run[i].payments[k]);
    RunKeepsHome(run, steps, i, run[i].payments[k].purchase);
  }

  // ----- Completion

  /** Who moves a purchase to completed has been paid for it and recorded that. */
  lemma CompletesOnly(w: World, step: Step, w': World, id: string)
    requires Next(w, step, w') && (step.Orchestrate? || step.ByHand?) && id in w.purchases && id in w'.purchases
    requires w.purchases[id].state != Completed && w'.purchases[id].state == Completed
    ensures GoesOn(w, id)
  {
    if step.Orchestrate? {
      AdvanceCompletes(w, step.id, step.a, id);
    } else {
      HandCompletes(w, step.n, step.a, id);
    }
  }

  lemma AdvanceCompletes(w: World, id: string, a: Answer, q: string)
    requires id in w.purchases && q in w.purchases && q in Advance(w, id, a).purchases
    requires w.purchases[q].state != Completed && Advance(w, id, a).purchases[q].state == Completed
    ensures q == id && w.purchases[id].pc == Completing
  {
  }

  lemma HandCompletes(w: World, n: nat, a: Answer, q: string)
    requires n in w.hands && w.hands[n].purchase in w.purchases && q in w.purchases && q in HandStep(w, n, a).purchases
    requires w.purchases[q].state != Completed && HandStep(w, n, a).purchases[q].state == Completed
    ensures w.hands[n] == Hand(q, HandCompleting)
  {
  }

  /** Only release calls make an orchestration or a manual release go on. */
  ghost predicate GoesOnCalled(w: World, id: string) {
    id in w.purchases && GoesOn(w, id) ==> w.purchases[id].attempts > 0
  }

  lemma AdvanceGoesOnCalled(w: World, id: string, a: Answer, q: string)
    requires id in w.purchases && GoesOnCalled(w, q)
    ensures GoesOnCalled(Advance(w, id, a), q)
  {
    assert Advance(w, id, a).hands == w.hands;
  }

  lemma HandGoesOnCalled(w: World, n: nat, a: Answer, q: string)
    requires n in w.hands && w.hands[n].purchase in w.purchases && GoesOnCalled(w, q)
    ensures GoesOnCalled(HandStep(w, n, a), q)
  {
    var w' := HandStep(w, n, a);
    if q in w.purchases && GoesOn(w', q) && !GoesOn(w, q) {
      var m :| m in w'.hands && w'.hands[m].purchase == q && w'.hands[m].pc in {HandRecording, HandCompleting};
      assert m == n;
    }
  }

  lemma VerbWentOn(w: World, step: Step, w': World, q: string)
    requires Base(w) && Next(w, step, w') && !step.Orchestrate? && !step.ByHand? && q in w'.purchases && GoesOn(w', q)
    ensures q in w.purchases && GoesOn(w, q)
  {
    VerbGoesOn(w, step, w', q);
    VerbHands(w, step, w', q);
  }

  lemma VerbAttempts(w: World, step: Step, w': World, q: string)
    requires Next(w, step, w') && !step.Orchestrate? && !step.ByHand? && q in w.purchases && q in w'.purchases
    ensures w'.purchases[q].attempts == w.purchases[q].attempts
  {
    VerbRecord(w, step, w', q);
  }

  lemma VerbGoesOnCalled(w: World, step: Step, w': World, q: string)
    requires Base(w) && Next(w, step, w') && GoesOnCalled(w, q) && !step.Orchestrate? && !step.ByHand?
    ensures GoesOnCalled(w', q)
  {
    if q in w'.purchases && GoesOn(w', q) {
      VerbWentOn(w, step, w', q);
      VerbAttempts(w, step, w', q);
    }
  }

  lemma NextGoesOnCalled(w: World, step: Step, w': World, q: string)
    requires Base(w) && Next(w, step, w') && GoesOnCalled(w, q)
    ensures GoesOnCalled(w', q)
  {
    if step.Orchestrate? {
      AdvanceGoesOnCalled(w, step.id, step.a, q);
    } else if step.ByHand? {
      HandGoesOnCalled(w, step.n, step.a, q);
    } else {
      VerbGoesOnCalled(w, step, w', q);
    }
  }

  lemma {:induction false} RunGoesOnCalled(run: seq<World>, steps: seq<Step>, i: nat, id: string)
    requires IsRun(run, steps) && i < |run|
    ensures GoesOnCalled(run[i], id)
  {
    if i > 0 {
      RunGoesOnCalled(run, steps, i - 1, id);
      RunKeepsBase(run, steps, i - 1);
      NextGoesOnCalled(run[i - 1], steps[i - 1], run[i], id);
    }
  }

  /** In every run, an orchestration or a manual release takes a purchase to completed only
      after a release call, and a drawdown purchase only after the rail has paid for it, from
      its session and in its amount. */
  lemma CompletedWasPaid(run: seq<World>, steps: seq<Step>, i: nat, id: string)
    requires IsRun(run, steps) && i < |steps| && (steps[i].Orchestrate? || steps[i].ByHand?)
    requires id in run[i].purchases && id in run[i + 1].purchases
    requires run[i].purchases[id].state != Completed && run[i + 1].purchases[id].state == Completed
    ensures var p := run[i].purchases[id];
      p.attempts > 0 && (p.drawdown ==> Payment(id, p.session, p.amount) in run[i].payments)
  {
    var j := i + 1;
    CompletesOnly(run[i], steps[i], run[j], id);
    RunGoesOnCalled(run, steps, i, id);
    if run[i].purchases[id].drawdown {
      CompletionWasPaid(run, steps, i, id);
    }
  }

  // ----- Recorded draws were paid

  /** No draw of `q` carries a tx. */
  ghost predicate NoTx(st: State, q: string) {
    forall s, k ::
      s in st.disk && 0 <= k < |st.disk[s].draws| && st.disk[s].draws[k].purchase == q ==> st.disk[s].draws[k].tx == ""
  }

  ghost predicate NoTxIn(draws: seq<Draw>, q: string) {
    forall k :: 0 <= k < |draws| && draws[k].purchase == q ==> draws[k].tx == ""
  }

  lemma SaveNoTx(a: State, session: string, t: Session, q: string)
    requires NoTx(a, q) && NoTxIn(t.draws, q)
    ensures NoTx(Save(a, session, t), q)
  {
  }

  lemma BookNoTx(a: State, session: string, q: string)
    requires Consistent(a) && NoTx(a, q) && session in a.mem
    ensures NoTxIn(a.mem[session].draws, q)
  {
    assert a.disk[session] == a.mem[session];
  }

  lemma EndedNoTx(a: State, session: string, status: Status, now: int, q: string)
    requires Consistent(a) && NoTx(a, q)
    ensures NoTx(Ended(a, session, status, now), q)
  {
    if session in a.mem {
      BookNoTx(a, session, q);
      SaveNoTx(a, session, a.mem[session].(status := status, updated := now), q);
    }
  }

  lemma OpenedNoTx(a: State, session: string, tx: string, now: int, q: string)
    requires Consistent(a) && NoTx(a, q)
    ensures NoTx(Opened(a, session, tx, now), q)
  {
    if session in a.mem {
      BookNoTx(a, session, q);
      SaveNoTx(a, session, a.mem[session].(openTx := tx, updated := now), q);
    }
  }

  lemma RolledBackNoTx(a: State, session: string, id: string, now: int, q: string)
    requires GoodBooks(a) && NoTx(a, q)
    ensures NoTx(RolledBack(a, session, id, now), q)
  {
    if session in a.mem {
      BookNoTx(a, session, q);
      GiveBackNoTx(a.mem[session], id, q);
      SaveNoTx(a, session, GiveBack(a.mem[session], id).(updated := now), q);
    }
  }

  lemma GiveBackNoTx(s: Session, id: string, q: string)
    requires OneDrawEach(s.draws) && NoTxIn(s.draws, q)
    ensures NoTxIn(GiveBack(s, id).draws, q)
  {
    var i := LastPending(s.draws, id);
    if i >= 0 {
      RemovedDraws(s.draws, i);
    }
  }

  lemma RecordedNoTx(a: State, session: string, id: string, tx: string, now: int, q: string)
    requires Consistent(a) && NoTx(a, q) && q != id
    ensures NoTx(Recorded(a, session, id, tx, now), q)
  {
    if session in a.mem {
      BookNoTx(a, session, q);
      SaveNoTx(a, session, Stamp(a.mem[session], id, tx, now).(updated := now), q);
    }
  }

  lemma AcquiresNoTx(a: State, x: Request, b: State, g: Grant, q: string)
    requires Consistent(a) && Acquires(a, x, b, g) && NoTx(a, q)
    ensures NoTx(b, q)
  {
    match g {
      case Reused(id) => ReusedNoTx(a, x, id, q);
      case Minted(id) => MintedNoTx(a, x, b, id, q);
      case Refused =>
    }
  }

  lemma ReusedNoTx(a: State, x: Request, id: string, q: string)
    requires Consistent(a) && id in a.mem && NoTx(a, q)
    ensures NoTx(Save(a, id, Reserve(a.mem[id], x.purchase, x.amount).(updated := x.now)), q)
  {
    BookNoTx(a, id, q);
    SaveNoTx(a, id, Reserve(a.mem[id], x.purchase, x.amount).(updated := x.now), q);
  }

  lemma MintedNoTx(a: State, x: Request, b: State, id: string, q: string)
    requires Acquires(a, x, b, Minted(id)) && NoTx(a, q)
    ensures NoTx(b, q)
  {
    AcquireFits(a, x, b, Minted(id));
  }

  lemma LedgerAfterNoTx(st: State, id: string, p: Purchase, a: Answer, q: string)
    requires GoodBooks(st) && NoTx(st, q) && !(q == id && p.pc == Recording && p.drawdown)
    ensures NoTx(LedgerAfter(st, id, p, a), q)
  {
    match p.pc {
      case ReturningDraw => RolledBackNoTx(st, p.home, id, a.now, q);
      case RollingBack => RolledBackNoTx(st, p.home, id, a.now, q);
      case AbandoningSession => EndedNoTx(st, p.home, OpenFailed, a.now, q);
      case StampingOpen => OpenedNoTx(st, p.home, a.tx, a.now, q);
      case Recording =>
        if p.drawdown {
          RecordedNoTx(st, p.session, id, a.tx, a.now, q);
        }
      case _ =>
    }
  }

  lemma HandNoTx(w: World, n: nat, a: Answer, q: string)
    requires GoodBooks(w.ledger) && n in w.hands && w.hands[n].purchase in w.purchases && NoTx(w.ledger, q)
    requires !(q in w.purchases && w.purchases[q].drawdown && GoesOn(w, q))
    ensures NoTx(HandStep(w, n, a).ledger, q)
  {
    var Hand(id, pc) := w.hands[n];
    var p := w.purchases[id];
    HandStepIs(w, n, a);
    if pc == HandRecording && p.drawdown {
      RecordedNoTx(w.ledger, p.session, id, a.tx, a.now, q);
    }
  }

  lemma EventNoTx(st: State, p: Purchase, e: Event, now: int, q: string)
    requires Consistent(st) && NoTx(st, q)
    ensures NoTx(EventLedger(st, p, e, now), q)
  {
    EndedNoTx(st, p.session, StatusAfter(e), now, q);
  }

  lemma VerbNoTx(w: World, step: Step, w': World, q: string)
    requires GoodBooks(w.ledger) && Next(w, step, w') && NoTx(w.ledger, q) && !step.Orchestrate? && !step.ByHand?
    ensures NoTx(w'.ledger, q)
  {
    match step {
      case AcquireSession(id, x, g) => AcquiresNoTx(w.ledger, x, w'.ledger, g, q);
      case Dispute(id, ok, now) => EventNoTx(w.ledger, w.purchases[id], WasDisputed, now, q);
      case Refund(id, ok, now) => EventNoTx(w.ledger, w.purchases[id], WasWithdrawn, now, q);
      case Observe(id, e, now) => EventNoTx(w.ledger, w.purchases[id], e, now, q);
      case Sweep(s, ok, now) => EndedNoTx(w.ledger, s, Closed, now, q);
      case _ =>
    }
  }

  lemma NextNoTx(w: World, step: Step, w': World, q: string)
    requires Base(w) && Next(w, step, w') && GoesOnPaid(w, q) && !IsPaid(w, q) && NoTx(w.ledger, q)
    ensures NoTx(w'.ledger, q)
  {
    if step.Orchestrate? {
      AdvanceNoTx(w, step.id, step.a, q);
    } else if step.ByHand? {
      HandNoTx(w, step.n, step.a, q);
    } else {
      VerbNoTx(w, step, w', q);
    }
  }

  lemma AdvanceNoTx(w: World, id: string, a: Answer, q: string)
    requires GoodBooks(w.ledger) && id in w.purchases && GoesOnPaid(w, q) && !IsPaid(w, q) && NoTx(w.ledger, q)
    ensures NoTx(Advance(w, id, a).ledger, q)
  {
    LedgerAfterNoTx(w.ledger, id, w.purchases[id], a, q);
  }

  /** Payments are never taken back. */
  lemma PaidStays(w: World, step: Step, w': World, q: string)
    requires Base(w) && Next(w, step, w') && IsPaid(w, q)
    ensures IsPaid(w', q)
  {
    PaidTimesIff(w.payments, q);
    PaidTimesIff(w'.payments, q);
    PaidIsDrawdown(w, q);
    StepCounts(w, step, w', q, Payments);
  }

  /** In every run a draw that carries a tx belongs to a purchase the rail has paid. */
  lemma {:induction false} RecordedWasPaid(run: seq<World>, steps: seq<Step>, i: nat, q: string)
    requires IsRun(run, steps) && i < |run|
    ensures IsPaid(run[i], q) || NoTx(run[i].ledger, q)
  {
    if i > 0 {
      RecordedWasPaid(run, steps, i - 1, q);
      RunKeepsBase(run, steps, i - 1);
      if IsPaid(run[i - 1], q) {
        PaidStays(run[i - 1], steps[i - 1], run[i], q);
      } else {
        RunGoesOnPaid(run, steps, i - 1, q);
        NextNoTx(run[i - 1], steps[i - 1], run[i], q);
      }
    }
  }

  // ----- A refused release

  /** The orchestration of `id` stands at `pc` after a release call that was not paid, and no
      manual release of it is under way or on offer. */
  ghost predicate IsRefused(w: World, id: string, pc: Pc) {
    && id in w.purchases && w.purchases[id].drawdown && w.purchases[id].pc == pc && w.purchases[id].attempts > 0
    && w.purchases[id].state !in {AwaitRelease, PendingReview} && !IsPaid(w, id) && !HasHand(w, id)
  }

  /** No step from `i` up to `j` is one of the orchestration of `id`, or a restart. */
  ghost predicate Undisturbed(steps: seq<Step>, i: nat, j: nat, id: string) {
    forall k :: i <= k < j && k < |steps| ==> !steps[k].Restart? && !(steps[k].Orchestrate? && steps[k].id == id)
  }

  /** Not paid before, and not by this step: not paid. */
  lemma UnpaidStays(w: World, step: Step, w': World, id: string)
    requires Next(w, step, w') && id in w.purchases && !IsPaid(w, id) && !Happens(w, step, id, Payments)
    ensures !IsPaid(w', id)
  {
    PaidTimesIff(w.payments, id);
    PaidTimesIff(w'.payments, id);
    StepCounts(w, step, w', id, Payments);
  }

  lemma RefusedStays(w: World, step: Step, w': World, id: string, pc: Pc)
    requires Base(w) && Base(w') && Next(w, step, w') && IsRefused(w, id, pc)
    requires pc in {ReleaseRefused, Unwinding, RollingBack}
    requires !step.Restart? && !(step.Orchestrate? && step.id == id)
    ensures IsRefused(w', id, pc)
  {
    OthersLeave(w, step, w', id);
    StepCounts(w, step, w', id, Calls);
    if HasHand(w', id) {
      HandsStay(w, step, w', id);
    }
    UnpaidStays(w, step, w', id);
    if w'.purchases[id].state == AwaitRelease {
      WaitArises(w, step, w', id);
    }
    NotUnderReview(w, step, w', id);
  }

  lemma NotUnderReview(w: World, step: Step, w': World, id: string)
    requires Base(w) && Base(w') && Next(w, step, w') && id in w.purchases && id in w'.purchases
    requires w'.purchases[id].pc != NotStarted
    ensures w'.purchases[id].state != PendingReview
  {
    assert PurchaseOk(w'.purchases[id]);
  }

  lemma RefusedStaysAt(run: seq<World>, steps: seq<Step>, k: nat, id: string, pc: Pc)
    requires IsRun(run, steps) && k < |steps| && IsRefused(run[k], id, pc)
    requires pc in {ReleaseRefused, Unwinding, RollingBack}
    requires !steps[k].Restart? && !(steps[k].Orchestrate? && steps[k].id == id)
    ensures IsRefused(run[k + 1], id, pc)
  {
    NextOfRun(run, steps, k);
    RefusedStays(run[k], steps[k], run[k + 1], id, pc);
  }

  lemma {:induction false} RefusedRemains(run: seq<World>, steps: seq<Step>, i: nat, j: nat, id: string, pc: Pc)
    requires IsRun(run, steps) && i <= j <= |steps| && Undisturbed(steps, i, j, id)
    requires IsRefused(run[i], id, pc) && pc in {ReleaseRefused, Unwinding, RollingBack}
    ensures IsRefused(run[j], id, pc)
    decreases j
  {
    if i < j {
      RefusedRemains(run, steps, i, j - 1, id, pc);
      RefusedStaysAt(run, steps, j - 1, id, pc);
    }
  }

  /** `q` has no draw in any book. */
  ghost predicate NoDraw(st: State, q: string) {
    forall s, n :: !Booked(st, s, q, n)
  }

  /** The call itself. */
  lemma CallIsRefused(w: World, id: string, a: Answer)
    requires Base(w) && id in w.purchases && w.purchases[id].drawdown && w.purchases[id].pc == Releasing
    requires a.called && !a.ok
    ensures IsRefused(Advance(w, id, a), id, ReleaseRefused)
  {
    var w' := Advance(w, id, a);
    assert PurchaseOk(w.purchases[id]);
    NoAttemptNoPay(w, id);
    assert w'.payments == w.payments && w'.hands == w.hands;
    assert !IsPaid(w', id);
    assert !HasHand(w', id);
  }

  /** The next step of the orchestration: the purchase can be disputed. */
  lemma RefusedIsDisputable(w: World, id: string, a: Answer)
    requires IsRefused(w, id, ReleaseRefused)
    ensures var w' := Advance(w, id, a);
      IsRefused(w', id, Unwinding) && w'.purchases[id].state == Disputable
  {
    var w' := Advance(w, id, a);
    assert w'.payments == w.payments && w'.hands == w.hands;
    assert !IsPaid(w', id) && !HasHand(w', id);
  }

  /** The one after: it goes on to return the draw, unless the escrow was claimed by then. */
  lemma RefusedUnwinds(w: World, id: string, a: Answer)
    requires IsRefused(w, id, Unwinding) && w.purchases[id].state != Completed
    ensures IsRefused(Advance(w, id, a), id, RollingBack)
  {
    var w' := Advance(w, id, a);
    assert w'.payments == w.payments && w'.hands == w.hands;
    assert !IsPaid(w', id) && !HasHand(w', id);
  }

  /** The last one takes the draw out of the book. */
  lemma RefusedReturnsDraw(w: World, id: string, a: Answer, n: int)
    requires Base(w) && IsRefused(w, id, RollingBack) && NoTx(w.ledger, id) && w.purchases[id].home in w.ledger.mem
    ensures !Booked(Advance(w, id, a).ledger, w.purchases[id].home, id, n)
  {
    var home := w.purchases[id].home;
    RollbackStep(w, id, a);
    if Stamped(w.ledger, home, id) {
      NoTxNoDraw(w.ledger, home, id);
      RollbackMoves(w.ledger, home, id, a.now);
    } else {
      RollbackRemoves(w.ledger, home, id, a.now, n);
    }
  }

  lemma NoTxNoDraw(st: State, s: string, q: string)
    requires NoTx(st, q) && Stamped(st, s, q)
    ensures forall n :: !Booked(st, s, q, n)
  {
  }

  /** In every run: when the rail refuses the release of a drawdown purchase, its orchestration
      makes the purchase disputable, never completes it, and, unless the escrow was claimed
      in between, ends by taking the draw out of the book, whatever others do meanwhile. The
      four steps of the orchestration are at `i`, `j`, `k` and `m`. */
  lemma RefusedReleaseIsReturned(run: seq<World>, steps: seq<Step>, i: nat, j: nat, k: nat, m: nat,
                                 id: string, a: Answer)
    requires IsRun(run, steps) && i < j < k < m < |steps| && steps[i] == Orchestrate(id, a) && a.called && !a.ok
    requires id in run[i].purchases && run[i].purchases[id].drawdown && run[i].purchases[id].pc == Releasing
    requires Undisturbed(steps, i + 1, j, id) && Undisturbed(steps, j + 1, k, id) && Undisturbed(steps, k + 1, m, id)
    requires forall n :: n in {j, k, m} ==> steps[n].Orchestrate? && steps[n].id == id
    ensures id in run[j + 1].purchases && run[j + 1].purchases[id].state == Disputable
    ensures id in run[k].purchases && id in run[m].purchases
    ensures run[m].purchases[id].home in run[m].ledger.mem ==>
      run[k].purchases[id].state == Completed || NoDraw(run[m + 1].ledger, id)
  {
    RefusedTwice(run, steps, i, j, k, id, a);
    NextOf(run, steps, m, id);
    if run[k].purchases[id].state != Completed {
      RefusedThrice(run, steps, k, m, id);
    }
  }

  lemma NextOf(run: seq<World>, steps: seq<Step>, i: nat, id: string)
    requires IsRun(run, steps) && i < |steps| && steps[i].Orchestrate? && steps[i].id == id
    ensures id in run[i].purchases && run[i + 1] == Advance(run[i], id, steps[i].a) && Base(run[i]) && Base(run[i + 1])
  {
    var j := i + 1;
    assert Next(run[i], steps[i], run[j]);
    RunKeepsBase(run, steps, i);
    RunKeepsBase(run, steps, j);
  }

  lemma RefusedTwice(run: seq<World>, steps: seq<Step>, i: nat, j: nat, k: nat, id: string, a: Answer)
    requires IsRun(run, steps) && i < j < k < |steps| && steps[i] == Orchestrate(id, a) && a.called && !a.ok
    requires id in run[i].purchases && run[i].purchases[id].drawdown && run[i].purchases[id].pc == Releasing
    requires Undisturbed(steps, i + 1, j, id) && Undisturbed(steps, j + 1, k, id)
    requires steps[j].Orchestrate? && steps[j].id == id
    ensures id in run[j + 1].purchases && run[j + 1].purchases[id].state == Disputable
    ensures IsRefused(run[k], id, Unwinding)
  {
    NextOf(run, steps, i, id);
    CallIsRefused(run[i], id, a);
    RefusedRemains(run, steps, i + 1, j, id, ReleaseRefused);
    NextOf(run, steps, j, id);
    RefusedIsDisputable(run[j], id, steps[j].a);
    RefusedRemains(run, steps, j + 1, k, id, Unwinding);
  }

  lemma RefusedThrice(run: seq<World>, steps: seq<Step>, k: nat, m: nat, id: string)
    requires IsRun(run, steps) && k < m < |steps| && IsRefused(run[k], id, Unwinding)
    requires run[k].purchases[id].state != Completed && Undisturbed(steps, k + 1, m, id)
    requires steps[k].Orchestrate? && steps[k].id == id && steps[m].Orchestrate? && steps[m].id == id
    ensures id in run[m].purchases
    ensures run[m].purchases[id].home in run[m].ledger.mem ==> NoDraw(run[m + 1].ledger, id)
  {
    NextOf(run, steps, k, id);
    RefusedUnwinds(run[k], id, steps[k].a);
    RefusedRemains(run, steps, k + 1, m, id, RollingBack);
    NextOf(run, steps, m, id);
    RollbackStep(run[m], id, steps[m].a);
    RecordedWasPaid(run, steps, m, id);
    var home := run[m].purchases[id].home;
    if home in run[m].ledger.mem {
      var after := run[m + 1].ledger;
      forall s, n ensures !Booked(after, s, id, n) {
        if s == home {
          RefusedReturnsDraw(run[m], id, steps[m].a, n);
        }
      }
    }
  }

  /** A refused manual release: the purchase can be disputed again, nothing was paid, and its
      draw stays as it was. */
  lemma RefusedByHand(run: seq<World>, steps: seq<Step>, i: nat, j: nat, n: nat, id: string, a: Answer)
    requires IsRun(run, steps) && i < j < |steps| && steps[i] == ByHand(n, a) && !(a.called && a.ok)
    requires n in run[i].hands && run[i].hands[n] == Hand(id, HandCalling)
    requires steps[j].ByHand? && steps[j].n == n
    requires forall k :: i < k < j ==> !steps[k].Restart? && !(steps[k].ByHand? && steps[k].n == n)
    ensures run[i + 1].payments == run[i].payments && run[i + 1].ledger == run[i].ledger
    ensures id in run[j + 1].purchases && run[j + 1].purchases[id].state == Disputable && n !in run[j + 1].hands
    ensures run[j + 1].payments == run[j].payments && run[j + 1].ledger == run[j].ledger
  {
    var x, y := i + 1, j + 1;
    assert Next(run[i], steps[i], run[x]) && Next(run[j], steps[j], run[y]);
    HandIsRefused(run[i], n, a);
    HandRefusedRemains(run, steps, x, j, n, id);
    HandEnds(run[j], n, steps[j].a);
  }

  lemma HandIsRefused(w: World, n: nat, a: Answer)
    requires n in w.hands && w.hands[n].purchase in w.purchases && w.hands[n].pc == HandCalling && !(a.called && a.ok)
    ensures var w' := HandStep(w, n, a);
      && n in w'.hands && w'.hands[n] == Hand(w.hands[n].purchase, HandRefused)
      && w'.payments == w.payments && w'.ledger == w.ledger
  {
  }

  lemma HandEnds(w: World, n: nat, a: Answer)
    requires n in w.hands && w.hands[n].purchase in w.purchases && w.hands[n].pc == HandRefused
    ensures var w', id := HandStep(w, n, a), w.hands[n].purchase;
      && id in w'.purchases && w'.purchases[id].state == Disputable && n !in w'.hands
      && w'.payments == w.payments && w'.ledger == w.ledger
  {
  }

  lemma HandWaitsOn(w: World, step: Step, w': World, n: nat)
    requires Next(w, step, w') && n in w.hands && !step.Restart? && !(step.ByHand? && step.n == n)
    ensures n in w'.hands && w'.hands[n] == w.hands[n]
  {
    if !step.StartByHand? {
      HandsOf(w, step, w');
      if step.ByHand? {
        HandsAfterGoOn(w, w', step.n, step.a);
      }
    }
  }

  lemma {:induction false} HandRefusedRemains(run: seq<World>, steps: seq<Step>, i: nat, j: nat, n: nat, id: string)
    requires IsRun(run, steps) && i <= j <= |steps| && n in run[i].hands && run[i].hands[n] == Hand(id, HandRefused)
    requires forall k :: i <= k < j ==> !steps[k].Restart? && !(steps[k].ByHand? && steps[k].n == n)
    ensures n in run[j].hands && run[j].hands[n] == Hand(id, HandRefused)
    decreases j
  {
    if i < j {
      HandRefusedRemains(run, steps, i, j - 1, n, id);
      HandWaitsOn(run[j - 1], steps[j - 1], run[j], n);
    }
  }

  // ----- What the state tells

  /** The states an orchestration itself gives a purchase while it stands at `pc`. */
  function StatesAt(pc: Pc): set<PurchaseState> {
    match pc
    case NotStarted => {PendingReview, Failed}
    case Starting => {Queued}
    case Talking => {InSession}
    case Fetching => {AwaitReceipt}
    case Releasing => {AwaitReceipt}
    case ReleaseRefused => {AwaitReceipt}
    case Recording => {AwaitReceipt}
    case Completing => {AwaitReceipt}
    case Unwinding => {Disputable, AwaitRelease}
    case RollingBack => {Disputable}
    case Finished =>
      {Queued, EscrowOpening, InSession, AwaitReceipt, AwaitRelease, Disputable, Failed}
    case _ => {EscrowOpening}
  }

  /** The state is the one of its place, unless an escrow event or a release has moved it. */
  predicate StateOk(p: Purchase) {
    p.state in StatesAt(p.pc) || p.state in {Completed, InDispute, Settled, Refunded}
  }

  lemma RecordStateOk(f: Handshake.Functions, p: Purchase, a: Answer, known: bool)
    requires PurchaseOk(p) && StateOk(p)
    ensures StateOk(NextRecord(f, p, a, known))
  {
    if p.pc == Fetching {
      FetchedStateOk(f, p, a);
    } else if p.state in {Completed, InDispute, Settled, Refunded} {
      MovedStateOk(f, p, a, known);
    }
  }

  lemma FetchedStateOk(f: Handshake.Functions, p: Purchase, a: Answer)
    requires PurchaseOk(p) && StateOk(p) && p.pc == Fetching
    ensures StateOk(Fetched(f, p, a))
  {
  }

  lemma MovedStateOk(f: Handshake.Functions, p: Purchase, a: Answer, known: bool)
    requires PurchaseOk(p) && p.state in {Completed, InDispute, Settled, Refunded} && p.pc != Fetching
    ensures StateOk(NextRecord(f, p, a, known))
  {
  }

  lemma AdvanceStateOk(w: World, id: string, a: Answer, q: string)
    requires id in w.purchases && q in w.purchases && PurchaseOk(w.purchases[id]) && StateOk(w.purchases[id])
    requires StateOk(w.purchases[q])
    ensures q in Advance(w, id, a).purchases && StateOk(Advance(w, id, a).purchases[q])
  {
    RecordStateOk(w.functions, w.purchases[id], a, w.purchases[id].home in w.ledger.mem);
    if q != id {
      AdvanceLeaves(w, id, a, q);
    }
  }

  lemma HandStateOk(w: World, n: nat, a: Answer, q: string)
    requires Base(w) && n in w.hands && q in w.purchases && StateOk(w.purchases[q])
    ensures q in HandStep(w, n, a).purchases && StateOk(HandStep(w, n, a).purchases[q])
  {
    if q == w.hands[n].purchase {
      HandSameWork(w, n, a, q);
      HandUses(w, n, a, q);
    } else {
      HandLeaves(w, n, a, q);
    }
  }

  lemma VerbStateOk(p: Purchase, p': Purchase)
    requires PurchaseOk(p) && StateOk(p) && VerbMoves(p, p')
    ensures StateOk(p')
  {
  }

  lemma NextStateOk(w: World, step: Step, w': World, id: string)
    requires Base(w) && Next(w, step, w') && RecordsOk(w) && id in w'.purchases
    ensures StateOk(w'.purchases[id])
  {
    if id !in w.purchases {
      NewIsUncounted(w, step, w', id);
      NewStateOk(w, step, w');
    } else if step.Orchestrate? {
      AdvanceStateOk(w, step.id, step.a, id);
    } else if step.ByHand? {
      HandStateOk(w, step.n, step.a, id);
    } else {
      VerbRecord(w, step, w', id);
      VerbStateOk(w.purchases[id], w'.purchases[id]);
    }
  }

  lemma NewStateOk(w: World, step: Step, w': World)
    requires Next(w, step, w') && (step.Begin? || step.Saturated?)
    ensures step.id in w'.purchases && StateOk(w'.purchases[step.id])
  {
  }

  // ----- Funded purchases do not fail

  /** How often the rail has opened an escrow for the purchase. */
  predicate OpensOk(p: Purchase) {
    && p.opens <= 1
    && (p.pc in {NotStarted, Starting, Acquiring, OpeningSession, ReturningDraw, AbandoningSession} ==> p.opens == 0)
    && (p.pc == StampingOpen || (InFlight(p) && !p.drawdown) ==> p.opens == 1)
    && (p.state == Failed && !p.drawdown ==> p.opens == 0)
  }

  lemma RecordOpensOk(f: Handshake.Functions, p: Purchase, a: Answer, known: bool)
    requires PurchaseOk(p) && OpensOk(p)
    ensures OpensOk(NextRecord(f, p, a, known))
  {
  }

  lemma VerbOpensOk(p: Purchase, p': Purchase)
    requires PurchaseOk(p) && OpensOk(p) && VerbMoves(p, p')
    ensures OpensOk(p')
  {
  }

  lemma AdvanceOpensOk(w: World, id: string, a: Answer, q: string)
    requires id in w.purchases && q in w.purchases && PurchaseOk(w.purchases[id]) && OpensOk(w.purchases[id])
    requires OpensOk(w.purchases[q])
    ensures q in Advance(w, id, a).purchases && OpensOk(Advance(w, id, a).purchases[q])
  {
    RecordOpensOk(w.functions, w.purchases[id], a, w.purchases[id].home in w.ledger.mem);
    if q != id {
      AdvanceLeaves(w, id, a, q);
    }
  }

  lemma NextOpensOk(w: World, step: Step, w': World, id: string)
    requires Base(w) && Next(w, step, w') && RecordsOk(w) && id in w'.purchases
    ensures OpensOk(w'.purchases[id])
  {
    if id !in w.purchases {
      NewIsUncounted(w, step, w', id);
      NewOpensOk(w, step, w');
    } else if step.Orchestrate? {
      AdvanceOpensOk(w, step.id, step.a, id);
    } else if step.ByHand? {
      HandSameWork(w, step.n, step.a, id);
      HandUses(w, step.n, step.a, id);
    } else {
      VerbRecord(w, step, w', id);
      VerbOpensOk(w.purchases[id], w'.purchases[id]);
    }
  }

  lemma NewOpensOk(w: World, step: Step, w': World)
    requires Next(w, step, w') && (step.Begin? || step.Saturated?)
    ensures step.id in w'.purchases && OpensOk(w'.purchases[step.id])
  {
  }

  ghost predicate RecordsOk(w: World) {
    forall id :: id in w.purchases ==> StateOk(w.purchases[id]) && OpensOk(w.purchases[id])
  }

  lemma NextRecordsOk(w: World, step: Step, w': World)
    requires Base(w) && Next(w, step, w') && RecordsOk(w)
    ensures RecordsOk(w')
  {
    forall id | id in w'.purchases ensures StateOk(w'.purchases[id]) && OpensOk(w'.purchases[id]) {
      NextStateOk(w, step, w', id);
      NextOpensOk(w, step, w', id);
    }
  }

  lemma {:induction false} RunRecordsOk(run: seq<World>, steps: seq<Step>, i: nat)
    requires IsRun(run, steps) && i < |run|
    ensures RecordsOk(run[i])
  {
    if i > 0 {
      RunRecordsOk(run, steps, i - 1);
      RunKeepsBase(run, steps, i - 1);
      NextRecordsOk(run[i - 1], steps[i - 1], run[i]);
    }
  }

  /** In every run the state of a purchase tells where its orchestration stands. */
  lemma StateTellsPlace(run: seq<World>, steps: seq<Step>, i: nat, id: string)
    requires IsRun(run, steps) && i < |run| && id in run[i].purchases
    ensures StateOk(run[i].purchases[id])
  {
    RunRecordsOk(run, steps, i);
  }

  /** In every run at most one escrow is opened for a purchase; without a drawdown session none
      is dialed, talked to or released before its escrow is open, and once it is open the
      purchase never fails. */
  lemma FundedNeverFails(run: seq<World>, steps: seq<Step>, i: nat, id: string)
    requires IsRun(run, steps) && i < |run| && id in run[i].purchases
    ensures OpensOk(run[i].purchases[id])
  {
    RunRecordsOk(run, steps, i);
  }

  // ----- A failed purchase leaves no draw

  /** The orchestration has given up before it was bound to a session. */
  predicate GivesUp(p: Purchase) {
    p.drawdown && p.pc in {AbandoningSession, Failing}
  }

  /** Unless its session is out of memory, its draw is gone; and a session that was never
      opened serves nobody. */
  ghost predicate GoneOk(w: World, id: string) {
    id in w.purchases && GivesUp(w.purchases[id]) ==>
      var p := w.purchases[id];
      && p.home in w.ledger.disk
      && (p.home in w.ledger.mem ==>
            && !HasDraw(w, id)
            && (p.pc == Failing && p.opens == 0 ==> w.ledger.disk[p.home].status != Open))
  }

  /** A session with a file comes back into memory only at a restart. */
  lemma MemoryShrinks(w: World, step: Step, w': World, s: string)
    requires Base(w) && Next(w, step, w') && !step.Restart? && s in w'.ledger.mem && s in w.ledger.disk
    ensures s in w.ledger.mem
  {
    if step.Orchestrate? {
      AdvanceFrame(w, step.id, step.a);
    } else if step.ByHand? {
      HandFrame(w, step.n, step.a);
    } else if step.AcquireSession? {
      AcquireFrame(w, step.id, step.q, step.g, w');
    } else {
      VerbMemory(w, step, w');
    }
  }

  lemma VerbMemory(w: World, step: Step, w': World)
    requires Base(w) && Next(w, step, w')
    requires !step.Orchestrate? && !step.ByHand? && !step.AcquireSession? && !step.Restart?
    ensures w'.ledger.mem.Keys == w.ledger.mem.Keys
  {
    match step {
      case Dispute(q, ok, now) => ObservedFrame(w, q, WasDisputed, now);
      case Refund(q, ok, now) => ObservedFrame(w, q, WasWithdrawn, now);
      case Observe(q, e, now) => ObservedFrame(w, q, e, now);
      case Sweep(session, ok, now) => EndedMoves(w.ledger, session, Closed, now, "");
      case _ =>
    }
  }

  /** Steps of others leave it at that. */
  lemma GoneStays(w: World, step: Step, w': World, id: string)
    requires Base(w) && Next(w, step, w') && GoneOk(w, id) && id in w.purchases
    requires GivesUp(w.purchases[id]) && !step.Restart? && !(step.Orchestrate? && step.id == id)
    ensures GoneOk(w', id)
  {
    OthersLeave(w, step, w', id);
    var home := w.purchases[id].home;
    NextMovesLedger(w, step, w');
    assert SessionMoves(w.ledger.disk[home], w'.ledger.disk[home]);
    if home in w'.ledger.mem {
      MemoryShrinks(w, step, w', home);
      NoDrawStays(w, step, w', id, home);
    }
  }

  lemma NoDrawStays(w: World, step: Step, w': World, id: string, s: string)
    requires Base(w) && Next(w, step, w') && !(step.AcquireSession? && step.id == id)
    requires forall n :: !Booked(w.ledger, s, id, n)
    ensures forall n :: !Booked(w'.ledger, s, id, n)
  {
    forall n ensures !Booked(w'.ledger, s, id, n) {
      if Booked(w'.ledger, s, id, n) {
        StepBooks(w, step, w', id, s, n);
      }
    }
  }

  lemma LedgerAfterKeys(st: State, id: string, p: Purchase, a: Answer)
    ensures LedgerAfter(st, id, p, a).mem.Keys == st.mem.Keys
  {
  }

  /** No open session is ever dropped from memory to bound the book. */
  lemma OpenSessionStays(w: World, step: Step, w': World, s: string)
    requires Base(w) && Next(w, step, w') && s in w.ledger.mem && w.ledger.mem[s].status == Open
    ensures s in w'.ledger.mem
  {
    if step.Orchestrate? || step.ByHand? {
      OwnMemory(w, step, w');
    } else if step.AcquireSession? {
      AcquireMemory(w.ledger, step.q, w'.ledger, step.g, s);
    } else if step.Restart? {
      RestartMemory(w, w', s);
    } else {
      VerbMemory(w, step, w');
    }
  }

  lemma OwnMemory(w: World, step: Step, w': World)
    requires Base(w) && Next(w, step, w') && (step.Orchestrate? || step.ByHand?)
    ensures w'.ledger.mem.Keys == w.ledger.mem.Keys
  {
    if step.Orchestrate? {
      AdvanceMemory(w, step.id, step.a);
    } else {
      HandMemory(w, step.n, step.a);
    }
  }

  lemma RestartMemory(w: World, w': World, s: string)
    requires Base(w) && Next(w, Restart, w') && s in w.ledger.mem
    ensures s in w'.ledger.mem
  {
  }

  lemma AdvanceMemory(w: World, id: string, a: Answer)
    requires id in w.purchases
    ensures Advance(w, id, a).ledger.mem.Keys == w.ledger.mem.Keys
  {
    LedgerAfterKeys(w.ledger, id, w.purchases[id], a);
  }

  lemma HandMemory(w: World, n: nat, a: Answer)
    requires Base(w) && n in w.hands && a.tx != ""
    ensures HandStep(w, n, a).ledger.mem.Keys == w.ledger.mem.Keys
  {
    HandStepIs(w, n, a);
    HandLedgerReach(w, w.hands[n].purchase, w.hands[n].pc, a);
  }

  lemma AcquireMemory(a: State, q: Request, b: State, g: Grant, s: string)
    requires Acquires(a, q, b, g) && s in a.mem && a.mem[s].status == Open
    ensures s in b.mem
  {
  }

  /** How an orchestration comes to give up. */
  lemma GivingUp(w: World, id: string, a: Answer)
    requires Base(w) && id in w.purchases && a.tx != "" && OpensOk(w.purchases[id]) && HomeOk(w, id) && GoneOk(w, id)
    requires !IsPaid(w, id) ==> NoTx(w.ledger, id)
    ensures GoneOk(Advance(w, id, a), id)
  {
    var p, w' := w.purchases[id], Advance(w, id, a);
    assert PurchaseOk(p);
    if GivesUp(w'.purchases[id]) {
      GivesUpFrom(w.functions, p, a, p.home in w.ledger.mem);
      match p.pc {
        case ReturningDraw => DrawIsReturned(w, id, a);
        case AbandoningSession => SessionIsAbandoned(w, id, a);
        case _ => UnknownSession(w, id, a);
      }
    }
  }

  lemma GivesUpFrom(f: Handshake.Functions, p: Purchase, a: Answer, known: bool)
    requires PurchaseOk(p) && GivesUp(NextRecord(f, p, a, known))
    ensures p.drawdown && (p.pc in {ReturningDraw, AbandoningSession} || (p.pc == StampingOpen && !known))
    ensures p.pc == ReturningDraw ==> NextRecord(f, p, a, known) == p.(pc := AbandoningSession)
    ensures p.pc == AbandoningSession ==> NextRecord(f, p, a, known) == p.(pc := Failing)
    ensures p.pc == StampingOpen ==> NextRecord(f, p, a, known) == p.(pc := Failing)
  {
  }

  lemma DrawIsReturned(w: World, id: string, a: Answer)
    requires Base(w) && id in w.purchases && w.purchases[id].pc == ReturningDraw && w.purchases[id].drawdown
    requires w.purchases[id].home in w.ledger.disk && (!IsPaid(w, id) ==> NoTx(w.ledger, id))
    ensures GoneOk(Advance(w, id, a), id)
  {
    var p, w' := w.purchases[id], Advance(w, id, a);
    assert PurchaseOk(p);
    NoAttemptNoPay(w, id);
    assert w'.ledger == RolledBack(w.ledger, p.home, id, a.now);
    if p.home in w.ledger.mem {
      forall n ensures !Booked(w'.ledger, p.home, id, n) {
        if Stamped(w.ledger, p.home, id) {
          NoTxNoDraw(w.ledger, p.home, id);
          RollbackMoves(w.ledger, p.home, id, a.now);
        } else {
          RollbackRemoves(w.ledger, p.home, id, a.now, n);
        }
      }
    }
  }

  lemma SessionIsAbandoned(w: World, id: string, a: Answer)
    requires Base(w) && id in w.purchases && w.purchases[id].pc == AbandoningSession && GoneOk(w, id)
    requires w.purchases[id].drawdown
    ensures GoneOk(Advance(w, id, a), id)
  {
    var p := w.purchases[id];
    assert Advance(w, id, a).ledger == Ended(w.ledger, p.home, OpenFailed, a.now);
    EndedMoves(w.ledger, p.home, OpenFailed, a.now, id);
    if p.home in w.ledger.mem {
      assert !HasDraw(w, id);
    }
  }

  lemma UnknownSession(w: World, id: string, a: Answer)
    requires id in w.purchases && w.purchases[id].pc == StampingOpen && w.purchases[id].drawdown
    requires w.purchases[id].home in w.ledger.disk && w.purchases[id].home !in w.ledger.mem
    ensures GoneOk(Advance(w, id, a), id)
  {
    assert Advance(w, id, a).ledger == w.ledger;
  }

  lemma NextKeepsGone(w: World, step: Step, w': World, id: string)
    requires Base(w) && Next(w, step, w') && RecordsOk(w) && HomeOk(w, id) && GoneOk(w, id)
    requires !IsPaid(w, id) ==> NoTx(w.ledger, id)
    ensures GoneOk(w', id)
  {
    if id !in w.purchases {
      if id in w'.purchases {
        NewIsUncounted(w, step, w', id);
        BeginIs(w, step, w');
      }
    } else if step.Orchestrate? && step.id == id {
      GivingUp(w, id, step.a);
    } else if GivesUp(w.purchases[id]) && !step.Restart? {
      GoneStays(w, step, w', id);
    } else {
      StillNotGivingUp(w, step, w', id);
    }
  }

  lemma StillNotGivingUp(w: World, step: Step, w': World, id: string)
    requires Next(w, step, w') && id in w.purchases && !(step.Orchestrate? && step.id == id)
    requires !GivesUp(w.purchases[id]) || step.Restart?
    ensures id in w'.purchases && !GivesUp(w'.purchases[id])
  {
    if step.Orchestrate? {
      AdvanceLeaves(w, step.id, step.a, id);
    } else if step.ByHand? {
      HandSameWork(w, step.n, step.a, id);
    } else {
      VerbRecord(w, step, w', id);
      VerbGivesUp(w.purchases[id], w'.purchases[id], step.Restart?);
    }
  }

  lemma VerbGivesUp(p: Purchase, p': Purchase, restart: bool)
    requires VerbMoves(p, p') && (restart ==> p' == Stopped(p)) && (restart || !GivesUp(p))
    ensures !GivesUp(p')
  {
  }

  lemma {:induction false} RunKeepsGone(run: seq<World>, steps: seq<Step>, i: nat, id: string)
    requires IsRun(run, steps) && i < |run|
    ensures GoneOk(run[i], id)
  {
    if i > 0 {
      RunKeepsGone(run, steps, i - 1, id);
      RunKeepsBase(run, steps, i - 1);
      RunRecordsOk(run, steps, i - 1);
      RunKeepsHome(run, steps, i - 1, id);
      RecordedWasPaid(run, steps, i - 1, id);
      NextKeepsGone(run[i - 1], steps[i - 1], run[i], id);
    }
  }

  /** In every run, when an orchestration fails a drawdown purchase, the purchase was not paid
      and, unless its session is out of memory, has no draw left; and the session, if the rail
      refused to open it, is no longer offered. */
  lemma FailedLeavesNoDraw(run: seq<World>, steps: seq<Step>, i: nat, id: string)
    requires IsRun(run, steps) && i < |steps| && steps[i].Orchestrate?
    requires id in run[i].purchases && id in run[i + 1].purchases && run[i].purchases[id].drawdown
    requires run[i].purchases[id].state != Failed && run[i + 1].purchases[id].state == Failed
    ensures var p, st := run[i].purchases[id], run[i + 1].ledger;
      && !IsPaid(run[i + 1], id)
      && (p.home in st.mem ==> forall n :: !Booked(st, p.home, id, n))
      && (p.home in st.mem && p.pc == Failing && p.opens == 0 ==> st.mem[p.home].status != Open)
  {
    FailsOnly(run[i], steps[i].id, steps[i].a, id);
    NextOf(run, steps, i, id);
    RunKeepsGone(run, steps, i, id);
    FailsQuietly(run[i], id, steps[i].a);
  }

  lemma FailsOnly(w: World, id: string, a: Answer, q: string)
    requires id in w.purchases && q in w.purchases && q in Advance(w, id, a).purchases
    requires w.purchases[q].state != Failed && Advance(w, id, a).purchases[q].state == Failed
    ensures q == id && w.purchases[id].pc in {Starting, Acquiring, Failing}
  {
  }

  lemma FailsQuietly(w: World, id: string, a: Answer)
    requires Base(w) && id in w.purchases && w.purchases[id].pc in {Starting, Acquiring, Failing} && GoneOk(w, id)
    requires w.purchases[id].drawdown
    ensures var p, w' := w.purchases[id], Advance(w, id, a);
      && w'.ledger == w.ledger && !IsPaid(w', id)
      && (p.home in w'.ledger.mem ==> forall n :: !Booked(w'.ledger, p.home, id, n))
      && (p.home in w'.ledger.mem && p.pc == Failing && p.opens == 0 ==> w'.ledger.mem[p.home].status != Open)
  {
    var p := w.purchases[id];
    assert PurchaseOk(p);
    NoAttemptNoPay(w, id);
    assert Advance(w, id, a).payments == w.payments;
    if p.pc == Failing && p.home in w.ledger.mem {
      assert !HasDraw(w, id);
    }
  }

  // ----- What the answers decide

  /** The orchestration of `id` takes one step with this answer. */
  ghost predicate Goes(w: World, id: string, a: Answer, w': World) {
    id in w.purchases && id in w'.purchases && w' == Advance(w, id, a)
  }

  /** The receipt that came passes for the text that came. */
  predicate IsDelivered(w: World, p: Purchase, talk: Answer, fetch: Answer) {
    fetch.receipt.Some? && Handshake.ReceiptProves(w.functions, Order(p), talk.result, fetch.receipt.value)
  }

  lemma DialIs(w: World, id: string, a: Answer, w': World)
    requires Goes(w, id, a, w') && w.purchases[id].pc == Dialing
    ensures var p := w.purchases[id];
      w' == With(w, id, p.(state := InSession, pc := Talking))
  {
  }

  lemma TalkIs(w: World, id: string, a: Answer, w': World)
    requires Goes(w, id, a, w') && w.purchases[id].pc == Talking
    ensures var p := w.purchases[id];
      w' == With(w, id, if a.ok then p.(state := AwaitReceipt, pc := Fetching, result := a.result)
                  else p.(state := Disputable, pc := End(p)))
  {
  }

  /** A purchase whose session is open is dialed and talked to; when that fails it becomes
      disputable, else its text is kept and its receipt awaited. */
  lemma TalkDecides(w: World, x: World, w': World, id: string, dial: Answer, talk: Answer)
    requires Goes(w, id, dial, x) && Goes(x, id, talk, w') && w.purchases[id].pc == Dialing
    ensures x.purchases[id].state == InSession && w'.payments == w.payments && w'.ledger == w.ledger
    ensures var p := w.purchases[id];
      w'.purchases[id] ==
        if talk.ok then p.(state := AwaitReceipt, pc := Fetching, result := talk.result)
        else p.(state := Disputable, pc := End(p))
  {
    DialIs(w, id, dial, x);
    TalkIs(x, id, talk, w');
  }

  /** Without a receipt that passes it becomes disputable and no release is called; with one it
      is released at once or waits for the operator. */
  lemma FetchDecides(w: World, id: string, talk: Answer, fetch: Answer)
    requires id in w.purchases && w.purchases[id].pc == Fetching && w.purchases[id].result == talk.result
    ensures var p, w' := w.purchases[id], Advance(w, id, fetch);
      && w'.payments == w.payments && w'.ledger == w.ledger
      && w'.purchases[id].attempts == p.attempts && w'.purchases[id].session == p.session
      && (!fetch.ok ==> w'.purchases[id] == p.(state := Disputable, pc := End(p)))
      && (fetch.ok ==>
            w'.purchases[id] ==
              if !IsDelivered(w, p, talk, fetch) then p.(receipt := fetch.receipt, state := Disputable, pc := End(p))
              else if fetch.autoRelease then p.(receipt := fetch.receipt, pc := Releasing)
              else p.(receipt := fetch.receipt, state := AwaitRelease, pc := End(p)))
  {
    if fetch.receipt.Some? {
      Handshake.ReceiptIsSound(w.functions, Order(w.purchases[id]), talk.result, fetch.receipt.value);
    }
  }

  lemma CallIsPaid(w: World, id: string, a: Answer, w': World)
    requires Goes(w, id, a, w') && w.purchases[id].pc == Releasing && w.purchases[id].drawdown && a.called && a.ok
    ensures var p := w.purchases[id];
      w' == With(w, id, p.(pc := Recording, attempts := p.attempts + 1)).(
        payments := w.payments + [Payment(id, p.session, p.amount)])
  {
  }

  lemma DrawIsRecorded(w: World, id: string, a: Answer, w': World)
    requires Goes(w, id, a, w') && w.purchases[id].pc == Recording && w.purchases[id].drawdown
    ensures var p := w.purchases[id];
      w' == With(w.(ledger := Recorded(w.ledger, p.session, id, a.tx, a.now)), id, p.(pc := Completing))
  {
  }

  lemma CompletingIs(w: World, id: string, a: Answer, w': World)
    requires Goes(w, id, a, w') && w.purchases[id].pc == Completing && w.purchases[id].drawdown
    ensures var p := w.purchases[id];
      w' == With(w, id, p.(state := Completed, pc := Unwinding))
  {
  }

  lemma UnwindingIs(w: World, id: string, a: Answer, w': World)
    requires Goes(w, id, a, w') && w.purchases[id].pc == Unwinding && w.purchases[id].state in {Completed, AwaitRelease}
    ensures var p := w.purchases[id];
      w' == With(w, id, p.(pc := Finished))
  {
  }

  /** Completed for good: what is left of the orchestration changes nothing any more. */
  lemma CompletedIsFinal(w: World, x: World, w': World, id: string, a: Answer, b: Answer)
    requires Goes(w, id, a, x) && Goes(x, id, b, w') && w.purchases[id].pc == Completing && w.purchases[id].drawdown
    ensures x.purchases[id].state == Completed
    ensures w' == With(w, id, w.purchases[id].(state := Completed, pc := Finished))
  {
    CompletingIs(w, id, a, x);
    UnwindingIs(x, id, b, w');
  }

  /** A release the rail accepts is paid once, out of the session and in the amount of the
      purchase, its draw is stamped, and the purchase is completed. */
  lemma ReleaseCompletes(w: World, x: World, y: World, z: World, w': World, id: string,
                         call: Answer, record: Answer, complete: Answer, unwind: Answer)
    requires Goes(w, id, call, x) && Goes(x, id, record, y) && Goes(y, id, complete, z) && Goes(z, id, unwind, w')
    requires Base(w) && w.purchases[id].pc == Releasing && w.purchases[id].drawdown
    requires call.called && call.ok && record.tx != ""
    ensures var p := w.purchases[id];
      && w'.payments == w.payments + [Payment(id, p.session, p.amount)]
      && w'.purchases[id].state == Completed && w'.purchases[id].pc == Finished
      && (p.session in w.ledger.mem ==> Stamped(w'.ledger, p.session, id))
  {
    CallIsPaid(w, id, call, x);
    DrawIsRecorded(x, id, record, y);
    CompletedIsFinal(y, z, w', id, complete, unwind);
    RecordedMoves(w.ledger, w.purchases[id].session, id, record.tx, record.now);
  }

  lemma StartIs(w: World, id: string, a: Answer, w': World)
    requires Goes(w, id, a, w') && w.purchases[id].pc == Starting
    ensures var p := w.purchases[id];
      w' == With(w, id, if a.ok then p.(state := EscrowOpening, pc := Acquiring)
                        else p.(state := Failed, pc := Finished))
  {
  }

  lemma OwnEscrowIs(w: World, id: string, a: Answer, w': World)
    requires Goes(w, id, a, w') && w.purchases[id].pc == Acquiring && !w.purchases[id].drawdown
    ensures var p := w.purchases[id];
      w' == With(w, id, if a.ok then p.(pc := Dialing, opens := p.opens + 1) else p.(state := Failed, pc := Finished))
  {
  }

  /** With its own escrow a purchase goes on to the session exactly when there is a rail and
      the rail opens it, and fails otherwise. */
  lemma OpeningDecides(w: World, x: World, w': World, id: string, start: Answer, open: Answer)
    requires Goes(w, id, start, x) && w.purchases[id].pc == Starting && !w.purchases[id].drawdown
    ensures !start.ok ==> x == With(w, id, w.purchases[id].(state := Failed, pc := Finished))
    ensures start.ok && Goes(x, id, open, w') ==>
      var p := w.purchases[id];
      w' == With(w, id, if open.ok then p.(state := EscrowOpening, pc := Dialing, opens := p.opens + 1)
                        else p.(state := Failed, pc := Finished))
  {
    StartIs(w, id, start, x);
    if start.ok && Goes(x, id, open, w') {
      OwnEscrowIs(x, id, open, w');
    }
  }

  lemma OpeningIs(w: World, id: string, a: Answer, w': World)
    requires Goes(w, id, a, w') && w.purchases[id].pc == OpeningSession
    ensures var p := w.purchases[id];
      w' == With(w, id, if a.ok then p.(pc := StampingOpen, opens := p.opens + 1) else p.(pc := ReturningDraw))
  {
  }

  lemma StampingIs(w: World, id: string, a: Answer, w': World)
    requires Goes(w, id, a, w') && w.purchases[id].pc == StampingOpen
    ensures var p := w.purchases[id];
      w' == With(w.(ledger := Opened(w.ledger, p.home, a.tx, a.now)), id,
                 p.(pc := if p.home in w.ledger.mem then Binding else Failing))
  {
  }

  lemma BindingIs(w: World, id: string, a: Answer, w': World)
    requires Goes(w, id, a, w') && w.purchases[id].pc == Binding
    ensures var p := w.purchases[id];
      w' == With(w, id, p.(session := p.home, pc := Dialing))
  {
  }

  lemma FailingIs(w: World, id: string, a: Answer, w': World)
    requires Goes(w, id, a, w') && w.purchases[id].pc == Failing
    ensures var p := w.purchases[id];
      w' == With(w, id, p.(state := Failed, pc := Finished))
  {
  }

  /** The ledger's answer decides: a purchase it refuses fails and the book stays; one that
      reuses a session is bound to it without a call of the rail; and one that mints a session
      opens it for the parties of its own deal. */
  lemma AcquireDecides(w: World, id: string, q: Request, g: Grant, x: World, bind: Answer, w': World)
    requires AcquireStep(w, id, q, g, x) && Goes(x, id, bind, w')
    ensures x.payments == w.payments
    ensures var p := w.purchases[id];
      match g
      case Refused => x == With(w, id, p.(state := Failed, pc := Finished))
      case Reused(s) => w' == With(x, id, p.(home := s, session := s, pc := Dialing))
      case Minted(s) =>
        && x.purchases[id] == p.(home := s, pc := OpeningSession)
        && s in x.ledger.mem && x.ledger.mem[s].seller == p.deal.seller && x.ledger.mem[s].buyer == p.deal.buyer
        && x.ledger.mem[s].openTx == ""
  {
    AcquireFits(w.ledger, q, x.ledger, g);
    if g.Reused? {
      BindingIs(x, id, bind, w');
    }
  }

  /** A new drawdown session the rail opens is stamped, and the purchase is bound to it and
      goes on to the session. */
  lemma OpenedIsBound(w: World, x: World, y: World, w': World, id: string, open: Answer, stamp: Answer, bind: Answer)
    requires Goes(w, id, open, x) && Goes(x, id, stamp, y) && Goes(y, id, bind, w')
    requires w.purchases[id].pc == OpeningSession && open.ok && w.purchases[id].home in w.ledger.mem
    ensures var p := w.purchases[id];
      && w'.payments == w.payments
      && w'.purchases[id] == p.(session := p.home, pc := Dialing, opens := p.opens + 1)
      && p.home in w'.ledger.mem
      && w'.ledger.mem[p.home] == w.ledger.mem[p.home].(openTx := stamp.tx, updated := stamp.now)
  {
    OpeningIs(w, id, open, x);
    StampingIs(x, id, stamp, y);
    BindingIs(y, id, bind, w');
  }

  /** If the book has lost the session by then, the purchase fails and the book stays. */
  lemma LostSessionFails(w: World, x: World, y: World, w': World, id: string, open: Answer, stamp: Answer, fail: Answer)
    requires Goes(w, id, open, x) && Goes(x, id, stamp, y) && Goes(y, id, fail, w')
    requires w.purchases[id].pc == OpeningSession && open.ok && w.purchases[id].home !in w.ledger.mem
    ensures var p := w.purchases[id];
      w' == With(w, id, p.(state := Failed, pc := Finished, opens := p.opens + 1))
  {
    OpeningIs(w, id, open, x);
    StampingIs(x, id, stamp, y);
    FailingIs(y, id, fail, w');
  }

  lemma ReturningIs(w: World, id: string, a: Answer, w': World)
    requires Goes(w, id, a, w') && w.purchases[id].pc == ReturningDraw
    ensures var p := w.purchases[id];
      w' == With(w.(ledger := RolledBack(w.ledger, p.home, id, a.now)), id, p.(pc := AbandoningSession))
  {
  }

  lemma AbandoningIs(w: World, id: string, a: Answer, w': World)
    requires Goes(w, id, a, w') && w.purchases[id].pc == AbandoningSession
    ensures var p := w.purchases[id];
      w' == With(w.(ledger := Ended(w.ledger, p.home, OpenFailed, a.now)), id, p.(pc := Failing))
  {
  }

  lemma AbandonedFails(w: World, x: World, w': World, id: string, mark: Answer, fail: Answer)
    requires Goes(w, id, mark, x) && Goes(x, id, fail, w') && w.purchases[id].pc == AbandoningSession
    ensures var p := w.purchases[id];
      w' == With(w.(ledger := Ended(w.ledger, p.home, OpenFailed, mark.now)), id, p.(state := Failed, pc := Finished))
  {
    AbandoningIs(w, id, mark, x);
    FailingIs(x, id, fail, w');
  }

  /** One the rail refuses to open gives its draw back and is marked so, and the purchase
      fails. */
  lemma RefusedOpening(w: World, x: World, y: World, z: World, w': World, id: string,
                       open: Answer, back: Answer, mark: Answer, fail: Answer)
    requires Goes(w, id, open, x) && Goes(x, id, back, y) && Goes(y, id, mark, z) && Goes(z, id, fail, w')
    requires w.purchases[id].pc == OpeningSession && !open.ok && w.purchases[id].home in w.ledger.mem
    ensures var p := w.purchases[id];
      && w'.payments == w.payments && w'.purchases[id] == p.(state := Failed, pc := Finished)
      && p.home in w'.ledger.mem
      && w'.ledger.mem[p.home] == GiveBack(w.ledger.mem[p.home], id).(status := OpenFailed, updated := mark.now)
  {
    OpeningIs(w, id, open, x);
    ReturningIs(x, id, back, y);
    AbandonedFails(y, z, w', id, mark, fail);
  }

  /** Escrow events move the purchase, and end the shared session except when it is claimed. */
  lemma EventsTell(w: World, id: string, e: Event, now: int)
    requires id in w.purchases
    ensures var p, w' := w.purchases[id], Observed(w, id, e, now);
      && w'.payments == w.payments && w'.hands == w.hands
      && w'.purchases[id] == p.(state :=
           match e case Claimed => Completed case WasDisputed => InDispute case WasResolved => Settled
             case WasWithdrawn => Refunded)
      && (p.drawdown && p.session in w.ledger.mem ==>
            w'.ledger.mem[p.session].status ==
              match e case Claimed => w.ledger.mem[p.session].status case WasDisputed => Disputed
                case WasResolved => Resolved case WasWithdrawn => Closed)
      && (!p.drawdown ==> w'.ledger == w.ledger)
  {
  }

  /** A manual release the rail accepts is paid once, its draw is stamped, and the purchase is
      completed. */
  lemma HandCompletesPaid(w: World, n: nat, call: Answer, record: Answer, complete: Answer)
    requires Base(w) && n in w.hands && w.hands[n].pc == HandCalling && w.purchases[w.hands[n].purchase].drawdown
    requires call.called && call.ok && record.tx != ""
    ensures var id := w.hands[n].purchase;
      var x := HandStep(w, n, call);
      && n in x.hands && x.hands[n] == Hand(id, HandRecording)
      && x.payments == w.payments + [Payment(id, w.purchases[id].session, w.purchases[id].amount)]
      && x.ledger == w.ledger && id in x.purchases
      && var y := HandStep(x, n, record);
      && n in y.hands && y.hands[n] == Hand(id, HandCompleting) && y.payments == x.payments && id in y.purchases
      && (w.purchases[id].session in w.ledger.mem ==> Stamped(y.ledger, w.purchases[id].session, id))
      && var z := HandStep(y, n, complete);
      && id in z.purchases && z.purchases[id].state == Completed && z.payments == x.payments && n !in z.hands
  {
    var id := w.hands[n].purchase;
    RecordedMoves(w.ledger, w.purchases[id].session, id, record.tx, record.now);
  }

  /** A restart stops every orchestration where it is, ends manual releases and reviews, and
      changes neither states nor payments nor files. */
  lemma RestartStops(w: World, w': World, id: string)
    requires Next(w, Restart, w') && id in w.purchases
    ensures id in w'.purchases && w'.hands == map[] && w'.reviews == map[] && w'.payments == w.payments
    ensures w'.ledger == State(w.ledger.disk, w.ledger.disk)
    ensures var p, p' := w.purchases[id], w'.purchases[id];
      p' == p.(pc := p'.pc) && p'.pc == if p.pc == NotStarted then NotStarted else Finished
  {
  }

  /** When the operator's verbs are open: a dispute while the escrow can still be frozen, a
      refund when nothing is under way, a manual release only of a purchase that waits, and a
      confirmation only of a purchase under review, once. */
  lemma VerbsAreOffered(w: World, id: string, n: nat, token: string, now: int)
    requires n !in w.hands
    ensures (exists w' :: Next(w, Dispute(id, true, now), w')) <==>
      id in w.purchases && w.purchases[id].state in {InSession, AwaitReceipt, AwaitRelease, Disputable}
    ensures (exists w' :: Next(w, Refund(id, true, now), w')) <==>
      id in w.purchases && w.purchases[id].state in {AwaitRelease, Disputable, Failed}
    ensures (exists w' :: Next(w, StartByHand(n, id), w')) <==>
      id in w.purchases && w.purchases[id].state == AwaitRelease
    ensures (exists w' :: Next(w, Confirm(token), w')) <==>
      token in w.reviews && w.reviews[token] in w.purchases && w.purchases[w.reviews[token]].state == PendingReview
  {
    if id in w.purchases {
      assert w.purchases[id].state in {InSession, AwaitReceipt, AwaitRelease, Disputable} ==>
        Next(w, Dispute(id, true, now), Observed(w, id, WasDisputed, now));
      assert w.purchases[id].state in {AwaitRelease, Disputable, Failed} ==>
        Next(w, Refund(id, true, now), Observed(w, id, WasWithdrawn, now));
      assert w.purchases[id].state == AwaitRelease ==>
        Next(w, StartByHand(n, id), w.(hands := w.hands[n := Hand(id, HandCalling)]));
    }
    if token in w.reviews && w.reviews[token] in w.purchases {
      var q := w.reviews[token];
      assert w.purchases[q].state == PendingReview ==>
        Next(w, Confirm(token), With(w, q, Confirmed(w.purchases[q])).(reviews := w.reviews - {token}));
    }
  }

  /** A verb the rail refuses changes nothing; a confirmed purchase is queued and its token is
      spent. */
  lemma VerbsTell(w: World, id: string, token: string, now: int, w': World)
    ensures Next(w, Dispute(id, false, now), w') || Next(w, Refund(id, false, now), w') ==> w' == w
    ensures Next(w, Confirm(token), w') ==>
      && token in w.reviews && token !in w'.reviews && w.reviews[token] in w'.purchases
      && var p' := w'.purchases[w.reviews[token]];
      && p'.state == Queued && p'.pc == Starting && p'.deal == w.purchases[w.reviews[token]].deal
  {
  }

  /** Reviews that have run out lose their tokens and nothing else; events can reach every
      purchase past its review and with a session, whatever became of it since it was listed. */
  lemma ReviewsAndEvents(w: World, expired: set<string>, id: string, e: Event, now: int)
    ensures forall w' :: Next(w, DropReviews(expired), w') ==>
      && w'.purchases == w.purchases && w'.ledger == w.ledger && w'.payments == w.payments
      && forall r :: r in w'.reviews <==> r in w.reviews && r !in expired
    ensures (exists w' :: Next(w, Observe(id, e, now), w')) <==>
      id in w.purchases && w.purchases[id].state != PendingReview && w.purchases[id].session != ""
  {
    if id in w.purchases && w.purchases[id].state != PendingReview && w.purchases[id].session != "" {
      assert Next(w, Observe(id, e, now), Observed(w, id, e, now));
    }
  }

  /** A session the rail lets the sweep withdraw from is closed and keeps its accounts; one it
      does not stays as it was. No purchase is touched, and nothing is paid. */
  lemma SweepTells(w: World, s: string, ok: bool, now: int, w': World)
    requires Next(w, Sweep(s, ok, now), w')
    ensures s in w.ledger.mem && s in w'.ledger.mem && w'.purchases == w.purchases && w'.payments == w.payments
    ensures var a, b := w.ledger.mem[s], w'.ledger.mem[s];
      && b.status == (if ok then Closed else a.status) && b.draws == a.draws && b.drawn == a.drawn
      && b.budget == a.budget
    ensures ok ==> s in w'.ledger.disk && w'.ledger.disk[s] == w'.ledger.mem[s]
    ensures !ok ==> w' == w
  {
  }

  /** A new purchase stands for its deal; it starts at once, or waits for its review. */
  lemma BeginTells(w: World, id: string, deal: Handshake.Purchase, amount: int, review: Option<string>, w': World)
    requires Next(w, Begin(id, deal, amount, review), w')
    ensures id in w'.purchases && amount > 0 && ParseInt(deal.amount) == Some(amount)
    ensures var p := w'.purchases[id];
      && p.deal == deal && p.amount == amount && p.drawdown == deal.drawdown && p.session == deal.session
      && p.attempts == 0 && p.opens == 0
      && (review.None? ==> p.state == Queued && p.pc == Starting && w'.reviews == w.reviews)
      && (review.Some? ==>
            && p.state == PendingReview && p.pc == NotStarted
            && review.value !in w.reviews && w'.reviews == w.reviews[review.value := id])
  {
    ParseIntRoundTrip(amount);
  }
}
