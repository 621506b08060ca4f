/** What an operator has to mind: how careful use of the manual release rules out every
    hazard, and why no less care would do. */
module Operator {
  import opened Text
  import opened Ledger
  import opened Purchases
  import Handshake

  // ----- Care

  /** Some manual release is under way for `id`. */
  ghost predicate HasHand(w: World, id: string) {
    exists n :: n in w.hands && w.hands[n].purchase == id
  }

  /** The deferred rollback of `id` is still to come and would find its draw pending. */
  ghost predicate RollbackReaches(w: World, id: string)
    requires id in w.purchases
  {
    var p := w.purchases[id];
    p.pc in {Unwinding, RollingBack} && p.home in w.ledger.mem && !Stamped(w.ledger, p.home, id)
  }

  /** Calls are counted of every purchase, payments of the drawdown ones. */
  predicate IsCounted(p: Purchase, c: Count) {
    c == Calls || p.drawdown
  }

  /** A manual release of `id` is under way that may call the rail, or has called it
      (respectively has been paid). */
  ghost predicate MayRepeat(w: World, id: string, c: Count)
    requires id in w.purchases
  {
    && IsCounted(w.purchases[id], c)
    && exists n :: n in w.hands && w.hands[n].purchase == id && (w.hands[n].pc == HandCalling || Times(w, id, c) > 0)
  }

  /** The operator starts a manual release only when no other one of that purchase may call
      the rail, or has, and no rollback can reach its draw any more; and the program is
      stopped only when no purchase waits whose manual release has called the rail. When
      payments are counted, a call that was refused does not matter. */
  ghost predicate Careful(w: World, step: Step, c: Count) {
    match step
    case StartByHand(n, id) => id in w.purchases && !MayRepeat(w, id, c) && !RollbackReaches(w, id)
    case Restart =>
      forall n :: n in w.hands && w.hands[n].purchase in w.purchases ==>
        (w.purchases[w.hands[n].purchase].state == AwaitRelease ==> Times(w, w.hands[n].purchase, c) == 0)
    case _ => true
  }

  // ----- Draws stay out of reach

  /** A refused call was not paid, and a paid draw that a rollback could still reach carries
      its tx. */
  ghost predicate StampOk(w: World, id: string)
    requires id in w.purchases
  {
    var p := w.purchases[id];
    IsPaid(w, id) ==>
      && p.pc != ReleaseRefused
      && (p.pc == Completing && p.home in w.ledger.mem ==> Stamped(w.ledger, p.home, id))
      && !RollbackReaches(w, id)
  }

  /** A manual release about to call finds its draw, out of reach of rollbacks. */
  ghost predicate HandOk(w: World, h: Hand) {
    && h.purchase in w.purchases
    && var p := w.purchases[h.purchase];
    h.pc == HandCalling && p.drawdown ==>
      Booked(w.ledger, p.home, h.purchase, p.amount) && !RollbackReaches(w, h.purchase)
  }

  ghost predicate ReachOk(w: World) {
    && Inv(w)
    && (forall id :: id in w.purchases ==> StampOk(w, id))
    && (forall n :: n in w.hands ==> HandOk(w, w.hands[n]))
  }

  lemma ReachIsBooked(w: World, step: Step)
    requires ReachOk(w)
    ensures !Unbooks(w, step)
  {
    if step.ByHand? && step.n in w.hands {
      assert HandOk(w, w.hands[step.n]);
    }
    if step.Orchestrate? && step.id in w.purchases {
      assert StampOk(w, step.id);
    }
  }

  /** The purchases other than `id` stay in order. */
  lemma OthersStamped(w: World, w': World, id: string, q: string)
    requires OthersSame(w, w', id) && PaymentsMove(w, w', id) && Moves(w.ledger, w'.ledger, id)
    requires q in w.purchases && q != id && StampOk(w, q) && SettledOk(w, q)
    requires IsPaid(w, q) ==> w.purchases[q].drawdown
    ensures StampOk(w', q)
  {
    PaidSame(w, w', id, q);
  }

  /** Manual releases go on or end. */
  ghost predicate HandsGoOn(w: World, w': World, id: string) {
    forall n :: n in w'.hands ==>
      && n in w.hands
      && (w'.hands[n] == w.hands[n]
          || (w.hands[n].purchase == w'.hands[n].purchase == id && w'.hands[n].pc != HandCalling))
  }

  lemma FramedReach(w: World, w': World, id: string)
    requires ReachOk(w) && Inv(w') && OthersSame(w, w', id) && PaymentsMove(w, w', id) && Moves(w.ledger, w'.ledger, id)
    requires StampOk(w', id) && HandsGoOn(w, w', id)
    requires forall n :: n in w'.hands && w'.hands[n].purchase == id ==> HandOk(w', w'.hands[n])
    ensures ReachOk(w')
  {
    FramedStamps(w, w', id);
    FramedHands(w, w', id);
  }

  lemma FramedStamps(w: World, w': World, id: string)
    requires ReachOk(w) && OthersSame(w, w', id) && PaymentsMove(w, w', id) && Moves(w.ledger, w'.ledger, id)
    requires StampOk(w', id)
    ensures forall q :: q in w'.purchases ==> StampOk(w', q)
  {
    forall q | q in w'.purchases ensures StampOk(w', q) {
      if q != id {
        assert StampOk(w, q) && SettledOk(w, q);
        if IsPaid(w, q) {
          PaidIsDrawdown(w, q);
        }
        OthersStamped(w, w', id, q);
      }
    }
  }

  lemma FramedHands(w: World, w': World, id: string)
    requires forall n :: n in w.hands ==> HandOk(w, w.hands[n])
    requires OthersSame(w, w', id) && Moves(w.ledger, w'.ledger, id) && HandsGoOn(w, w', id)
    requires forall n :: n in w'.hands && w'.hands[n].purchase == id ==> HandOk(w', w'.hands[n])
    ensures forall n :: n in w'.hands ==> HandOk(w', w'.hands[n])
  {
    forall n | n in w'.hands && w'.hands[n].purchase != id ensures HandOk(w', w'.hands[n]) {
      OthersHand(w, w', id, w.hands[n]);
    }
  }

  lemma OthersHand(w: World, w': World, id: string, h: Hand)
    requires HandOk(w, h) && h.purchase != id && OthersSame(w, w', id) && Moves(w.ledger, w'.ledger, id)
    ensures HandOk(w', h)
  {
  }

  // ----- The orchestration

  lemma AdvanceKeepsReach(w: World, id: string, a: Answer)
    requires ReachOk(w) && id in w.purchases && a.tx != ""
    ensures ReachOk(Advance(w, id, a))
  {
    var w' := Advance(w, id, a);
    ReachIsBooked(w, Orchestrate(id, a));
    AdvanceKeepsInv(w, id, a);
    AdvanceFrame(w, id, a);
    AdvanceStamps(w, id, a);
    forall n | n in w.hands && w.hands[n].purchase == id ensures HandOk(w', w.hands[n]) {
      AdvanceHand(w, id, a, w.hands[n]);
    }
    FramedReach(w, w', id);
  }

  /** A manual release of the purchase waits for nothing the orchestration has left to do. */
  lemma AdvanceHand(w: World, id: string, a: Answer, h: Hand)
    requires GoodBooks(w.ledger) && id in w.purchases && a.tx != "" && Rests(w.purchases[id])
    requires HandOk(w, h) && h.purchase == id
    ensures HandOk(Advance(w, id, a), h)
  {
    var p := w.purchases[id];
    if p.pc == RollingBack {
      RollbackStep(w, id, a);
      RollbackMoves(w.ledger, p.home, id, a.now);
    } else {
      RestingStep(w, id, a);
    }
  }

  lemma RestingStep(w: World, id: string, a: Answer)
    requires id in w.purchases && w.purchases[id].pc in {Unwinding, Finished}
    ensures var w', p := Advance(w, id, a), w.purchases[id];
      w' == With(w, id, p.(pc := w'.purchases[id].pc)) && w'.purchases[id].pc in {RollingBack, Finished}
      && (p.pc == Finished ==> w'.purchases[id].pc == Finished)
  {
    assert w.(ledger := w.ledger) == w;
  }

  lemma AdvanceFrame(w: World, id: string, a: Answer)
    requires Base(w) && id in w.purchases && a.tx != ""
    ensures var w' := Advance(w, id, a);
      OthersSame(w, w', id) && PaymentsMove(w, w', id) && Moves(w.ledger, w'.ledger, id) && w'.hands == w.hands
  {
    var p := w.purchases[id];
    var p' := NextRecord(w.functions, p, a, p.home in w.ledger.mem);
    if p.pc == Releasing && a.called {
      CallRecord(w.functions, p, a, p.home in w.ledger.mem);
      BooksHold(w, id, p');
      ReleaseBase(w, id, p', a.ok);
      SameMoves(w.ledger, id);
    } else {
      AdvanceMoves(w, id, a, p');
    }
  }

  /** Where the orchestration of a called purchase goes on. */
  ghost predicate GoesOnTo(pc: Pc, pc': Pc) {
    match pc
    case Recording => pc' == Completing
    case Completing => pc' in {Unwinding, Finished}
    case Unwinding => pc' in {RollingBack, Finished}
    case RollingBack => pc' == Finished
    case Finished => pc' == Finished
    case _ => false
  }

  lemma CalledPc(f: Handshake.Functions, p: Purchase, a: Answer, known: bool)
    requires PurchaseOk(p) && p.attempts > 0 && p.pc != ReleaseRefused
    ensures var p' := NextRecord(f, p, a, known); GoesOnTo(p.pc, p'.pc) && p'.home == p.home
  {
  }

  lemma AdvanceStamps(w: World, id: string, a: Answer)
    requires ReachOk(w) && id in w.purchases && a.tx != ""
    ensures StampOk(Advance(w, id, a), id)
  {
    var p := w.purchases[id];
    assert StampOk(w, id) && PurchaseOk(p);
    if p.pc == Releasing && a.called {
      CallStamps(w, id, a);
    } else {
      AdvanceSamePaid(w, id, a);
      if IsPaid(w, id) {
        PaidIsDrawdown(w, id);
        CalledPc(w.functions, p, a, p.home in w.ledger.mem);
        CalledStamps(w, id, a, NextRecord(w.functions, p, a, p.home in w.ledger.mem));
      }
    }
  }

  lemma AdvanceSamePaid(w: World, id: string, a: Answer)
    requires id in w.purchases && !(w.purchases[id].pc == Releasing && a.called)
    ensures var w' := Advance(w, id, a); w'.payments == w.payments && (IsPaid(w', id) <==> IsPaid(w, id))
  {
  }

  /** The call of the orchestration: when it is paid, the record comes next. */
  lemma CallStamps(w: World, id: string, a: Answer)
    requires PaymentsOk(w) && id in w.purchases && PurchaseOk(w.purchases[id])
    requires w.purchases[id].pc == Releasing && a.called
    ensures StampOk(Advance(w, id, a), id)
  {
    NoAttemptNoPay(w, id);
    var w' := Advance(w, id, a);
    assert w'.purchases[id].pc == if a.ok then Recording else ReleaseRefused;
    if !a.ok {
      assert w'.payments == w.payments;
      assert !IsPaid(w', id);
    }
  }

  lemma PaidIsDrawdown(w: World, id: string)
    requires PaymentsOk(w) && IsPaid(w, id)
    ensures id in w.purchases && w.purchases[id].drawdown && w.purchases[id].attempts > 0
  {
    var i :| 0 <= i < |w.payments| && w.payments[i].purchase == id;
    assert PaymentOk(w, w.payments[i]);
  }

  lemma CalledStamps(w: World, id: string, a: Answer, p': Purchase)
    requires GoodBooks(w.ledger) && id in w.purchases && a.tx != "" && IsPaid(w, id) && StampOk(w, id)
    requires var p := w.purchases[id];
      p.drawdown && GoesOnTo(p.pc, p'.pc) && p'.home == p.home && (p.pc == Recording ==> p.session == p.home)
    ensures StampOk(With(w.(ledger := LedgerAfter(w.ledger, id, w.purchases[id], a)), id, p'), id)
  {
    var p := w.purchases[id];
    var st := LedgerAfter(w.ledger, id, p, a);
    if p.pc == Recording {
      RecordedStamps(w.ledger, p.session, id, a.tx, a.now);
    } else if p.pc == Completing || p.pc == Unwinding {
      assert st == w.ledger;
    }
    StampsWith(w, st, id, p');
  }

  lemma RecordedStamps(st: State, session: string, id: string, tx: string, now: int)
    requires GoodBooks(st) && tx != ""
    ensures var st' := Recorded(st, session, id, tx, now); session in st'.mem ==> Stamped(st', session, id)
  {
    RecordedMoves(st, session, id, tx, now);
  }

  lemma StampsWith(w: World, st: State, id: string, p': Purchase)
    requires p'.pc != ReleaseRefused
    requires p'.pc in {Completing, Unwinding, RollingBack} && p'.home in st.mem ==> Stamped(st, p'.home, id)
    ensures StampOk(With(w.(ledger := st), id, p'), id)
  {
  }

  // ----- Manual releases

  lemma HandKeepsReach(w: World, n: nat, a: Answer, w': World)
    requires ReachOk(w) && n in w.hands && a.tx != "" && w' == HandStep(w, n, a)
    ensures ReachOk(w')
  {
    ReachIsBooked(w, ByHand(n, a));
    HandKeepsInv(w, n, a);
    HandFrame(w, n, a);
    HandStamps(w, n, a);
    HandsAfterGoOn(w, w', n, a);
    forall m | m in w'.hands && w'.hands[m].purchase == w.hands[n].purchase ensures HandOk(w', w'.hands[m]) {
      if m != n {
        HandOthers(w, n, a, m);
      }
    }
    FramedReach(w, w', w.hands[n].purchase);
  }

  lemma HandsAfterGoOn(w: World, w': World, n: nat, a: Answer)
    requires n in w.hands && w'.hands == HandsAfter(w.hands, n, a)
    ensures HandsGoOn(w, w', w.hands[n].purchase)
    ensures n in w'.hands ==> w'.hands[n].pc != HandCalling
    ensures forall m :: m != n ==> (m in w'.hands <==> m in w.hands) && (m in w.hands ==> w'.hands[m] == w.hands[m])
    ensures n in w'.hands <==> w.hands[n].pc in {HandCalling, HandRecording}
  {
  }

  /** Where one manual release takes a step, the others of its purchase stay in order. */
  lemma HandOthers(w: World, n: nat, a: Answer, m: nat)
    requires ReachOk(w) && n in w.hands && a.tx != ""
    requires m in w.hands && m != n && w.hands[m].purchase == w.hands[n].purchase
    ensures HandOk(HandStep(w, n, a), w.hands[m])
  {
    assert HandOk(w, w.hands[m]);
    HandReach(w, n, a);
  }

  /** The step of a manual release brings no draw into reach and takes none away. */
  lemma HandReach(w: World, n: nat, a: Answer)
    requires Base(w) && n in w.hands && a.tx != ""
    ensures var id, w' := w.hands[n].purchase, HandStep(w, n, a);
      && id in w'.purchases && (RollbackReaches(w', id) ==> RollbackReaches(w, id))
      && SameDraw(w.purchases[id], w'.purchases[id])
      && (forall s, k :: Booked(w.ledger, s, id, k) <==> Booked(w'.ledger, s, id, k))
  {
    HandStepIs(w, n, a);
    HandLedgerReach(w, w.hands[n].purchase, w.hands[n].pc, a);
    assert PurchaseOk(w.purchases[w.hands[n].purchase]);
  }

  predicate SameDraw(p: Purchase, p': Purchase) {
    p'.home == p.home && p'.amount == p.amount && p'.drawdown == p.drawdown && p'.pc == p.pc
  }

  lemma HandStepIs(w: World, n: nat, a: Answer)
    requires n in w.hands && w.hands[n].purchase in w.purchases
    ensures var Hand(id, pc) := w.hands[n];
      var w' := HandStep(w, n, a);
      && id in w'.purchases && SameDraw(w.purchases[id], w'.purchases[id])
      && w'.ledger == HandLedger(w.ledger, id, w.purchases[id], pc, a)
  {
  }

  lemma HandLedgerReach(w: World, id: string, pc: HandPc, a: Answer)
    requires GoodBooks(w.ledger) && id in w.purchases && Rests(w.purchases[id]) && a.tx != ""
    ensures var p, st := w.purchases[id], HandLedger(w.ledger, id, w.purchases[id], pc, a);
      && st.mem.Keys == w.ledger.mem.Keys
      && (p.drawdown && p.home in st.mem && Stamped(w.ledger, p.home, id) ==> Stamped(st, p.home, id))
      && (!p.drawdown ==> st == w.ledger)
      && (forall s, k :: Booked(w.ledger, s, id, k) <==> Booked(st, s, id, k))
  {
    var p := w.purchases[id];
    if pc == HandRecording && p.drawdown {
      RecordedMoves(w.ledger, p.session, id, a.tx, a.now);
    }
  }

  lemma HandStamps(w: World, n: nat, a: Answer)
    requires ReachOk(w) && n in w.hands && a.tx != ""
    ensures StampOk(HandStep(w, n, a), w.hands[n].purchase)
  {
    var id := w.hands[n].purchase;
    assert HandOk(w, w.hands[n]) && StampOk(w, id);
    HandReach(w, n, a);
    HandPays(w, n, a);
  }

  /** After the step of a manual release its purchase is paid if it was before, or if the
      step was a call that is paid. */
  lemma HandPays(w: World, n: nat, a: Answer)
    requires n in w.hands && w.hands[n].purchase in w.purchases
    ensures IsPaid(HandStep(w, n, a), w.hands[n].purchase) ==>
      || IsPaid(w, w.hands[n].purchase)
      || (w.hands[n].pc == HandCalling && w.purchases[w.hands[n].purchase].drawdown)
  {
  }

  lemma HandFrame(w: World, n: nat, a: Answer)
    requires Base(w) && n in w.hands && a.tx != ""
    ensures var id, w' := w.hands[n].purchase, HandStep(w, n, a);
      && OthersSame(w, w', id) && PaymentsMove(w, w', id) && Moves(w.ledger, w'.ledger, id)
      && w'.hands == HandsAfter(w.hands, n, a)
  {
    var Hand(id, pc) := w.hands[n];
    if pc == HandCalling && a.called {
      CallByHand(w, id);
      ReleaseBase(w, id, w.purchases[id], a.ok);
      SameMoves(w.ledger, id);
    } else {
      HandGoesOnFrame(w, n, a);
    }
  }

  lemma HandGoesOnFrame(w: World, n: nat, a: Answer)
    requires Base(w) && n in w.hands && a.tx != "" && !(w.hands[n].pc == HandCalling && a.called)
    ensures var id, w' := w.hands[n].purchase, HandStep(w, n, a);
      OthersSame(w, w', id) && w'.payments == w.payments && Moves(w.ledger, w'.ledger, id)
  {
    HandMoves(w, w.hands[n].purchase, w.purchases[w.hands[n].purchase], w.hands[n].pc, a);
  }

  // ----- The other steps

  lemma ObservedFrame(w: World, id: string, e: Event, now: int)
    requires Base(w) && id in w.purchases && w.purchases[id].state != PendingReview
    ensures var w' := Observed(w, id, e, now);
      && OthersSame(w, w', id) && w'.payments == w.payments && w'.hands == w.hands
      && Moves(w.ledger, w'.ledger, id) && SameBooks(w.ledger, w'.ledger)
  {
    ObservedRecord(w.purchases[id], e);
    EventLedgerMoves(w.ledger, id, w.purchases[id], e, now);
  }

  /** The books of `id` are the same, and its record changes at most its state. */
  lemma SameReach(w: World, w': World, id: string, state: PurchaseState)
    requires id in w.purchases && id in w'.purchases && w'.purchases[id] == w.purchases[id].(state := state)
    requires w'.payments == w.payments && SameBooks(w.ledger, w'.ledger)
    ensures StampOk(w, id) ==> StampOk(w', id)
    ensures forall h: Hand :: h.purchase == id && HandOk(w, h) ==> HandOk(w', h)
  {
    assert IsPaid(w', id) == IsPaid(w, id);
  }

  lemma ObservedKeepsReach(w: World, id: string, e: Event, now: int)
    requires ReachOk(w) && id in w.purchases && w.purchases[id].state != PendingReview
    ensures ReachOk(Observed(w, id, e, now))
  {
    var w' := Observed(w, id, e, now);
    ObservedKeepsInv(w, id, e, now);
    ObservedFrame(w, id, e, now);
    SameReach(w, w', id, StateAfter(e));
    FramedReach(w, w', id);
  }

  lemma StartKeepsReach(w: World, n: nat, id: string, w': World)
    requires ReachOk(w) && Next(w, StartByHand(n, id), w') && !RollbackReaches(w, id)
    ensures ReachOk(w')
  {
    StepIsStill(w, StartByHand(n, id), w');
    StillInv(w, w');
    assert SettledOk(w, id);
    assert HandOk(w, Hand(id, HandCalling));
    SameWorldReach(w, w');
  }

  /** Only the manual releases under way change, and each of them is in order. */
  lemma SameWorldReach(w: World, w': World)
    requires ReachOk(w) && Inv(w') && w' == w.(hands := w'.hands)
    requires forall n :: n in w'.hands ==> HandOk(w, w'.hands[n])
    ensures ReachOk(w')
  {
    forall id | id in w'.purchases ensures StampOk(w', id) {
      assert StampOk(w, id) && IsPaid(w', id) == IsPaid(w, id);
    }
  }

  lemma StillKeepsReach(w: World, step: Step, w': World)
    requires ReachOk(w) && Next(w, step, w') && (step.DropReviews? || step.Sweep?)
    ensures ReachOk(w')
  {
    StepIsStill(w, step, w');
    StillInv(w, w');
    SameLedgerBooks(w.ledger);
    if step.Sweep? && step.ok {
      EndedMoves(w.ledger, step.session, Closed, step.now, "");
    }
    SameBooksReach(w, w');
  }

  lemma SameLedgerBooks(st: State)
    ensures SameBooks(st, st)
  {
  }

  lemma SameBooksReach(w: World, w': World)
    requires ReachOk(w) && Inv(w') && w'.purchases == w.purchases && w'.payments == w.payments && w'.hands == w.hands
    requires SameBooks(w.ledger, w'.ledger)
    ensures ReachOk(w')
  {
    forall id | id in w'.purchases ensures StampOk(w', id) {
      assert StampOk(w, id);
      SameReach(w, w', id, w.purchases[id].state);
    }
    forall n | n in w'.hands ensures HandOk(w', w'.hands[n]) {
      assert HandOk(w, w.hands[n]);
      SameReach(w, w', w.hands[n].purchase, w.purchases[w.hands[n].purchase].state);
    }
  }

  lemma RestartKeepsReach(w: World, w': World)
    requires ReachOk(w) && Next(w, Restart, w')
    ensures ReachOk(w')
  {
    RestartKeepsInv(w, w');
    forall id | id in w'.purchases ensures StampOk(w', id) {
      StoppedIsStamped(w', id, w.purchases[id]);
    }
  }

  lemma StoppedIsStamped(w: World, id: string, p: Purchase)
    requires id in w.purchases && w.purchases[id] == Stopped(p)
    ensures StampOk(w, id)
  {
    assert w.purchases[id].pc in {NotStarted, Finished};
  }

  /** A purchase that made no release call and that no manual release works on moves on. */
  lemma NewcomerKeepsReach(w: World, w': World, id: string)
    requires ReachOk(w) && Inv(w') && OthersSame(w, w', id) && w'.payments == w.payments && w'.hands == w.hands
    requires Moves(w.ledger, w'.ledger, id) && w'.purchases[id].attempts == 0
    requires id in w.purchases ==> !Rests(w.purchases[id])
    ensures ReachOk(w')
  {
    NoAttemptNoPay(w', id);
    FramedReach(w, w', id);
  }

  lemma AcquireFrame(w: World, id: string, q: Request, g: Grant, w': World)
    requires Base(w) && AcquireStep(w, id, q, g, w')
    ensures OthersSame(w, w', id) && w'.payments == w.payments && w'.hands == w.hands
    ensures Moves(w.ledger, w'.ledger, id) && w'.purchases[id].attempts == 0 && !Rests(w.purchases[id])
  {
    AcquireBooks(w, id, q, g, w');
    AcquireRecord(w, id, q, g, w');
  }

  lemma AcquireRecord(w: World, id: string, q: Request, g: Grant, w': World)
    requires AcquireStep(w, id, q, g, w') && PurchaseOk(w.purchases[id])
    ensures OthersSame(w, w', id) && w'.payments == w.payments && w'.hands == w.hands
    ensures w'.purchases[id].attempts == 0 && !Rests(w.purchases[id])
  {
    GrantedOk(w.purchases[id], g);
  }

  lemma AcquireKeepsReach(w: World, id: string, q: Request, g: Grant, w': World)
    requires ReachOk(w) && AcquireStep(w, id, q, g, w')
    ensures ReachOk(w')
  {
    AcquireFrame(w, id, q, g, w');
    AcquireKeepsInv(w, id, q, g, w');
    NewcomerKeepsReach(w, w', id);
  }

  /** The purchase that a step of these kinds is about. */
  ghost function NewId(w: World, step: Step): string
    requires step.Begin? || step.Saturated? || (step.Confirm? && step.token in w.reviews)
  {
    if step.Confirm? then w.reviews[step.token] else step.id
  }

  /** A purchase that has made no call comes in, or on, and the others stay. */
  ghost predicate Arrives(w: World, w': World, id: string) {
    && OthersSame(w, w', id) && w'.payments == w.payments && w'.hands == w.hands && w'.ledger == w.ledger
    && var p' := w'.purchases[id];
    && p'.attempts == 0 && !InFlight(p') && p'.state != AwaitRelease
    && (id in w.purchases ==> !Rests(w.purchases[id]))
  }

  lemma BeginFrame(w: World, step: Step, w': World)
    requires Base(w) && Next(w, step, w') && (step.Begin? || step.Saturated? || step.Confirm?)
    ensures Arrives(w, w', NewId(w, step)) && Moves(w.ledger, w'.ledger, NewId(w, step))
  {
    SameMoves(w.ledger, NewId(w, step));
    if step.Confirm? {
      ConfirmArrives(w, w.reviews[step.token], w');
    } else {
      BeginIs(w, step, w');
      NewArrives(w, step.id, w'.purchases[step.id], w');
    }
  }

  lemma NewArrives(w: World, id: string, p: Purchase, w': World)
    requires id !in w.purchases && w' == With(w, id, p).(reviews := w'.reviews)
    requires p.attempts == 0 && !InFlight(p) && p.state != AwaitRelease
    ensures Arrives(w, w', id)
  {
  }

  lemma ConfirmArrives(w: World, id: string, w': World)
    requires id in w.purchases && PurchaseOk(w.purchases[id]) && w.purchases[id].state == PendingReview
    requires w' == With(w, id, Confirmed(w.purchases[id])).(reviews := w'.reviews)
    ensures Arrives(w, w', id)
  {
    ConfirmedOk(w.purchases[id]);
  }

  lemma BeginKeepsReach(w: World, step: Step, w': World)
    requires ReachOk(w) && Next(w, step, w') && (step.Begin? || step.Saturated? || step.Confirm?)
    ensures ReachOk(w')
  {
    ReachIsBooked(w, step);
    NextKeepsInv(w, step, w');
    BeginFrame(w, step, w');
    NewcomerKeepsReach(w, w', NewId(w, step));
  }

  lemma NextKeepsReach(w: World, step: Step, w': World)
    requires ReachOk(w) && Next(w, step, w') && (step.StartByHand? ==> !RollbackReaches(w, step.id))
    ensures ReachOk(w')
  {
    match step {
      case Orchestrate(id, a) => AdvanceKeepsReach(w, id, a);
      case AcquireSession(id, q, g) => AcquireKeepsReach(w, id, q, g, w');
      case Dispute(id, ok, now) => ObservedKeepsReach(w, id, WasDisputed, now);
      case Refund(id, ok, now) => ObservedKeepsReach(w, id, WasWithdrawn, now);
      case Observe(id, e, now) => ObservedKeepsReach(w, id, e, now);
      case StartByHand(n, id) => StartKeepsReach(w, n, id, w');
      case ByHand(n, a) => HandKeepsReach(w, n, a, w');
      case Restart => RestartKeepsReach(w, w');
      case DropReviews(expired) => StillKeepsReach(w, step, w');
      case Sweep(s, ok, now) => StillKeepsReach(w, step, w');
      case _ => BeginKeepsReach(w, step, w');
    }
  }

  // ----- Nothing is repeated

  /** A purchase that still waits although it was called for (or paid) is in the hands of the
      operator. */
  ghost predicate WaitOk(w: World, id: string, c: Count)
    requires id in w.purchases
  {
    w.purchases[id].state == AwaitRelease && Times(w, id, c) > 0 ==> HasHand(w, id)
  }

  /** A manual release about to call is the first to do so, and the only one. */
  ghost predicate FirstToCall(w: World, n: nat, c: Count)
    requires n in w.hands && w.hands[n].purchase in w.purchases
  {
    var id := w.hands[n].purchase;
    w.hands[n].pc == HandCalling ==>
      && Times(w, id, c) == 0
      && (IsCounted(w.purchases[id], c) ==> forall m :: m in w.hands && w.hands[m] == w.hands[n] ==> m == n)
  }

  ghost predicate CountOk(w: World, c: Count) {
    && Base(w)
    && (forall id :: id in w.purchases ==> WaitOk(w, id, c))
    && (forall n :: n in w.hands ==> FirstToCall(w, n, c))
  }

  lemma CountIsFirst(w: World, step: Step, c: Count)
    requires CountOk(w, c)
    ensures !Repeats(w, step, c)
  {
    if step.ByHand? && step.n in w.hands {
      assert FirstToCall(w, step.n, c);
    }
  }

  /** A purchase comes to wait only when nothing was called for it. */
  lemma WaitArises(w: World, step: Step, w': World, id: string)
    requires Base(w) && Next(w, step, w') && id in w'.purchases && w'.purchases[id].state == AwaitRelease
    ensures id in w.purchases && (w.purchases[id].state == AwaitRelease || w.purchases[id].attempts == 0)
    ensures !(step.Orchestrate? && Happens(w, step, id, Calls))
    ensures step.ByHand? && w.hands[step.n].purchase == id ==> w.hands[step.n].pc in {HandCalling, HandRecording}
  {
    assert id in w.purchases ==> PurchaseOk(w.purchases[id]);
    if step.Orchestrate? {
      AdvanceWaits(w, step.id, step.a, id);
    } else if step.ByHand? {
      HandWaits(w, step.n, step.a, id);
    } else {
      VerbWaits(w, step, w', id);
    }
  }

  lemma AdvanceWaits(w: World, id: string, a: Answer, q: string)
    requires id in w.purchases && q in w.purchases && PurchaseOk(w.purchases[q])
    requires q in Advance(w, id, a).purchases && Advance(w, id, a).purchases[q].state == AwaitRelease
    ensures w.purchases[q].state == AwaitRelease || w.purchases[q].attempts == 0
    ensures !Happens(w, Orchestrate(id, a), q, Calls)
  {
  }

  lemma HandWaits(w: World, n: nat, a: Answer, q: string)
    requires n in w.hands && w.hands[n].purchase in w.purchases
    requires q in HandStep(w, n, a).purchases && HandStep(w, n, a).purchases[q].state == AwaitRelease
    ensures q in w.purchases && w.purchases[q].state == AwaitRelease
    ensures w.hands[n].purchase == q ==> w.hands[n].pc in {HandCalling, HandRecording}
  {
  }

  lemma VerbWaits(w: World, step: Step, w': World, q: string)
    requires Next(w, step, w') && !step.Orchestrate? && !step.ByHand?
    requires q in w.purchases ==> PurchaseOk(w.purchases[q])
    requires q in w'.purchases && w'.purchases[q].state == AwaitRelease
    ensures q in w.purchases && w.purchases[q].state == AwaitRelease
  {
    if q in w.purchases {
      VerbRecord(w, step, w', q);
    } else {
      NewIsUncounted(w, step, w', q);
      BeginIs(w, step, w');
    }
  }

  /** What a step other than the start of a manual release or a restart does to the manual
      releases. */
  lemma HandsOf(w: World, step: Step, w': World)
    requires Next(w, step, w') && !step.StartByHand? && !step.Restart?
    ensures step.ByHand? ==> step.n in w.hands && w'.hands == HandsAfter(w.hands, step.n, step.a)
    ensures !step.ByHand? ==> w'.hands == w.hands
  {
  }

  lemma WaitStays(w: World, step: Step, w': World, id: string, c: Count)
    requires CountOk(w, c) && Base(w') && Next(w, step, w') && !step.StartByHand? && !step.Restart?
    requires id in w'.purchases
    ensures WaitOk(w', id, c)
  {
    if w'.purchases[id].state == AwaitRelease && Times(w', id, c) > 0 {
      WaitArises(w, step, w', id);
      StepCounts(w, step, w', id, c);
      UncalledIsUncounted(w, id, c);
      HandsOf(w, step, w');
      if Happens(w, step, id, c) {
        HandsAfterGoOn(w, w', step.n, step.a);
        assert step.n in w'.hands && w'.hands[step.n].purchase == id;
      } else {
        assert WaitOk(w, id, c);
        var n :| n in w.hands && w.hands[n].purchase == id;
        HandRemains(w, step, w', n);
        assert n in w'.hands && w'.hands[n].purchase == id;
      }
    }
  }

  /** A manual release of a purchase that still waits afterwards goes on. */
  lemma HandRemains(w: World, step: Step, w': World, n: nat)
    requires Next(w, step, w') && !step.StartByHand? && !step.Restart? && n in w.hands
    requires step.ByHand? && step.n == n ==> w.hands[n].pc in {HandCalling, HandRecording}
    ensures n in w'.hands && w'.hands[n].purchase == w.hands[n].purchase
  {
    HandsOf(w, step, w');
    if step.ByHand? {
      HandsAfterGoOn(w, w', step.n, step.a);
    }
  }

  lemma FirstStays(w: World, step: Step, w': World, n: nat, c: Count)
    requires CountOk(w, c) && Base(w') && Next(w, step, w') && !step.StartByHand? && !step.Restart? && n in w'.hands
    ensures FirstToCall(w', n, c)
  {
    HandsOf(w, step, w');
    if step.ByHand? {
      HandsAfterGoOn(w, w', step.n, step.a);
    }
    if w'.hands[n].pc == HandCalling {
      var id := w.hands[n].purchase;
      assert w'.hands[n] == w.hands[n] && FirstToCall(w, n, c);
      StepCounts(w, step, w', id, c);
      SameCounted(w, step, w', id, c);
      NoOtherCalls(w, step, w', n, c);
    }
  }

  lemma SameCounted(w: World, step: Step, w': World, id: string, c: Count)
    requires Next(w, step, w') && id in w.purchases && id in w'.purchases
    ensures IsCounted(w'.purchases[id], c) == IsCounted(w.purchases[id], c)
  {
    if step.Orchestrate? {
      AdvanceKeepsKind(w, step.id, step.a, id);
    } else if step.ByHand? {
      HandKeepsKind(w, step.n, step.a, id);
    } else {
      VerbRecord(w, step, w', id);
    }
  }

  lemma AdvanceKeepsKind(w: World, id: string, a: Answer, q: string)
    requires id in w.purchases && q in w.purchases
    ensures q in Advance(w, id, a).purchases && Advance(w, id, a).purchases[q].drawdown == w.purchases[q].drawdown
  {
    NextRecordKeeps(w.functions, w.purchases[id], a, w.purchases[id].home in w.ledger.mem);
  }

  lemma HandKeepsKind(w: World, n: nat, a: Answer, q: string)
    requires n in w.hands && w.hands[n].purchase in w.purchases && q in w.purchases
    ensures q in HandStep(w, n, a).purchases && HandStep(w, n, a).purchases[q].drawdown == w.purchases[q].drawdown
  {
  }

  /** While a manual release is about to call, no other step counts for its purchase. */
  lemma NoOtherCalls(w: World, step: Step, w': World, n: nat, c: Count)
    requires CountOk(w, c) && Next(w, step, w') && n in w.hands && w.hands[n].pc == HandCalling
    requires step.ByHand? ==> step.n != n
    ensures !Happens(w, step, w.hands[n].purchase, c)
  {
    assert FirstToCall(w, n, c);
    assert Rests(w.purchases[w.hands[n].purchase]);
  }

  lemma StartKeepsCount(w: World, n: nat, id: string, w': World, c: Count)
    requires CountOk(w, c) && Next(w, StartByHand(n, id), w') && !MayRepeat(w, id, c)
    ensures CountOk(w', c)
  {
    StepIsStill(w, StartByHand(n, id), w');
    forall q | q in w'.purchases ensures WaitOk(w', q, c) {
      StartWaits(w, w', n, q, c);
    }
    forall m | m in w'.hands ensures FirstToCall(w', m, c) {
      StartFirst(w, w', n, id, m, c);
    }
  }

  lemma StartWaits(w: World, w': World, n: nat, q: string, c: Count)
    requires q in w.purchases && WaitOk(w, q, c)
    requires n !in w.hands && n in w'.hands && w' == w.(hands := w.hands[n := w'.hands[n]])
    ensures WaitOk(w', q, c)
  {
    if HasHand(w, q) {
      var m :| m in w.hands && w.hands[m].purchase == q;
      assert m in w'.hands && w'.hands[m].purchase == q;
    }
  }

  lemma StartFirst(w: World, w': World, n: nat, id: string, m: nat, c: Count)
    requires CountOk(w, c) && id in w.purchases && w.purchases[id].state == AwaitRelease && !MayRepeat(w, id, c)
    requires n !in w.hands && w' == w.(hands := w.hands[n := Hand(id, HandCalling)]) && m in w'.hands
    ensures w'.hands[m].purchase in w'.purchases && FirstToCall(w', m, c)
  {
    if m == n {
      assert WaitOk(w, id, c);
      if !IsCounted(w.purchases[id], c) {
        UncountedIsNever(w, id, c);
      }
    } else {
      assert FirstToCall(w, m, c);
    }
  }

  /** What is not counted never happens. */
  lemma UncountedIsNever(w: World, id: string, c: Count)
    requires PaymentsOk(w) && id in w.purchases && !IsCounted(w.purchases[id], c)
    ensures Times(w, id, c) == 0
  {
    PaidTimesIff(w.payments, id);
    if IsPaid(w, id) {
      PaidIsDrawdown(w, id);
    }
  }

  lemma RestartKeepsCount(w: World, w': World, c: Count)
    requires CountOk(w, c) && Next(w, Restart, w') && Careful(w, Restart, c)
    ensures CountOk(w', c)
  {
    RestartMoves(w, w');
    forall id | id in w'.purchases ensures WaitOk(w', id, c) {
      RestartWaits(w, id, c);
      StoppedCounts(w, w', id, c);
    }
  }

  lemma StoppedCounts(w: World, w': World, id: string, c: Count)
    requires id in w.purchases && id in w'.purchases && w'.purchases[id] == Stopped(w.purchases[id])
    requires w'.payments == w.payments
    ensures Times(w', id, c) == Times(w, id, c) && w'.purchases[id].state == w.purchases[id].state
  {
  }

  lemma RestartWaits(w: World, id: string, c: Count)
    requires CountOk(w, c) && Careful(w, Restart, c) && id in w.purchases
    ensures w.purchases[id].state == AwaitRelease ==> Times(w, id, c) == 0
  {
    assert WaitOk(w, id, c);
    if HasHand(w, id) {
      var n :| n in w.hands && w.hands[n].purchase == id;
      assert w.hands[n].purchase in w.purchases;
    }
  }

  lemma NextKeepsCount(w: World, step: Step, w': World, c: Count)
    requires CountOk(w, c) && Next(w, step, w') && Careful(w, step, c)
    ensures CountOk(w', c)
  {
    if step.StartByHand? {
      StartKeepsCount(w, step.n, step.id, w', c);
    } else if step.Restart? {
      RestartKeepsCount(w, w', c);
    } else {
      NextKeepsBase(w, step, w');
      forall id | id in w'.purchases ensures WaitOk(w', id, c) {
        WaitStays(w, step, w', id, c);
      }
      forall n | n in w'.hands ensures FirstToCall(w', n, c) {
        FirstStays(w, step, w', n, c);
      }
    }
  }

  // ----- Careful runs

  ghost predicate CarefulInv(w: World, c: Count) {
    ReachOk(w) && CountOk(w, c)
  }

  lemma CarefulIsNoHazard(w: World, step: Step, c: Count)
    requires CarefulInv(w, c)
    ensures !Hazard(w, step, c)
  {
    ReachIsBooked(w, step);
    CountIsFirst(w, step, c);
  }

  lemma NextKeepsCareful(w: World, step: Step, w': World, c: Count)
    requires CarefulInv(w, c) && Next(w, step, w') && Careful(w, step, c)
    ensures CarefulInv(w', c)
  {
    NextKeepsReach(w, step, w');
    NextKeepsCount(w, step, w', c);
  }

  lemma InitIsCareful(w: World, c: Count)
    requires Init(w)
    ensures CarefulInv(w, c)
  {
  }

  lemma {:induction false} CarefulRun(run: seq<World>, steps: seq<Step>, n: nat, c: Count)
    requires IsRun(run, steps) && n <= |steps| && forall i :: 0 <= i < n ==> Careful(run[i], steps[i], c)
    ensures CarefulInv(run[n], c)
  {
    if n == 0 {
      InitIsCareful(run[0], c);
    } else {
      CarefulRun(run, steps, n - 1, c);
      NextKeepsCareful(run[n - 1], steps[n - 1], run[n], c);
    }
  }

  /** With a careful operator no step is ever a hazard, however everything interleaves and
      whatever the rail answers. */
  lemma CarefulRunHasNoHazard(run: seq<World>, steps: seq<Step>, i: nat, c: Count)
    requires IsRun(run, steps) && i < |steps| && forall k :: 0 <= k < i ==> Careful(run[k], steps[k], c)
    ensures !Hazard(run[i], steps[i], c)
  {
    CarefulRun(run, steps, i, c);
    CarefulIsNoHazard(run[i], steps[i], c);
  }

  // ----- No less care would do

  const CALL := Answer(true, true, "tx", false, 0, "", None)

  /** Within `n` more careful steps a hazard can follow. */
  ghost predicate CanGoWrong(w: World, n: nat, c: Count)
    decreases n
  {
    exists step, w' ::
      Next(w, step, w') && Careful(w, step, c) && (Hazard(w, step, c) || (n > 0 && CanGoWrong(w', n - 1, c)))
  }

  lemma {:induction false} CarefulStaysRight(w: World, n: nat, c: Count)
    requires CarefulInv(w, c)
    ensures !CanGoWrong(w, n, c)
    decreases n
  {
    forall step, w' | Next(w, step, w') && Careful(w, step, c)
      ensures !Hazard(w, step, c) && (n > 0 ==> !CanGoWrong(w', n - 1, c))
    {
      CarefulIsNoHazard(w, step, c);
      if n > 0 {
        NextKeepsCareful(w, step, w', c);
        CarefulStaysRight(w', n - 1, c);
      }
    }
  }

  lemma ThenWrong(w: World, step: Step, w': World, n: nat, c: Count)
    requires Next(w, step, w') && Careful(w, step, c) && CanGoWrong(w', n, c)
    ensures CanGoWrong(w, n + 1, c)
  {
  }

  lemma NowWrong(w: World, step: Step, w': World, c: Count)
    requires Next(w, step, w') && Careful(w, step, c) && Hazard(w, step, c)
    ensures CanGoWrong(w, 0, c)
  {
  }

  /** The call of a manual release counts whatever is counted of its purchase. */
  lemma CallHappens(w: World, n: nat, c: Count)
    requires n in w.hands && w.hands[n].pc == HandCalling && w.hands[n].purchase in w.purchases
    requires IsCounted(w.purchases[w.hands[n].purchase], c)
    ensures Happens(w, ByHand(n, CALL), w.hands[n].purchase, c) && Next(w, ByHand(n, CALL), HandStep(w, n, CALL))
  {
  }

  lemma RepeatIsWrong(w: World, n: nat, c: Count)
    requires n in w.hands && w.hands[n].pc == HandCalling && w.hands[n].purchase in w.purchases
    requires IsCounted(w.purchases[w.hands[n].purchase], c) && Times(w, w.hands[n].purchase, c) > 0
    ensures CanGoWrong(w, 0, c)
  {
    CallHappens(w, n, c);
    NowWrong(w, ByHand(n, CALL), HandStep(w, n, CALL), c);
  }

  /** Two manual releases of one purchase that may both call the rail. */
  lemma TwoHandsGoWrong(w: World, m: nat, n: nat, c: Count)
    requires m in w.hands && n in w.hands && m != n && w.hands[m] == w.hands[n] && w.hands[m].pc == HandCalling
    requires w.hands[n].purchase in w.purchases && IsCounted(w.purchases[w.hands[n].purchase], c)
    ensures CanGoWrong(w, 1, c)
  {
    var w', id := HandStep(w, m, CALL), w.hands[n].purchase;
    CallHappens(w, m, c);
    HandCounts(w, m, CALL, id, c);
    assert w'.hands[n] == w.hands[n] && w'.purchases[id].drawdown == w.purchases[id].drawdown;
    RepeatIsWrong(w', n, c);
    ThenWrong(w, ByHand(m, CALL), w', 0, c);
  }

  lemma PaidRollbackIsWrong(w: World, id: string, c: Count)
    requires id in w.purchases && w.purchases[id].pc == RollingBack && IsPaid(w, id) && RollbackReaches(w, id)
    ensures CanGoWrong(w, 0, c)
  {
    NowWrong(w, Orchestrate(id, CALL), Advance(w, id, CALL), c);
  }

  /** A paid purchase goes into dispute, and the rollback still to come takes its draw out
      of the book. */
  lemma PaidDisputeGoesWrong(w: World, id: string, c: Count)
    requires Consistent(w.ledger) && id in w.purchases && RollbackReaches(w, id) && IsPaid(w, id)
    requires var p := w.purchases[id]; p.pc == Unwinding && p.state == AwaitRelease && p.session == p.home
    ensures CanGoWrong(w, 2, c)
  {
    var v := Observed(w, id, WasDisputed, 0);
    DisputeReaches(w, id);
    UnwindingGoesWrong(v, id, c);
    ThenWrong(w, Dispute(id, true, 0), v, 1, c);
  }

  lemma DisputeReaches(w: World, id: string)
    requires Consistent(w.ledger) && id in w.purchases && RollbackReaches(w, id)
    requires w.purchases[id].session == w.purchases[id].home
    ensures var v := Observed(w, id, WasDisputed, 0);
      && RollbackReaches(v, id) && v.payments == w.payments && v.purchases[id] == w.purchases[id].(state := InDispute)
  {
    DisputeKeepsDraws(w.ledger, w.purchases[id].session, id);
  }

  lemma UnwindingGoesWrong(w: World, id: string, c: Count)
    requires id in w.purchases && RollbackReaches(w, id) && IsPaid(w, id)
    requires w.purchases[id].pc == Unwinding && w.purchases[id].state == InDispute
    ensures CanGoWrong(w, 1, c)
  {
    var x := Advance(w, id, CALL);
    assert x == With(w.(ledger := w.ledger), id, w.purchases[id].(pc := RollingBack));
    assert IsPaid(x, id) == IsPaid(w, id);
    PaidRollbackIsWrong(x, id, c);
    ThenWrong(w, Orchestrate(id, CALL), x, 0, c);
  }

  lemma DisputeKeepsDraws(st: State, session: string, id: string)
    requires Consistent(st) && session in st.mem && !Stamped(st, session, id)
    ensures var t := Ended(st, session, Disputed, 0); session in t.mem && !Stamped(t, session, id)
  {
  }

  lemma RollbackGoesWrong(w: World, n: nat, id: string, c: Count)
    requires Base(w) && n in w.hands && w.hands[n] == Hand(id, HandCalling) && id in w.purchases
    requires w.purchases[id].state == AwaitRelease && RollbackReaches(w, id)
    ensures CanGoWrong(w, 3, c)
  {
    var u := HandStep(w, n, CALL);
    assert PurchaseOk(w.purchases[id]);
    assert u.payments[|w.payments|].purchase == id;
    PaidDisputeGoesWrong(u, id, c);
    ThenWrong(w, ByHand(n, CALL), u, 2, c);
  }

  /** A stop after the call: the purchase still waits, and can be released again. */
  lemma StopGoesWrong(w: World, w': World, id: string, c: Count)
    requires Base(w) && Next(w, Restart, w') && id in w.purchases && IsCounted(w.purchases[id], c)
    requires w.purchases[id].state == AwaitRelease && Times(w, id, c) > 0
    ensures CanGoWrong(w', 1, c)
  {
    StepCounts(w, Restart, w', id, c);
    assert PurchaseOk(w.purchases[id]) && w'.purchases[id] == Stopped(w.purchases[id]);
    WaitingGoesWrong(w', id, c);
  }

  lemma WaitingGoesWrong(w: World, id: string, c: Count)
    requires w.hands == map[] && id in w.purchases && IsCounted(w.purchases[id], c) && w.purchases[id].pc == Finished
    requires w.purchases[id].state == AwaitRelease && Times(w, id, c) > 0
    ensures CanGoWrong(w, 1, c)
  {
    var u := w.(hands := w.hands[0 := Hand(id, HandCalling)]);
    assert u.hands[0] == Hand(id, HandCalling);
    RepeatIsWrong(u, 0, c);
    ThenWrong(w, StartByHand(0, id), u, 0, c);
  }

  lemma StartGoesWrong(w: World, n: nat, id: string, w': World, c: Count)
    requires CarefulInv(w, c) && Next(w, StartByHand(n, id), w') && !Careful(w, StartByHand(n, id), c)
    ensures exists k :: CanGoWrong(w', k, c)
  {
    if MayRepeat(w, id, c) {
      MayRepeatGoesWrong(w, n, id, w', c);
    } else {
      StepIsStill(w, StartByHand(n, id), w');
      RollbackGoesWrong(w', n, id, c);
    }
  }

  lemma MayRepeatGoesWrong(w: World, n: nat, id: string, w': World, c: Count)
    requires id in w.purchases && MayRepeat(w, id, c) && n !in w.hands
    requires w' == w.(hands := w.hands[n := Hand(id, HandCalling)])
    ensures exists k :: CanGoWrong(w', k, c)
  {
    if Times(w, id, c) > 0 {
      RepeatIsWrong(w', n, c);
    } else {
      var m :| m in w.hands && w.hands[m].purchase == id && w.hands[m].pc == HandCalling;
      assert w'.hands[m] == w.hands[m];
      TwoHandsGoWrong(w', m, n, c);
    }
  }

  lemma RestartGoesWrong(w: World, w': World, c: Count)
    requires Base(w) && Next(w, Restart, w') && !Careful(w, Restart, c)
    ensures exists k :: CanGoWrong(w', k, c)
  {
    var n :| n in w.hands && w.hands[n].purchase in w.purchases
             && w.purchases[w.hands[n].purchase].state == AwaitRelease && Times(w, w.hands[n].purchase, c) > 0;
    var id := w.hands[n].purchase;
    if !IsCounted(w.purchases[id], c) {
      UncountedIsNever(w, id, c);
    }
    StopGoesWrong(w, w', id, c);
  }

  /** Care is exactly what is asked of operator and administrator: after a careful step no
      careful continuation ever meets a hazard, and after any other step some careful
      continuation does; with calls counted, and with payments. */
  lemma CarefulIff(w: World, step: Step, w': World, c: Count)
    requires CarefulInv(w, c) && Next(w, step, w')
    ensures Careful(w, step, c) <==> forall n :: !CanGoWrong(w', n, c)
  {
    if Careful(w, step, c) {
      NextKeepsCareful(w, step, w', c);
      forall n ensures !CanGoWrong(w', n, c) {
        CarefulStaysRight(w', n, c);
      }
    } else if step.Restart? {
      RestartGoesWrong(w, w', c);
    } else {
      StartGoesWrong(w, step.n, step.id, w', c);
    }
  }
}
