/** What holds over whole runs: money, release calls, receipts, completions, refunds and the
    history of a session; and what a hazard costs. */
module Payouts {
  import opened Text
  import opened Ledger
  import opened Purchases
  import opened Operator
  import Handshake
  import Hex

  // ----- Money

  /** What the rail has paid out of `session`. */
  function PaidFrom(payments: seq<Payment>, session: string): int {
    if payments == [] then 0
    else
      var n := |payments| - 1;
      PaidFrom(payments[..n], session) + if payments[n].session == session then payments[n].amount else 0
  }

  /** Payments of different purchases that are all booked add up to no more than the
      booked draws. */
  lemma {:induction false} PaymentsFit(payments: seq<Payment>, session: string, draws: seq<Draw>)
    requires forall i, j :: 0 <= i < j < |payments| ==> payments[i].purchase != payments[j].purchase
    requires forall i :: 0 <= i < |payments| && payments[i].session == session ==>
      BookedIn(draws, payments[i].purchase, payments[i].amount)
    requires forall i :: 0 <= i < |draws| ==> draws[i].amount > 0
    ensures PaidFrom(payments, session) <= Total(draws)
    decreases |payments|
  {
    if payments == [] {
      TotalPositive(draws);
    } else {
      var n := |payments| - 1;
      var last := payments[n];
      if last.session == session {
        var k :| 0 <= k < |draws| && draws[k].purchase == last.purchase && draws[k].amount == last.amount;
        var rest := draws[..k] + draws[k + 1..];
        forall i | 0 <= i < n && payments[i].session == session
          ensures BookedIn(rest, payments[i].purchase, payments[i].amount)
        {
          BookedElsewhere(draws, k, payments[i].purchase, payments[i].amount);
        }
        PaymentsFit(payments[..n], session, rest);
        TotalRemove(draws, k);
      } else {
        PaymentsFit(payments[..n], session, draws);
      }
    }
  }

  lemma BookedElsewhere(draws: seq<Draw>, k: nat, purchase: string, amount: int)
    requires k < |draws| && BookedIn(draws, purchase, amount) && draws[k].purchase != purchase
    ensures BookedIn(draws[..k] + draws[k + 1..], purchase, amount)
  {
    var i :| 0 <= i < |draws| && draws[i].purchase == purchase && draws[i].amount == amount;
    var rest := draws[..k] + draws[k + 1..];
    assert rest[if i < k then i else i - 1] == draws[i];
  }

  lemma {:induction false} PaidNonNegative(payments: seq<Payment>, session: string)
    requires forall i :: 0 <= i < |payments| ==> payments[i].amount > 0
    ensures PaidFrom(payments, session) >= 0
  {
    if payments != [] {
      PaidNonNegative(payments[..|payments| - 1], session);
    }
  }

  /** No purchase was called for, or paid, twice, and every payment has its draw in the
      book. */
  ghost predicate Backed(w: World, c: Count) {
    Once(w, c) && PaymentsBooked(w)
  }

  lemma HazardUnbacks(w: World, step: Step, w': World, c: Count)
    requires Base(w) && Next(w, step, w') && Hazard(w, step, c)
    ensures !Backed(w', c)
  {
    if Unbooks(w, step) {
      UnbooksPayment(w, step, w');
    } else {
      StepCounts(w, step, w', w.hands[step.n].purchase, c);
    }
  }

  lemma RunIsBacked(run: seq<World>, steps: seq<Step>, i: nat, c: Count)
    requires IsRun(run, steps) && i < |run| && forall k :: 0 <= k < i ==> !Hazard(run[k], steps[k], c)
    ensures Backed(run[i], c)
  {
    RunOnce(run, steps, i, c);
    RunKeepsInv(run, steps, i);
    InvIsBooked(run[i]);
  }

  /** In every state of a run each purchase was called for (or, with payments counted, was
      paid) at most once and each payment has its draw, exactly when no step of the run is a
      hazard. */
  lemma RunIsBackedIff(run: seq<World>, steps: seq<Step>, c: Count)
    requires IsRun(run, steps)
    ensures (forall i :: 0 <= i < |run| ==> Backed(run[i], c)) <==>
      (forall i :: 0 <= i < |steps| ==> !Hazard(run[i], steps[i], c))
  {
    if forall i :: 0 <= i < |steps| ==> !Hazard(run[i], steps[i], c) {
      forall i | 0 <= i < |run| ensures Backed(run[i], c) {
        RunIsBacked(run, steps, i, c);
      }
    } else {
      var i :| 0 <= i < |steps| && Hazard(run[i], steps[i], c);
      var j := i + 1;
      RunKeepsBase(run, steps, i);
      HazardUnbacks(run[i], steps[i], run[j], c);
    }
  }

  lemma {:induction false} PaidTimesTwo(payments: seq<Payment>, i: nat, j: nat)
    requires i < j < |payments| && payments[i].purchase == payments[j].purchase
    ensures PaidTimes(payments, payments[i].purchase) >= 2
  {
    var n := |payments| - 1;
    if j < n {
      PaidTimesTwo(payments[..n], i, j);
    } else {
      assert payments[..n][i] == payments[i];
      PaidTimesIff(payments[..n], payments[i].purchase);
    }
  }

  lemma BackedIsDistinct(w: World)
    requires PaymentsOk(w) && Backed(w, Payments)
    ensures forall i, j :: 0 <= i < j < |w.payments| ==> w.payments[i].purchase != w.payments[j].purchase
  {
    forall i, j | 0 <= i < j < |w.payments| ensures w.payments[i].purchase != w.payments[j].purchase {
      assert PaymentOk(w, w.payments[i]);
      assert Times(w, w.payments[i].purchase, Payments) <= 1;
      if w.payments[i].purchase == w.payments[j].purchase {
        PaidTimesTwo(w.payments, i, j);
      }
    }
  }

  /** What was paid out of `session` is within what its book reserves, and that is within
      its budget; nothing is paid out of a session without a book. */
  ghost predicate PaysWithin(w: World, session: string) {
    if session in w.ledger.disk
    then 0 <= PaidFrom(w.payments, session) <= w.ledger.disk[session].drawn <= w.ledger.disk[session].budget
    else PaidFrom(w.payments, session) == 0
  }

  lemma BackedPaysWithin(w: World, session: string)
    requires Base(w) && Backed(w, Payments)
    ensures PaysWithin(w, session)
  {
    forall k | 0 <= k < |w.payments| ensures w.payments[k].amount > 0 {
      assert PaymentOk(w, w.payments[k]);
    }
    BackedIsDistinct(w);
    PaidNonNegative(w.payments, session);
    if session in w.ledger.disk {
      assert w.ledger.disk[session].Valid();
      PaymentsFit(w.payments, session, w.ledger.disk[session].draws);
    } else {
      PaymentsFit(w.payments, session, []);
    }
  }

  /** Money safety: in every run, however purchases, operator, watcher, sweep and restarts
      interleave and whatever the rail answers, as long as no step was a hazard. */
  lemma MoneySafety(run: seq<World>, steps: seq<Step>, i: nat, session: string)
    requires IsRun(run, steps) && i < |run| && forall k :: 0 <= k < i ==> !Hazard(run[k], steps[k], Payments)
    ensures PaysWithin(run[i], session)
  {
    RunKeepsBase(run, steps, i);
    RunIsBacked(run, steps, i, Payments);
    BackedPaysWithin(run[i], session);
  }

  /** Money safety with a careful operator; to mind the payments is enough. */
  lemma CarefulMoneySafety(run: seq<World>, steps: seq<Step>, i: nat, session: string)
    requires IsRun(run, steps) && i < |run| && forall k :: 0 <= k < i ==> Careful(run[k], steps[k], Payments)
    ensures PaysWithin(run[i], session)
  {
    forall k | 0 <= k < i ensures !Hazard(run[k], steps[k], Payments) {
      CarefulRunHasNoHazard(run, steps, k, Payments);
    }
    MoneySafety(run, steps, i, session);
  }

  /** Whatever happens, hazards included, the book of a session adds up, each purchase has at
      most one draw in it, and its draws never exceed the budget. */
  lemma BooksStayInBudget(run: seq<World>, steps: seq<Step>, i: nat, session: string)
    requires IsRun(run, steps) && i < |run| && session in run[i].ledger.disk
    ensures var s := run[i].ledger.disk[session];
      0 <= s.drawn <= s.budget && s.drawn == Total(s.draws) && OneDrawEach(s.draws)
  {
    RunKeepsBase(run, steps, i);
    assert run[i].ledger.disk[session].Valid();
    DrawnWithinBudget(run[i].ledger.disk[session]);
  }

  // ----- Release calls

  /** Whatever happens, each purchase is orchestrated at most once, and it is not paid more
      often than the rail was called for it. */
  lemma OneOrchestrationEach(run: seq<World>, steps: seq<Step>, i: nat, id: string)
    requires IsRun(run, steps) && i < |run| && id in run[i].purchases
    ensures run[i].purchases[id].spawns <= 1 && PaidTimes(run[i].payments, id) <= run[i].purchases[id].attempts
  {
    RunKeepsBase(run, steps, i);
    assert PurchaseOk(run[i].purchases[id]);
  }

  // ----- Receipts

  /** The purchase may be released, or a release was tried. */
  predicate Releasable(p: Purchase) {
    p.attempts > 0 || p.state == AwaitRelease || p.pc in {Releasing, ReleaseRefused, Recording, Completing}
  }

  /** Whoever may release, or has tried to, holds a receipt that passes the check. */
  ghost predicate ReleaseIsEarned(w: World, id: string) {
    id in w.purchases && (Releasable(w.purchases[id]) || HasHand(w, id)) ==> ReceiptOk(w.functions, w.purchases[id])
  }

  lemma RecordKeepsEarned(f: Handshake.Functions, p: Purchase, a: Answer, known: bool)
    requires PurchaseOk(p)
    ensures var p' := NextRecord(f, p, a, known);
      && (Releasable(p') ==> Releasable(p) || ReceiptOk(f, p'))
      && ((Releasable(p) || Rests(p)) && ReceiptOk(f, p) ==> ReceiptOk(f, p'))
  {
    var p' := NextRecord(f, p, a, known);
    if Releasable(p) || Rests(p) {
      assert p'.deal == p.deal && p'.session == p.session && p'.result == p.result && p'.receipt == p.receipt;
    }
  }

  lemma AdvanceKeepsEarned(w: World, id: string, a: Answer)
    requires Base(w) && id in w.purchases && ReleaseIsEarned(w, id)
    ensures ReleaseIsEarned(Advance(w, id, a), id)
  {
    var w', p := Advance(w, id, a), w.purchases[id];
    assert PurchaseOk(p) && w'.hands == w.hands;
    RecordKeepsEarned(w.functions, p, a, p.home in w.ledger.mem);
    assert HasHand(w', id) ==> HasHand(w, id);
  }

  lemma HandKeepsEarned(w: World, n: nat, a: Answer)
    requires n in w.hands && w.hands[n].purchase in w.purchases && ReleaseIsEarned(w, w.hands[n].purchase)
    ensures ReleaseIsEarned(HandStep(w, n, a), w.hands[n].purchase)
  {
    assert HasHand(w, w.hands[n].purchase);
  }

  predicate SameReceipt(p: Purchase, p': Purchase) {
    && p'.deal == p.deal && p'.session == p.session && p'.result == p.result && p'.receipt == p.receipt
    && (Releasable(p') ==> Releasable(p))
  }

  /** A step that leaves the receipt of `q` and what it is for alone. */
  lemma SameIsEarned(w: World, w': World, q: string)
    requires ReleaseIsEarned(w, q) && w'.functions == w.functions
    requires q in w.purchases && q in w'.purchases && SameReceipt(w.purchases[q], w'.purchases[q])
    requires HasHand(w', q) ==> HasHand(w, q) || (q in w.purchases && w.purchases[q].state == AwaitRelease)
    ensures ReleaseIsEarned(w', q)
  {
  }

  lemma HandsStay(w: World, step: Step, w': World, q: string)
    requires Next(w, step, w') && HasHand(w', q)
    ensures HasHand(w, q) || (q in w.purchases && w.purchases[q].state == AwaitRelease)
  {
    var n :| n in w'.hands && w'.hands[n].purchase == q;
    StepHands(w, step, w', n);
  }

  lemma VerbKeepsReceipt(w: World, step: Step, w': World, q: string)
    requires Next(w, step, w') && q in w.purchases && PurchaseOk(w.purchases[q]) && !step.Orchestrate? && !step.ByHand?
    ensures w'.functions == w.functions && q in w'.purchases && SameReceipt(w.purchases[q], w'.purchases[q])
  {
    VerbRecord(w, step, w', q);
    MoveKeepsReceipt(w.purchases[q], w'.purchases[q]);
  }

  lemma MoveKeepsReceipt(p: Purchase, p': Purchase)
    requires PurchaseOk(p) && VerbMoves(p, p')
    ensures SameReceipt(p, p')
  {
  }

  lemma VerbKeepsEarned(w: World, step: Step, w': World, q: string)
    requires Base(w) && Next(w, step, w') && ReleaseIsEarned(w, q) && q in w.purchases
    requires !step.Orchestrate? && !step.ByHand?
    ensures ReleaseIsEarned(w', q)
  {
    VerbKeepsReceipt(w, step, w', q);
    if HasHand(w', q) {
      HandsStay(w, step, w', q);
    }
    SameIsEarned(w, w', q);
  }

  lemma NextKeepsEarned(w: World, step: Step, w': World, q: string)
    requires Base(w) && Next(w, step, w') && ReleaseIsEarned(w, q)
    ensures ReleaseIsEarned(w', q)
  {
    if q !in w.purchases {
      if q in w'.purchases {
        NewIsUncounted(w, step, w', q);
        if HasHand(w', q) {
          HandsStay(w, step, w', q);
        }
      }
    } else if step.Orchestrate? && step.id == q {
      AdvanceKeepsEarned(w, q, step.a);
    } else if step.ByHand? && w.hands[step.n].purchase == q {
      HandKeepsEarned(w, step.n, step.a);
    } else if step.Orchestrate? || step.ByHand? {
      OtherKeepsEarned(w, step, w', q);
    } else {
      VerbKeepsEarned(w, step, w', q);
    }
  }

  lemma OtherKeepsEarned(w: World, step: Step, w': World, q: string)
    requires Base(w) && Next(w, step, w') && ReleaseIsEarned(w, q) && q in w.purchases
    requires step.Orchestrate? || step.ByHand?
    requires q != if step.Orchestrate? then step.id else w.hands[step.n].purchase
    ensures ReleaseIsEarned(w', q)
  {
    if step.Orchestrate? {
      AdvanceLeaves(w, step.id, step.a, q);
    } else {
      HandLeaves(w, step.n, step.a, q);
    }
    if HasHand(w', q) {
      HandsStay(w, step, w', q);
    }
  }

  lemma AdvanceLeaves(w: World, id: string, a: Answer, q: string)
    requires id in w.purchases && q in w.purchases && q != id
    ensures Advance(w, id, a).functions == w.functions
    ensures q in Advance(w, id, a).purchases && Advance(w, id, a).purchases[q] == w.purchases[q]
  {
  }

  lemma HandLeaves(w: World, n: nat, a: Answer, q: string)
    requires n in w.hands && w.hands[n].purchase in w.purchases && q in w.purchases && q != w.hands[n].purchase
    ensures HandStep(w, n, a).functions == w.functions
    ensures q in HandStep(w, n, a).purchases && HandStep(w, n, a).purchases[q] == w.purchases[q]
  {
  }

  lemma {:induction false} RunIsEarned(run: seq<World>, steps: seq<Step>, i: nat, id: string)
    requires IsRun(run, steps) && i < |run|
    ensures ReleaseIsEarned(run[i], id)
  {
    if i > 0 {
      RunIsEarned(run, steps, i - 1, id);
      RunKeepsBase(run, steps, i - 1);
      NextKeepsEarned(run[i - 1], steps[i - 1], run[i], id);
    }
  }

  /** No release, automatic or manual, is ever called, offered or under way without a receipt
      that the seller of the purchase signed, for its session, its result, and where it says
      so its offer and its price. */
  lemma NoReleaseWithoutReceipt(run: seq<World>, steps: seq<Step>, i: nat, id: string)
    requires IsRun(run, steps) && i < |run| && id in run[i].purchases
    requires Releasable(run[i].purchases[id]) || HasHand(run[i], id)
    ensures var p := run[i].purchases[id];
      p.receipt.Some? && Handshake.ReceiptProves(run[i].functions, Order(p), p.result, p.receipt.value)
  {
    var p := run[i].purchases[id];
    RunIsEarned(run, steps, i, id);
    Handshake.ReceiptIsSound(run[i].functions, Order(p), p.result, p.receipt.value);
  }

  // ----- Completion

  /** The orchestration, or a manual release, of `id` has been paid and goes on. */
  ghost predicate GoesOn(w: World, id: string)
    requires id in w.purchases
  {
    || w.purchases[id].pc in {Recording, Completing}
    || exists n :: n in w.hands && w.hands[n].purchase == id && w.hands[n].pc in {HandRecording, HandCompleting}
  }

  ghost predicate GoesOnPaid(w: World, id: string) {
    id in w.purchases && w.purchases[id].drawdown && GoesOn(w, id) ==> IsPaid(w, id)
  }

  lemma PaymentsStay(w: World, w': World, id: string)
    requires |w.payments| <= |w'.payments| && w'.payments[..|w.payments|] == w.payments
    ensures IsPaid(w, id) ==> IsPaid(w', id)
  {
    if IsPaid(w, id) {
      var i :| 0 <= i < |w.payments| && w.payments[i].purchase == id;
      assert w'.payments[i] == w'.payments[..|w.payments|][i];
    }
  }

  lemma AdvanceGoesOnPaid(w: World, id: string, a: Answer, q: string)
    requires id in w.purchases && GoesOnPaid(w, q)
    ensures GoesOnPaid(Advance(w, id, a), q)
  {
    var w', p := Advance(w, id, a), w.purchases[id];
    PaymentsStay(w, w', q);
    if p.pc == Releasing && a.called && a.ok && p.drawdown {
      assert w'.payments[|w.payments|].purchase == id;
    }
    assert w'.hands == w.hands;
  }

  lemma HandGoesOnPaid(w: World, n: nat, a: Answer, q: string)
    requires n in w.hands && w.hands[n].purchase in w.purchases && GoesOnPaid(w, q)
    ensures GoesOnPaid(HandStep(w, n, a), q)
  {
    var w', id := HandStep(w, n, a), w.hands[n].purchase;
    PaymentsStay(w, w', q);
    if w.hands[n].pc == HandCalling && a.called && a.ok && w.purchases[id].drawdown {
      assert w'.payments[|w.payments|].purchase == id;
    }
    if q in w.purchases && GoesOn(w', q) && !GoesOn(w, q) {
      var m :| m in w'.hands && w'.hands[m].purchase == q && w'.hands[m].pc in {HandRecording, HandCompleting};
      assert m == n;
    }
  }

  lemma VerbGoesOnPaid(w: World, step: Step, w': World, q: string)
    requires Base(w) && Next(w, step, w') && GoesOnPaid(w, q) && !step.Orchestrate? && !step.ByHand?
    ensures GoesOnPaid(w', q)
  {
    if q in w'.purchases && GoesOn(w', q) {
      VerbGoesOn(w, step, w', q);
      VerbHands(w, step, w', q);
      PaymentsStay(w, w', q);
    }
  }

  /** Only a release call makes an orchestration go on, and a manual release. */
  lemma VerbGoesOn(w: World, step: Step, w': World, q: string)
    requires Next(w, step, w') && !step.Orchestrate? && !step.ByHand? && q in w'.purchases
    ensures w'.payments == w.payments
    ensures w'.purchases[q].pc in {Recording, Completing} ==>
      q in w.purchases && w.purchases[q].pc == w'.purchases[q].pc
    ensures q in w.purchases ==> w'.purchases[q].drawdown == w.purchases[q].drawdown
  {
    if q in w.purchases {
      VerbRecord(w, step, w', q);
    } else {
      NewIsUncounted(w, step, w', q);
      BeginIs(w, step, w');
    }
  }

  lemma VerbHands(w: World, step: Step, w': World, q: string)
    requires Base(w) && Next(w, step, w') && !step.Orchestrate? && !step.ByHand?
    ensures forall n :: n in w'.hands && w'.hands[n].pc in {HandRecording, HandCompleting} ==>
      n in w.hands && w'.hands[n] == w.hands[n] && w.hands[n].purchase in w.purchases
  {
    forall n | n in w'.hands && w'.hands[n].pc in {HandRecording, HandCompleting}
      ensures n in w.hands && w'.hands[n] == w.hands[n]
    {
      StepHands(w, step, w', n);
    }
  }

  lemma NextGoesOnPaid(w: World, step: Step, w': World, q: string)
    requires Base(w) && Next(w, step, w') && GoesOnPaid(w, q)
    ensures GoesOnPaid(w', q)
  {
    match step {
      case Orchestrate(id, a) => AdvanceGoesOnPaid(w, id, a, q);
      case ByHand(n, a) => HandGoesOnPaid(w, n, a, q);
      case _ => VerbGoesOnPaid(w, step, w', q);
    }
  }

  lemma {:induction false} RunGoesOnPaid(run: seq<World>, steps: seq<Step>, i: nat, id: string)
    requires IsRun(run, steps) && i < |run|
    ensures GoesOnPaid(run[i], id)
  {
    if i > 0 {
      RunGoesOnPaid(run, steps, i - 1, id);
      RunKeepsBase(run, steps, i - 1);
      NextGoesOnPaid(run[i - 1], steps[i - 1], run[i], id);
    }
  }

  /** Whenever an orchestration or a manual release goes on to complete a drawdown purchase,
      the rail has paid for it, from the session and in the amount the purchase stands for. */
  lemma CompletionWasPaid(run: seq<World>, steps: seq<Step>, i: nat, id: string)
    requires IsRun(run, steps) && i < |run|
    requires id in run[i].purchases && run[i].purchases[id].drawdown && GoesOn(run[i], id)
    ensures var p := run[i].purchases[id]; Payment(id, p.session, p.amount) in run[i].payments
  {
    var w := run[i];
    var p := w.purchases[id];
    RunKeepsBase(run, steps, i);
    RunGoesOnPaid(run, steps, i, id);
    var k :| 0 <= k < |w.payments| && w.payments[k].purchase == id;
    assert PaymentOk(w, w.payments[k]) && PurchaseOk(p);
    assert p.session == p.home;
    assert w.payments[k] == Payment(id, p.session, p.amount);
  }

  // ----- Refunds

  /** A manual release of `id` has not called the rail yet. */
  ghost predicate Calling(w: World, id: string) {
    exists n :: n in w.hands && w.hands[n] == Hand(id, HandCalling)
  }

  /** No orchestration is at work, and no manual release is on offer or about to call. */
  ghost predicate Quiet(w: World, id: string) {
    && id in w.purchases && AtRest(w.purchases[id])
    && w.purchases[id].state !in {AwaitRelease, PendingReview} && !Calling(w, id)
  }

  lemma CallingStays(w: World, step: Step, w': World, id: string)
    requires Next(w, step, w') && Calling(w', id)
    ensures Calling(w, id) || (id in w.purchases && w.purchases[id].state == AwaitRelease)
  {
    var n :| n in w'.hands && w'.hands[n] == Hand(id, HandCalling);
    StepHands(w, step, w', n);
  }

  lemma QuietRecord(w: World, step: Step, w': World, id: string)
    requires Next(w, step, w') && id in w.purchases && AtRest(w.purchases[id])
    requires w.purchases[id].state !in {AwaitRelease, PendingReview}
    ensures id in w'.purchases && AtRest(w'.purchases[id]) && w'.purchases[id].state !in {AwaitRelease, PendingReview}
  {
    match step {
      case Orchestrate(q, a) => QuietOrchestration(w, q, a, id);
      case ByHand(n, a) => QuietHand(w, n, a, id);
      case _ => VerbRecord(w, step, w', id);
    }
  }

  lemma QuietOrchestration(w: World, id: string, a: Answer, q: string)
    requires id in w.purchases && q in w.purchases
    requires AtRest(w.purchases[q]) && w.purchases[q].state !in {AwaitRelease, PendingReview}
    ensures var w' := Advance(w, id, a);
      q in w'.purchases && AtRest(w'.purchases[q]) && w'.purchases[q].state !in {AwaitRelease, PendingReview}
  {
  }

  lemma QuietHand(w: World, n: nat, a: Answer, q: string)
    requires n in w.hands && w.hands[n].purchase in w.purchases && q in w.purchases
    requires AtRest(w.purchases[q]) && w.purchases[q].state !in {AwaitRelease, PendingReview}
    ensures var w' := HandStep(w, n, a);
      q in w'.purchases && AtRest(w'.purchases[q]) && w'.purchases[q].state !in {AwaitRelease, PendingReview}
  {
  }

  lemma QuietStays(w: World, step: Step, w': World, id: string)
    requires Next(w, step, w') && Quiet(w, id)
    ensures Quiet(w', id) && !Happens(w, step, id, Calls)
  {
    QuietRecord(w, step, w', id);
    if Calling(w', id) {
      CallingStays(w, step, w', id);
    }
  }

  /** Within `n` more steps the rail can be called to release the payment of `id`. */
  ghost predicate CanCall(w: World, id: string, n: nat)
    decreases n
  {
    exists step, w' :: Next(w, step, w') && (Happens(w, step, id, Calls) || (n > 0 && CanCall(w', id, n - 1)))
  }

  lemma {:induction false} QuietNeverCalls(w: World, id: string, n: nat)
    requires Quiet(w, id)
    ensures !CanCall(w, id, n)
    decreases n
  {
    forall step, w' | Next(w, step, w') ensures !Happens(w, step, id, Calls) && (n > 0 ==> !CanCall(w', id, n - 1)) {
      QuietStays(w, step, w', id);
      if n > 0 {
        QuietNeverCalls(w', id, n - 1);
      }
    }
  }

  lemma RefundIsQuiet(w: World, id: string, now: int, w': World)
    requires Base(w) && Next(w, Refund(id, true, now), w')
    ensures AtRest(w.purchases[id]) && w'.hands == w.hands && (Quiet(w', id) <==> !Calling(w, id))
  {
    assert PurchaseOk(w.purchases[id]);
  }

  lemma CallingCanCall(w: World, id: string)
    requires Calling(w, id) && id in w.purchases
    ensures exists k :: CanCall(w, id, k)
  {
    var n :| n in w.hands && w.hands[n] == Hand(id, HandCalling);
    assert Next(w, ByHand(n, CALL), HandStep(w, n, CALL)) && Happens(w, ByHand(n, CALL), id, Calls);
    assert CanCall(w, id, 0);
  }

  /** When the operator refunds, no orchestration of that purchase is at work; and whatever
      happens afterwards, the rail is never called for it again, exactly when no manual
      release of it was about to call. */
  lemma RefundExcludesReleaseIff(w: World, id: string, now: int, w': World)
    requires Base(w) && Next(w, Refund(id, true, now), w')
    ensures AtRest(w.purchases[id])
    ensures (forall n :: !CanCall(w', id, n)) <==> !Calling(w, id)
  {
    RefundIsQuiet(w, id, now, w');
    if Calling(w, id) {
      assert Calling(w', id);
      CallingCanCall(w', id);
    } else {
      forall n ensures !CanCall(w', id, n) {
        QuietNeverCalls(w', id, n);
      }
    }
  }

  // ----- Waiting draws

  /** As long as it can still be released, a drawdown purchase has its draw in the book. */
  ghost predicate Held(w: World, id: string) {
    id in w.purchases ==>
      var p := w.purchases[id];
      p.drawdown && (InFlight(p) || p.state == AwaitRelease) ==> Booked(w.ledger, p.home, id, p.amount)
  }

  lemma OthersHeld(w: World, w': World, id: string, q: string)
    requires Held(w, q) && q != id && OthersSame(w, w', id) && Moves(w.ledger, w'.ledger, id)
    ensures Held(w', q)
  {
  }

  lemma AdvanceKeepsHeld(w: World, id: string, a: Answer)
    requires Base(w) && id in w.purchases && a.tx != "" && Held(w, id)
    ensures Held(Advance(w, id, a), id)
  {
    var p := w.purchases[id];
    if p.pc == Releasing && a.called {
      CallRecord(w.functions, p, a, p.home in w.ledger.mem);
    } else {
      NextRecordOk(w.functions, p, a, p.home in w.ledger.mem);
      LedgerAfterMoves(w.ledger, id, p, a);
    }
  }

  lemma HandKeepsHeld(w: World, n: nat, a: Answer)
    requires Base(w) && n in w.hands && a.tx != "" && Held(w, w.hands[n].purchase)
    ensures Held(HandStep(w, n, a), w.hands[n].purchase)
  {
    var Hand(id, pc) := w.hands[n];
    HandMoves(w, id, w.purchases[id], pc, a);
  }

  lemma StillHeld(w: World, w': World, q: string)
    requires Held(w, q) && NothingMoves(w, w')
    ensures Held(w', q)
  {
  }

  lemma RestartKeepsHeld(w: World, w': World, q: string)
    requires Base(w) && Next(w, Restart, w') && Held(w, q)
    ensures Held(w', q)
  {
    RestartMoves(w, w');
    if q in w.purchases {
      StoppedOk(w.purchases[q]);
    }
  }

  lemma ObservedKeepsHeld(w: World, id: string, e: Event, now: int, q: string)
    requires Base(w) && id in w.purchases && w.purchases[id].state != PendingReview && Held(w, q)
    ensures Held(Observed(w, id, e, now), q)
  {
    ObservedFrame(w, id, e, now);
    if q != id {
      OthersHeld(w, Observed(w, id, e, now), id, q);
    }
  }

  lemma BeginKeepsHeld(w: World, step: Step, w': World, q: string)
    requires Base(w) && Next(w, step, w') && (step.Begin? || step.Saturated? || step.Confirm?) && Held(w, q)
    ensures Held(w', q)
  {
    BeginFrame(w, step, w');
    if q != NewId(w, step) {
      OthersHeld(w, w', NewId(w, step), q);
    }
  }

  /** The steps of one purchase. */
  lemma OwnKeepsHeld(w: World, step: Step, w': World, q: string)
    requires Base(w) && Next(w, step, w') && (step.Orchestrate? || step.AcquireSession? || step.ByHand?) && Held(w, q)
    ensures Held(w', q)
  {
    match step {
      case Orchestrate(id, a) => AdvanceKeepsHeldAt(w, id, a, q);
      case AcquireSession(id, x, g) => AcquireKeepsHeldAt(w, id, x, g, w', q);
      case ByHand(n, a) =>
        HandFrame(w, n, a);
        if q == w.hands[n].purchase {
          HandKeepsHeld(w, n, a);
        } else {
          OthersHeld(w, w', w.hands[n].purchase, q);
        }
    }
  }

  lemma AdvanceKeepsHeldAt(w: World, id: string, a: Answer, q: string)
    requires Base(w) && id in w.purchases && a.tx != "" && Held(w, q)
    ensures Held(Advance(w, id, a), q)
  {
    if q == id {
      AdvanceKeepsHeld(w, id, a);
    } else {
      AdvanceFrame(w, id, a);
      OthersHeld(w, Advance(w, id, a), id, q);
    }
  }

  lemma AcquireKeepsHeldAt(w: World, id: string, x: Request, g: Grant, w': World, q: string)
    requires Base(w) && AcquireStep(w, id, x, g, w') && Held(w, q)
    ensures Held(w', q)
  {
    if q == id {
      GrantedOk(w.purchases[id], g);
      AcquireBooks(w, id, x, g, w');
    } else {
      AcquireFrame(w, id, x, g, w');
      OthersHeld(w, w', id, q);
    }
  }

  lemma NextKeepsHeld(w: World, step: Step, w': World, q: string)
    requires Base(w) && Next(w, step, w') && Held(w, q)
    ensures Held(w', q)
  {
    if step.Orchestrate? || step.AcquireSession? || step.ByHand? {
      OwnKeepsHeld(w, step, w', q);
    } else if step.Begin? || step.Saturated? || step.Confirm? {
      BeginKeepsHeld(w, step, w', q);
    } else if step.Restart? {
      RestartKeepsHeld(w, w', q);
    } else {
      VerbKeepsHeld(w, step, w', q);
    }
  }

  lemma VerbKeepsHeld(w: World, step: Step, w': World, q: string)
    requires Base(w) && Next(w, step, w') && Held(w, q)
    requires step.Dispute? || step.Refund? || step.Observe? || step.DropReviews? || step.StartByHand? || step.Sweep?
    ensures Held(w', q)
  {
    match step {
      case Dispute(id, ok, now) => ObservedKeepsHeld(w, id, WasDisputed, now, q);
      case Refund(id, ok, now) => ObservedKeepsHeld(w, id, WasWithdrawn, now, q);
      case Observe(id, e, now) => ObservedKeepsHeld(w, id, e, now, q);
      case _ =>
        StepIsStill(w, step, w');
        StillHeld(w, w', q);
    }
  }

  /** A waiting draw is never lost: whatever happens, hazards included, a purchase has its
      draw in the book of its session from acquiring it to the end of its orchestration, and
      while it waits for its manual release. */
  lemma {:induction false} WaitingDrawIsBooked(run: seq<World>, steps: seq<Step>, i: nat, id: string)
    requires IsRun(run, steps) && i < |run|
    ensures Held(run[i], id)
  {
    if i > 0 {
      WaitingDrawIsBooked(run, steps, i - 1, id);
      RunKeepsBase(run, steps, i - 1);
      NextKeepsHeld(run[i - 1], steps[i - 1], run[i], id);
    }
  }

  // ----- What a step may do to a session

  /** The ways one step changes one book. */
  ghost predicate SessionMoves(s: Session, t: Session) {
    && t.budget == s.budget && t.sellerPeer == s.sellerPeer && t.seller == s.seller && t.buyer == s.buyer
    && t.token == s.token && t.deadline == s.deadline && t.correlation == s.correlation
    && (s.status != Open ==> t.status != Open && |t.draws| <= |s.draws|)
    && (forall q, n :: s.status != Open && BookedIn(t.draws, q, n) ==> BookedIn(s.draws, q, n))
    && (forall k :: 0 <= k < |s.draws| && s.draws[k].tx != "" ==> s.draws[k] in t.draws)
  }

  lemma SessionStays(s: Session, t: Session)
    requires t == s.(status := t.status, openTx := t.openTx, updated := t.updated)
    requires s.status != Open ==> t.status != Open
    ensures SessionMoves(s, t)
  {
  }

  lemma GiveBackSession(s: Session, id: string, now: int)
    requires OneDrawEach(s.draws)
    ensures SessionMoves(s, GiveBack(s, id).(updated := now))
  {
    var t := GiveBack(s, id);
    forall q, n ensures BookedIn(t.draws, q, n) ==> BookedIn(s.draws, q, n) {
      GiveBackMoves(s, id, q, n);
    }
    forall k | 0 <= k < |s.draws| && s.draws[k].tx != "" ensures s.draws[k] in t.draws {
      GiveBackKeepsStamped(s, id, k);
    }
  }

  lemma GiveBackKeepsStamped(s: Session, id: string, k: nat)
    requires OneDrawEach(s.draws) && k < |s.draws| && s.draws[k].tx != ""
    ensures s.draws[k] in GiveBack(s, id).draws
  {
    var i := LastPending(s.draws, id);
    if i >= 0 {
      RemovedDraws(s.draws, i);
      assert GiveBack(s, id).draws[if k < i then k else k - 1] == s.draws[k];
    }
  }

  lemma StampSession(s: Session, id: string, tx: string, now: int)
    requires OneDrawEach(s.draws) && tx != ""
    ensures SessionMoves(s, Stamp(s, id, tx, now).(updated := now))
  {
    var t := Stamp(s, id, tx, now);
    forall q, n ensures BookedIn(t.draws, q, n) ==> BookedIn(s.draws, q, n) {
      StampMoves(s, id, tx, now, q, n);
    }
    forall k | 0 <= k < |s.draws| && s.draws[k].tx != "" ensures s.draws[k] in t.draws {
      assert t.draws[k] == s.draws[k];
    }
  }

  ghost predicate LedgerMoves(a: State, b: State) {
    forall s :: s in a.disk ==> s in b.disk && SessionMoves(a.disk[s], b.disk[s])
  }

  lemma SaveLedgerMoves(a: State, session: string, t: Session)
    requires Consistent(a) && session in a.mem && SessionMoves(a.mem[session], t)
    ensures LedgerMoves(a, Save(a, session, t))
  {
    forall s | s in a.disk && s != session ensures SessionMoves(a.disk[s], Save(a, session, t).disk[s]) {
      SessionStays(a.disk[s], a.disk[s]);
    }
  }

  lemma SameLedgerMoves(a: State)
    ensures LedgerMoves(a, a)
  {
    forall s | s in a.disk ensures SessionMoves(a.disk[s], a.disk[s]) {
      SessionStays(a.disk[s], a.disk[s]);
    }
  }

  lemma SaveSame(a: State, session: string, t: Session)
    requires Consistent(a) && session in a.mem
    requires t == a.mem[session].(status := t.status, openTx := t.openTx, updated := t.updated)
    requires a.mem[session].status != Open ==> t.status != Open
    ensures LedgerMoves(a, Save(a, session, t))
  {
    SessionStays(a.mem[session], t);
    SaveLedgerMoves(a, session, t);
  }

  lemma EndedLedgerMoves(a: State, session: string, status: Status, now: int)
    requires Consistent(a) && status != Open
    ensures LedgerMoves(a, Ended(a, session, status, now))
  {
    if session in a.mem {
      SaveSame(a, session, a.mem[session].(status := status, updated := now));
    } else {
      SameLedgerMoves(a);
    }
  }

  lemma OpenedLedgerMoves(a: State, session: string, tx: string, now: int)
    requires Consistent(a)
    ensures LedgerMoves(a, Opened(a, session, tx, now))
  {
    if session in a.mem {
      SaveSame(a, session, a.mem[session].(openTx := tx, updated := now));
    } else {
      SameLedgerMoves(a);
    }
  }

  lemma RolledBackLedgerMoves(a: State, session: string, id: string, now: int)
    requires GoodBooks(a)
    ensures LedgerMoves(a, RolledBack(a, session, id, now))
  {
    if session in a.mem {
      GiveBackSession(a.mem[session], id, now);
      SaveLedgerMoves(a, session, GiveBack(a.mem[session], id).(updated := now));
    } else {
      SameLedgerMoves(a);
    }
  }

  lemma RecordedLedgerMoves(a: State, session: string, id: string, tx: string, now: int)
    requires GoodBooks(a) && tx != ""
    ensures LedgerMoves(a, Recorded(a, session, id, tx, now))
  {
    SameLedgerMoves(a);
    if session in a.mem {
      StampSession(a.mem[session], id, tx, now);
      SaveLedgerMoves(a, session, Stamp(a.mem[session], id, tx, now).(updated := now));
    }
  }

  lemma AcquiresLedgerMoves(a: State, q: Request, b: State, g: Grant)
    requires Consistent(a) && Acquires(a, q, b, g) && q.newId !in a.disk
    ensures LedgerMoves(a, b)
  {
    SameLedgerMoves(a);
    if g.Reused? {
      var s, t := a.mem[g.id], b.mem[g.id];
      forall k | 0 <= k < |s.draws| ensures s.draws[k] in t.draws {
        assert t.draws[k] == s.draws[k];
      }
      SaveLedgerMoves(a, g.id, t);
    }
  }

  lemma NextMovesLedger(w: World, step: Step, w': World)
    requires GoodBooks(w.ledger) && Next(w, step, w')
    ensures LedgerMoves(w.ledger, w'.ledger)
  {
    var a := w.ledger;
    SameLedgerMoves(a);
    match step {
      case Orchestrate(id, x) => AdvanceMovesLedger(w, id, x);
      case AcquireSession(id, q, g) => AcquiresLedgerMoves(a, q, w'.ledger, g);
      case Dispute(id, ok, now) => ObservedMovesLedger(w, id, WasDisputed, now);
      case Refund(id, ok, now) => ObservedMovesLedger(w, id, WasWithdrawn, now);
      case ByHand(n, x) => HandMovesLedger(w, n, x);
      case Observe(id, e, now) => ObservedMovesLedger(w, id, e, now);
      case Sweep(s, ok, now) => EndedLedgerMoves(a, s, Closed, now);
      case Restart => assert w'.ledger.disk == a.disk;
      case _ => assert w'.ledger == a;
    }
  }

  lemma HandMovesLedger(w: World, n: nat, x: Answer)
    requires GoodBooks(w.ledger) && n in w.hands && w.hands[n].purchase in w.purchases && x.tx != ""
    ensures LedgerMoves(w.ledger, HandStep(w, n, x).ledger)
  {
    var id := w.hands[n].purchase;
    SameLedgerMoves(w.ledger);
    RecordedLedgerMoves(w.ledger, w.purchases[id].session, id, x.tx, x.now);
  }

  lemma ObservedMovesLedger(w: World, id: string, e: Event, now: int)
    requires Consistent(w.ledger) && id in w.purchases
    ensures LedgerMoves(w.ledger, Observed(w, id, e, now).ledger)
  {
    SameLedgerMoves(w.ledger);
    EndedLedgerMoves(w.ledger, w.purchases[id].session, StatusAfter(e), now);
  }

  lemma AdvanceMovesLedger(w: World, id: string, x: Answer)
    requires GoodBooks(w.ledger) && id in w.purchases && x.tx != ""
    ensures LedgerMoves(w.ledger, Advance(w, id, x).ledger)
  {
    LedgerAfterSessions(w.ledger, id, w.purchases[id], x);
    SameLedgerMoves(w.ledger);
  }

  lemma LedgerAfterSessions(a: State, id: string, p: Purchase, x: Answer)
    requires GoodBooks(a) && x.tx != ""
    ensures LedgerMoves(a, LedgerAfter(a, id, p, x))
  {
    SameLedgerMoves(a);
    match p.pc {
      case ReturningDraw => RolledBackLedgerMoves(a, p.home, id, x.now);
      case RollingBack => RolledBackLedgerMoves(a, p.home, id, x.now);
      case AbandoningSession => EndedLedgerMoves(a, p.home, OpenFailed, x.now);
      case StampingOpen => OpenedLedgerMoves(a, p.home, x.tx, x.now);
      case Recording => RecordedLedgerMoves(a, p.session, id, x.tx, x.now);
      case _ =>
    }
  }

  lemma SessionMovesCompose(s: Session, t: Session, u: Session)
    requires SessionMoves(s, t) && SessionMoves(t, u)
    ensures SessionMoves(s, u)
  {
  }

  lemma RunMovesLedger(run: seq<World>, steps: seq<Step>, j: nat)
    requires IsRun(run, steps) && 0 < j < |run|
    ensures LedgerMoves(run[j - 1].ledger, run[j].ledger)
  {
    RunKeepsBase(run, steps, j - 1);
    NextMovesLedger(run[j - 1], steps[j - 1], run[j]);
  }

  lemma LedgerMovesCompose(a: State, b: State, c: State)
    requires LedgerMoves(a, b) && LedgerMoves(b, c)
    ensures LedgerMoves(a, c)
  {
    forall s | s in a.disk ensures s in c.disk && SessionMoves(a.disk[s], c.disk[s]) {
      SessionMovesCompose(a.disk[s], b.disk[s], c.disk[s]);
    }
  }

  lemma {:induction false} LedgersMove(ledgers: seq<State>, i: nat, j: nat)
    requires i <= j < |ledgers|
    requires forall k, n :: 0 <= k && n == k + 1 < |ledgers| ==> LedgerMoves(ledgers[k], ledgers[n])
    ensures LedgerMoves(ledgers[i], ledgers[j])
    decreases j
  {
    if i == j {
      SameLedgerMoves(ledgers[i]);
    } else {
      LedgersMove(ledgers, i, j - 1);
      LedgerMovesCompose(ledgers[i], ledgers[j - 1], ledgers[j]);
    }
  }

  /** Every session's whole history: its budget is fixed; once it is no longer open it never
      opens again and takes no further draw; and a draw that carries a tx stays in the book
      as it is, so no rollback ever returns a recorded payment. */
  lemma SessionHistory(run: seq<World>, steps: seq<Step>, i: nat, j: nat)
    requires IsRun(run, steps) && i <= j < |run|
    ensures LedgerMoves(run[i].ledger, run[j].ledger)
  {
    var ledgers := seq(|run|, k requires 0 <= k < |run| => run[k].ledger);
    forall k, n | 0 <= k && n == k + 1 < |ledgers| ensures LedgerMoves(ledgers[k], ledgers[n]) {
      RunMovesLedger(run, steps, n);
    }
    LedgersMove(ledgers, i, j);
  }

  // ----- What a hazard costs

  ghost predicate Reachable(w: World) {
    exists run, steps :: IsRun(run, steps) && run[|steps|] == w
  }

  lemma RunGrows(run: seq<World>, steps: seq<Step>, step: Step, w: World)
    requires IsRun(run, steps) && Next(run[|steps|], step, w)
    ensures IsRun(run + [w], steps + [step]) && (run + [w])[|steps + [step]|] == w
  {
    var longer, more := run + [w], steps + [step];
    forall i, j | 0 <= i && j == i + 1 < |longer| ensures Next(longer[i], more[i], longer[j]) {
      if j < |run| {
        assert Next(run[i], steps[i], run[j]);
      }
    }
  }

  lemma Reaches(w: World, step: Step, w': World)
    requires Reachable(w) && Next(w, step, w')
    ensures Reachable(w')
  {
    var run, steps :| IsRun(run, steps) && run[|steps|] == w;
    RunGrows(run, steps, step, w');
  }

  lemma Advanced(w: World, id: string, a: Answer)
    requires Reachable(w) && id in w.purchases && a.tx != ""
    ensures Reachable(Advance(w, id, a))
  {
    Reaches(w, Orchestrate(id, a), Advance(w, id, a));
  }

  /** The purchase waits for its manual release, and its orchestration is over. */
  predicate Waits(w: World, id: string) {
    && id in w.purchases && w.purchases[id].state == AwaitRelease
    && w.purchases[id].pc == Finished && w.purchases[id].drawdown
  }

  /** A manual release is started and calls the rail. */
  lemma StartAndCall(w: World, id: string, n: nat) returns (w': World)
    requires Reachable(w) && Waits(w, id) && n !in w.hands
    ensures Reachable(w') && Waits(w', id) && w'.ledger == w.ledger
    ensures var p := w.purchases[id];
      && w'.payments == w.payments + [Payment(id, p.session, p.amount)]
      && w'.purchases[id].session == p.session && w'.purchases[id].amount == p.amount
  {
    var u := w.(hands := w.hands[n := Hand(id, HandCalling)]);
    Reaches(w, StartByHand(n, id), u);
    w' := HandStep(u, n, CALL);
    Reaches(u, ByHand(n, CALL), w');
  }

  /** Then the program stops. */
  lemma ReleaseAndStop(w: World, id: string, n: nat) returns (w': World)
    requires Reachable(w) && Waits(w, id) && n !in w.hands
    ensures Reachable(w') && Waits(w', id) && w'.hands == map[] && w'.ledger.disk == w.ledger.disk
    ensures var p := w.purchases[id];
      && w'.payments == w.payments + [Payment(id, p.session, p.amount)]
      && w'.purchases[id].session == p.session && w'.purchases[id].amount == p.amount
  {
    var v := StartAndCall(w, id, n);
    w' := v.(ledger := State(v.ledger.disk, v.ledger.disk), reviews := map[], hands := map[],
             purchases := map q | q in v.purchases :: Stopped(v.purchases[q]));
    Reaches(v, Restart, w');
  }

  /** Every purchase that waits can be paid twice, on the one draw in its book, when the
      program stops between the call and the record of a manual release. */
  lemma StopPaysTwice(w: World, id: string, n: nat)
    requires Reachable(w) && Waits(w, id) && n !in w.hands
    ensures var y := Payment(id, w.purchases[id].session, w.purchases[id].amount);
      exists w' :: Reachable(w') && w'.ledger.disk == w.ledger.disk && w'.payments == w.payments + [y] + [y]
  {
    var u := ReleaseAndStop(w, id, n);
    var w' := ReleaseAndStop(u, id, n);
  }

  // A run that gets there

  const BUYER: string := "p"
  const SESSION: string := "s"
  const PRICE := 5

  const FUNCTIONS := Handshake.Functions(
    s => seq(Hex.HASH_LENGTH, i => 0), s => None, s => true, r => "g", (peer, r, g) => true)

  const DEAL := Handshake.Purchase(BUYER, "", "m", "", "", "", "", "", [], Decimal(PRICE), "", 0, true)

  const RECEIPT := Handshake.Receipt(
    SESSION, "", "m", "", Hex.Prefixed(FUNCTIONS.sha("")), "", "", 0, false, "g")

  const FETCHED := CALL.(receipt := Some(RECEIPT))

  const ORDERED := World(
    FUNCTIONS, State(map[], map[]), map[BUYER := NewPurchase(DEAL, PRICE, Queued, Starting)], map[], [], map[])

  lemma OrderIsReachable()
    ensures Reachable(ORDERED)
  {
    var w := World(FUNCTIONS, State(map[], map[]), map[], map[], [], map[]);
    var steps: seq<Step> := [];
    assert IsRun([w], steps) && [w][|steps|] == w;
    Reaches(w, Begin(BUYER, DEAL, PRICE, None), ORDERED);
  }

  /** The state with one purchase at `pc` and one session that is exactly as large. */
  ghost predicate Holding(w: World, state: PurchaseState, pc: Pc) {
    && w.functions == FUNCTIONS && w.payments == [] && w.hands == map[]
    && BUYER in w.purchases
    && var p := w.purchases[BUYER];
    && p.deal == DEAL && p.drawdown && p.amount == PRICE && p.home == SESSION && p.state == state && p.pc == pc
    && (pc in {Dialing, Talking, Fetching, Unwinding, Finished} ==> p.session == SESSION)
    && (pc == Fetching ==> p.result == "")
    && SESSION in w.ledger.mem && SESSION in w.ledger.disk && w.ledger.disk[SESSION].budget == PRICE
    && w.ledger.mem[SESSION].budget == PRICE
  }

  lemma SessionIsReachable() returns (w: World)
    ensures Reachable(w) && Holding(w, EscrowOpening, OpeningSession)
  {
    OrderIsReachable();
    var u := Advance(ORDERED, BUYER, CALL);
    Advanced(ORDERED, BUYER, CALL);
    w := With(u.(ledger := State(map[SESSION := MINTED], map[SESSION := MINTED])), BUYER,
              Granted(u.purchases[BUYER], Minted(SESSION)));
    FirstIsMinted();
    Reaches(u, AcquireSession(BUYER, REQUEST, Minted(SESSION)), w);
  }

  const REQUEST := Request(BUYER, "m", "", "", "", PRICE, Some(PRICE), 0, SESSION, "", 0)
  const MINTED := MintedSession(REQUEST)

  lemma FirstIsMinted()
    ensures var after := map[SESSION := MINTED];
      Acquires(State(map[], map[]), REQUEST, State(after, after), Minted(SESSION))
  {
  }

  /** One step on, with the session still there. */
  lemma HoldsOn(w: World, state: PurchaseState, pc: Pc, state': PurchaseState, pc': Pc) returns (w': World)
    requires Reachable(w) && Holding(w, state, pc)
    requires pc in {OpeningSession, StampingOpen, Binding, Dialing, Talking, Unwinding}
    requires match pc
      case OpeningSession => pc' == StampingOpen && state' == state
      case StampingOpen => pc' == Binding && state' == state
      case Binding => pc' == Dialing && state' == state
      case Dialing => pc' == Talking && state' == InSession
      case Talking => pc' == Fetching && state' == AwaitReceipt
      case _ => pc' == Finished && state' == state == AwaitRelease
    ensures Reachable(w') && Holding(w', state', pc')
  {
    w' := Advance(w, BUYER, CALL);
    Advanced(w, BUYER, CALL);
  }

  /** The receipt arrives and is good. */
  lemma ReceiptArrives(w: World) returns (w': World)
    requires Reachable(w) && Holding(w, AwaitReceipt, Fetching)
    ensures Reachable(w') && Holding(w', AwaitRelease, Unwinding)
  {
    w' := Advance(w, BUYER, FETCHED);
    Advanced(w, BUYER, FETCHED);
  }

  lemma DialIsReachable() returns (w: World)
    ensures Reachable(w) && Holding(w, EscrowOpening, Dialing)
  {
    w := SessionIsReachable();
    w := HoldsOn(w, EscrowOpening, OpeningSession, EscrowOpening, StampingOpen);
    w := HoldsOn(w, EscrowOpening, StampingOpen, EscrowOpening, Binding);
    w := HoldsOn(w, EscrowOpening, Binding, EscrowOpening, Dialing);
  }

  lemma ReceiptIsReachable() returns (w: World)
    ensures Reachable(w) && Holding(w, AwaitReceipt, Fetching)
  {
    w := DialIsReachable();
    w := HoldsOn(w, EscrowOpening, Dialing, InSession, Talking);
    w := HoldsOn(w, InSession, Talking, AwaitReceipt, Fetching);
  }

  lemma WaitingIsReachable() returns (w: World)
    ensures Reachable(w) && Holding(w, AwaitRelease, Finished)
  {
    w := ReceiptIsReachable();
    w := ReceiptArrives(w);
    w := HoldsOn(w, AwaitRelease, Unwinding, AwaitRelease, Finished);
  }

  /** The failing run: one honest purchase, one session just large enough, one stop at the
      wrong moment, and twice the budget has been paid. */
  lemma BudgetIsOverpaid()
    ensures exists w :: Reachable(w) && SESSION in w.ledger.disk
              && PaidFrom(w.payments, SESSION) == 2 * w.ledger.disk[SESSION].budget > 0
  {
    var u := WaitingIsReachable();
    StopPaysTwice(u, BUYER, 0);
    var y := Payment(BUYER, SESSION, PRICE);
    var w :| Reachable(w) && w.ledger.disk == u.ledger.disk && w.payments == u.payments + [y] + [y];
    TwicePaid(w, y);
  }

  lemma TwicePaid(w: World, y: Payment)
    requires w.payments == [] + [y] + [y] && y == Payment(BUYER, SESSION, PRICE)
    ensures PaidFrom(w.payments, SESSION) == 2 * PRICE
  {
    assert w.payments == [y, y];
    PaidFromTwo(y);
  }

  lemma PaidFromTwo(y: Payment)
    ensures PaidFrom([y, y], y.session) == 2 * y.amount
  {
    assert [y, y][..1] == [y] && [y][..0] == [];
    assert PaidFrom([y], y.session) == y.amount;
  }
}
