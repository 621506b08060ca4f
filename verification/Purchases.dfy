/** Every interleaving of the buyer's purchase orchestrations with the operator's verbs,
    the event watcher, the drawdown sweep and restarts, over a settlement rail that may
    accept or refuse any call. */
module Purchases {
  import opened Text
  import opened Ledger
  import Handshake

  datatype PurchaseState =
    | PendingReview | Queued | EscrowOpening | InSession | AwaitReceipt | AwaitRelease
    | Disputable | Completed | InDispute | Settled | Refunded | Failed

  /** Where an orchestration stands: what it does next. */
  datatype Pc =
    | NotStarted       // not spawned
    | Starting         // look up the rail
    | Acquiring        // acquire a session, or open the task's own escrow
    | OpeningSession   // open the minted session on the rail
    | ReturningDraw    // the rail refused to open: give the draw back
    | AbandoningSession // mark the session as failed
    | Failing          // move the purchase to failed
    | StampingOpen     // record the open tx
    | Binding          // write the session into the purchase, arm the deferred rollback
    | Dialing          // move to the session state
    | Talking          // dial and run the session
    | Fetching         // fetch and verify the receipt
    | Releasing        // call the rail
    | ReleaseRefused   // move to disputable
    | Recording        // the rail has paid: record the draw
    | Completing       // move to completed
    | Unwinding        // look at the state before the deferred rollback
    | RollingBack      // the deferred rollback
    | Finished

  /** `deal` is what was ordered, `session` the recorded session id, `home` the session the
      orchestration acquired; `spawns`, `opens` and `attempts` count orchestrations, escrows
      opened and release calls; `result` is the text the session gave, `receipt` what the seller sent. */
  datatype Purchase = Purchase(
    deal: Handshake.Purchase, drawdown: bool, amount: int, session: string, home: string,
    state: PurchaseState, pc: Pc, spawns: nat, opens: nat, attempts: nat,
    result: string, receipt: Option<Handshake.Receipt>)

  /** A partial release the rail accepted. */
  datatype Payment = Payment(purchase: string, session: string, amount: int)

  /** Where a manual release stands: what it does next. */
  datatype HandPc =
    | HandCalling      // wait for the slot and call the rail
    | HandRecording    // the rail has paid: record the draw
    | HandCompleting   // move the purchase to completed
    | HandRefused      // move it to disputable

  datatype Hand = Hand(purchase: string, pc: HandPc)

  /** `functions` are the hashes and signatures in use; `hands` the manual releases under
      way. */
  datatype World = World(
    functions: Handshake.Functions, ledger: State, purchases: map<string, Purchase>,
    reviews: map<string, string>, payments: seq<Payment>, hands: map<nat, Hand>)

  // ----- Steps

  function End(p: Purchase): Pc {
    if p.drawdown then Unwinding else Finished
  }

  function With(w: World, id: string, p: Purchase): World {
    w.(purchases := w.purchases[id := p])
  }

  /** The answer of the outside world to one step: whether it went well, whether the rail
      was called at all, the tx it returned, the text of the session and the receipt of the
      seller, and the local time. */
  datatype Answer = Answer(
    called: bool, ok: bool, tx: string, autoRelease: bool, now: int,
    result: string, receipt: Option<Handshake.Receipt>)

  /** The order as it stands, with the session it is bound to. */
  function Order(p: Purchase): Handshake.Purchase {
    p.deal.(session := p.session)
  }

  /** The receipt at hand passes the buyer's check. */
  predicate ReceiptOk(f: Handshake.Functions, p: Purchase) {
    p.receipt.Some? &&
    Handshake.VerifyPurchaseReceipt(f, Order(p), p.result, p.receipt.value) == Handshake.Verified(true)
  }

  /** The record after the receipt was fetched. */
  function Fetched(f: Handshake.Functions, p: Purchase, a: Answer): Purchase {
    if !a.ok then p.(state := Disputable, pc := End(p))
    else
      var q := p.(receipt := a.receipt);
      if !ReceiptOk(f, q) then q.(state := Disputable, pc := End(p))
      else if a.autoRelease then q.(pc := Releasing)
      else q.(state := AwaitRelease, pc := End(p))
  }

  /** The record after the next step of its orchestration; `known` says whether the
      acquired session is in the ledger. */
  function NextRecord(f: Handshake.Functions, p: Purchase, a: Answer, known: bool): Purchase {
    match p.pc
    case NotStarted => p
    case Starting => if a.ok then p.(state := EscrowOpening, pc := Acquiring) else p.(state := Failed, pc := Finished)
    case Acquiring =>
      if a.ok && !p.drawdown then p.(pc := Dialing, opens := p.opens + 1) else p.(state := Failed, pc := Finished)
    case OpeningSession => if a.ok then p.(pc := StampingOpen, opens := p.opens + 1) else p.(pc := ReturningDraw)
    case ReturningDraw => p.(pc := AbandoningSession)
    case AbandoningSession => p.(pc := Failing)
    case Failing => p.(state := Failed, pc := Finished)
    case StampingOpen => p.(pc := if known then Binding else Failing)
    case Binding => p.(session := p.home, pc := Dialing)
    case Dialing => p.(state := InSession, pc := Talking)
    case Talking =>
      if a.ok then p.(state := AwaitReceipt, pc := Fetching, result := a.result)
      else p.(state := Disputable, pc := End(p))
    case Fetching => Fetched(f, p, a)
    case Releasing => p.(pc := if a.called && a.ok then Recording else ReleaseRefused)
    case ReleaseRefused => p.(state := Disputable, pc := End(p))
    case Recording => p.(pc := Completing)
    case Completing => p.(state := Completed, pc := End(p))
    case Unwinding => p.(pc := if p.state == AwaitRelease || p.state == Completed then Finished else RollingBack)
    case RollingBack => p.(pc := Finished)
    case Finished => p
  }

  /** What the next step of the orchestration of `id` does to the ledger. */
  function LedgerAfter(st: State, id: string, p: Purchase, a: Answer): State {
    match p.pc
    case ReturningDraw => RolledBack(st, p.home, id, a.now)
    case RollingBack => RolledBack(st, p.home, id, a.now)
    case AbandoningSession => Ended(st, p.home, OpenFailed, a.now)
    case StampingOpen => Opened(st, p.home, a.tx, a.now)
    case Recording => if p.drawdown then Recorded(st, p.session, id, a.tx, a.now) else st
    case _ => st
  }

  /** The next step of the orchestration of `id`, other than acquiring a session. */
  function Advance(w: World, id: string, a: Answer): World
    requires id in w.purchases
  {
    var p := w.purchases[id];
    var p' := NextRecord(w.functions, p, a, p.home in w.ledger.mem);
    if p.pc == Releasing && a.called then Release(w, id, p', a.ok)
    else With(w.(ledger := LedgerAfter(w.ledger, id, p, a)), id, p')
  }

  /** A release call for `id`, whose record becomes `p`. */
  function Release(w: World, id: string, p: Purchase, ok: bool): World {
    var q := p.(attempts := p.attempts + 1);
    var w' := With(w, id, q);
    if ok && p.drawdown then w'.(payments := w.payments + [Payment(id, p.session, p.amount)]) else w'
  }

  /** The record after the ledger's answer. */
  function Granted(p: Purchase, g: Grant): Purchase {
    match g
    case Reused(s) => p.(home := s, pc := Binding)
    case Minted(s) => p.(home := s, pc := OpeningSession)
    case Refused => p.(state := Failed, pc := Finished)
  }

  /** Acquiring a drawdown session. */
  ghost predicate AcquireStep(w: World, id: string, q: Request, g: Grant, w': World) {
    && id in w.purchases && w.purchases[id].pc == Acquiring && w.purchases[id].drawdown
    && q.purchase == id && q.amount == w.purchases[id].amount
    && var deal := w.purchases[id].deal;
    && q.peer == deal.sellerPeer && q.seller == deal.seller && q.buyer == deal.buyer && q.token == deal.token
    && q.newId !in w.ledger.disk
    && Acquires(w.ledger, q, w'.ledger, g)
    && w' == With(w.(ledger := w'.ledger), id, Granted(w.purchases[id], g))
  }

  /** What a manual release at `pc` does to the ledger, to the record and to itself. */
  function HandLedger(st: State, id: string, p: Purchase, pc: HandPc, a: Answer): State {
    if pc == HandRecording && p.drawdown then Recorded(st, p.session, id, a.tx, a.now) else st
  }

  function HandRecord(p: Purchase, pc: HandPc): Purchase {
    match pc
    case HandCompleting => p.(state := Completed)
    case HandRefused => p.(state := Disputable)
    case _ => p
  }

  function HandsAfter(hands: map<nat, Hand>, n: nat, a: Answer): map<nat, Hand>
    requires n in hands
  {
    var id := hands[n].purchase;
    match hands[n].pc
    case HandCalling => hands[n := Hand(id, if a.called && a.ok then HandRecording else HandRefused)]
    case HandRecording => hands[n := Hand(id, HandCompleting)]
    case _ => hands - {n}
  }

  /** The next step of a manual release. Nothing is checked again after its start. */
  function HandStep(w: World, n: nat, a: Answer): World
    requires n in w.hands && w.hands[n].purchase in w.purchases
  {
    var Hand(id, pc) := w.hands[n];
    var p := w.purchases[id];
    var w' :=
      if pc == HandCalling && a.called then Release(w, id, p, a.ok)
      else With(w.(ledger := HandLedger(w.ledger, id, p, pc, a)), id, HandRecord(p, pc));
    w'.(hands := HandsAfter(w.hands, n, a))
  }

  function Stopped(p: Purchase): Purchase {
    if p.pc == NotStarted then p else p.(pc := Finished)
  }

  /** What an escrow event observed on chain does to a purchase. */
  datatype Event = Claimed | WasDisputed | WasResolved | WasWithdrawn

  function StateAfter(e: Event): PurchaseState {
    match e
    case Claimed => Completed
    case WasDisputed => InDispute
    case WasResolved => Settled
    case WasWithdrawn => Refunded
  }

  /** Every event but a claim ends the shared session. */
  function StatusAfter(e: Event): Status {
    match e
    case WasDisputed => Disputed
    case WasResolved => Resolved
    case _ => Closed
  }

  function EventLedger(st: State, p: Purchase, e: Event, now: int): State {
    if p.drawdown && e != Claimed then Ended(st, p.session, StatusAfter(e), now) else st
  }

  function Observed(w: World, id: string, e: Event, now: int): World
    requires id in w.purchases
  {
    var p := w.purchases[id];
    With(w.(ledger := EventLedger(w.ledger, p, e, now)), id, p.(state := StateAfter(e)))
  }

  datatype Step =
    | Begin(id: string, deal: Handshake.Purchase, amount: int, review: Option<string>)
    | Saturated(id: string, deal: Handshake.Purchase, amount: int)
    | Confirm(token: string)
    | DropReviews(expired: set<string>)
    | Orchestrate(id: string, a: Answer)
    | AcquireSession(id: string, q: Request, g: Grant)
    | Dispute(id: string, ok: bool, now: int)
    | Refund(id: string, ok: bool, now: int)
    | StartByHand(n: nat, id: string)
    | ByHand(n: nat, a: Answer)
    | Observe(id: string, e: Event, now: int)
    | Sweep(session: string, ok: bool, now: int)
    | Restart

  function NewPurchase(deal: Handshake.Purchase, amount: int, state: PurchaseState, pc: Pc): Purchase {
    var spawns := if pc == NotStarted then 0 else 1;
    Purchase(deal, deal.drawdown, amount, deal.session, "", state, pc, spawns, 0, 0, "", None)
  }

  function Confirmed(p: Purchase): Purchase {
    p.(state := Queued, pc := Starting, spawns := p.spawns + 1)
  }

  predicate IsDeal(deal: Handshake.Purchase, amount: int) {
    amount > 0 && deal.amount == Decimal(amount)
  }

  ghost predicate Next(w: World, step: Step, w': World) {
    match step
    case Begin(id, deal, amount, review) =>
      && id !in w.purchases && IsDeal(deal, amount)
      && (match review
          case Some(r) =>
            && r !in w.reviews
            && w' == With(w, id, NewPurchase(deal, amount, PendingReview, NotStarted)).(reviews := w.reviews[r := id])
          case None => w' == With(w, id, NewPurchase(deal, amount, Queued, Starting)))
    case Saturated(id, deal, amount) =>
      && id !in w.purchases && IsDeal(deal, amount)
      && w' == With(w, id, NewPurchase(deal, amount, Failed, NotStarted))
    case Confirm(r) =>
      && r in w.reviews && w.reviews[r] in w.purchases
      && var id := w.reviews[r];
      && w.purchases[id].state == PendingReview
      && w' == With(w, id, Confirmed(w.purchases[id])).(reviews := w.reviews - {r})
    case DropReviews(expired) => w' == w.(reviews := w.reviews - expired)
    case Orchestrate(id, a) => id in w.purchases && a.tx != "" && w' == Advance(w, id, a)
    case AcquireSession(id, q, g) => AcquireStep(w, id, q, g, w')
    case Dispute(id, ok, now) =>
      && id in w.purchases && w.purchases[id].state in {Disputable, AwaitRelease, InSession, AwaitReceipt}
      && w' == if ok then Observed(w, id, WasDisputed, now) else w
    case Refund(id, ok, now) =>
      && id in w.purchases && w.purchases[id].state in {Disputable, AwaitRelease, Failed}
      && w' == if ok then Observed(w, id, WasWithdrawn, now) else w
    case StartByHand(n, id) =>
      && n !in w.hands && id in w.purchases && w.purchases[id].state == AwaitRelease
      && w' == w.(hands := w.hands[n := Hand(id, HandCalling)])
    case ByHand(n, a) =>
      && n in w.hands && w.hands[n].purchase in w.purchases && a.tx != ""
      && w' == HandStep(w, n, a)
    case Observe(id, e, now) =>
      && id in w.purchases && w.purchases[id].state != PendingReview && w.purchases[id].session != ""
      && w' == Observed(w, id, e, now)
    case Sweep(s, ok, now) =>
      && s in w.ledger.mem
      && w' == if ok then w.(ledger := Ended(w.ledger, s, Closed, now)) else w
    case Restart =>
      w' == w.(ledger := State(w.ledger.disk, w.ledger.disk), reviews := map[], hands := map[],
               purchases := map id | id in w.purchases :: Stopped(w.purchases[id]))
  }

  // ----- What holds in every state

  /** `purchase` has a draw of `amount` among `draws`. */
  ghost predicate BookedIn(draws: seq<Draw>, purchase: string, amount: int) {
    exists i :: 0 <= i < |draws| && draws[i].purchase == purchase && draws[i].amount == amount
  }

  /** Every draw of `purchase` among `draws` carries a tx. */
  ghost predicate StampedIn(draws: seq<Draw>, purchase: string) {
    forall i :: 0 <= i < |draws| && draws[i].purchase == purchase ==> draws[i].tx != ""
  }

  ghost predicate OneDrawEach(draws: seq<Draw>) {
    forall i, j :: 0 <= i < j < |draws| ==> draws[i].purchase != draws[j].purchase
  }

  ghost predicate Booked(st: State, session: string, purchase: string, amount: int) {
    session in st.disk && BookedIn(st.disk[session].draws, purchase, amount)
  }

  ghost predicate Stamped(st: State, session: string, purchase: string) {
    session in st.disk ==> StampedIn(st.disk[session].draws, purchase)
  }

  ghost predicate GoodBooks(st: State) {
    Consistent(st) && forall s :: s in st.disk ==> OneDrawEach(st.disk[s].draws)
  }

  ghost predicate IsPaid(w: World, id: string) {
    exists i :: 0 <= i < |w.payments| && w.payments[i].purchase == id
  }

  /** How often `id` was paid. */
  function PaidTimes(payments: seq<Payment>, id: string): nat {
    if payments == [] then 0
    else
      var n := |payments| - 1;
      PaidTimes(payments[..n], id) + if payments[n].purchase == id then 1 else 0
  }

  /** The orchestration has acquired its session. */
  predicate Acquired(p: Purchase) {
    p.drawdown && p.pc !in {NotStarted, Starting, Acquiring}
  }

  /** Between acquiring and the end of the body the draw must be there. */
  predicate InFlight(p: Purchase) {
    p.pc in {OpeningSession, ReturningDraw, StampingOpen, Binding, Dialing, Talking, Fetching, Releasing,
             ReleaseRefused, Recording, Completing}
  }

  /** The session is written into the record. */
  predicate Bound(p: Purchase) {
    || p.pc in {Dialing, Talking, Fetching, Releasing, ReleaseRefused, Recording, Completing, Unwinding, RollingBack}
    || p.state == AwaitRelease
  }

  /** No orchestration is at work; at most the deferred rollback is left to do. */
  predicate AtRest(p: Purchase) {
    p.pc in {NotStarted, Unwinding, RollingBack, Finished}
  }

  predicate OnlyDrawdown(pc: Pc) {
    pc in {OpeningSession, ReturningDraw, AbandoningSession, Failing, StampingOpen, Binding, Unwinding, RollingBack}
  }

  /** What holds of a purchase by itself. */
  predicate PurchaseOk(p: Purchase) {
    && p.amount > 0
    && p.spawns == (if p.pc == NotStarted then 0 else 1)
    && (p.state == PendingReview ==> p.pc == NotStarted)
    && (p.pc == NotStarted ==> p.state !in {Disputable, AwaitRelease} && p.attempts == 0)
    && (p.state in {Disputable, AwaitRelease, Failed} ==> AtRest(p))
    && (!AtRest(p) ==> p.attempts <= 1)
    && (!AtRest(p) && p.pc !in {ReleaseRefused, Recording, Completing} ==> p.attempts == 0)
    && (p.state == AwaitRelease ==> p.pc in {Unwinding, Finished})
    && (p.drawdown && Bound(p) ==> p.session == p.home)
    && (OnlyDrawdown(p.pc) ==> p.drawdown)
  }

  /** A purchase that a manual release may be at work on. */
  predicate Rests(p: Purchase) {
    p.pc in {Unwinding, RollingBack, Finished} && (p.drawdown ==> p.session == p.home)
  }

  /** Every draw in the books belongs to a purchase that acquired that session. */
  ghost predicate BooksOk(w: World) {
    && GoodBooks(w.ledger)
    && (forall s, q, n :: Booked(w.ledger, s, q, n) ==>
          q in w.purchases && Acquired(w.purchases[q]) && s == w.purchases[q].home && n == w.purchases[q].amount)
  }

  /** A payment went to a drawdown purchase that called for it, from its session and in its
      amount. */
  ghost predicate PaymentOk(w: World, y: Payment) {
    && y.purchase in w.purchases
    && var p := w.purchases[y.purchase];
    && p.drawdown && p.attempts > 0 && y.session == p.home && y.amount == p.amount
  }

  ghost predicate PaymentsOk(w: World) {
    && (forall i :: 0 <= i < |w.payments| ==> PaymentOk(w, w.payments[i]))
    && (forall id :: id in w.purchases ==> PaidTimes(w.payments, id) <= w.purchases[id].attempts)
  }

  ghost predicate HandsOk(w: World) {
    forall n :: n in w.hands ==> w.hands[n].purchase in w.purchases && Rests(w.purchases[w.hands[n].purchase])
  }

  /** What every state of every run satisfies. */
  ghost predicate Base(w: World) {
    && BooksOk(w) && PaymentsOk(w) && HandsOk(w)
    && forall id :: id in w.purchases ==> PurchaseOk(w.purchases[id])
  }

  // ----- What holds as long as nothing hazardous is done

  ghost predicate MustBook(w: World, id: string)
    requires id in w.purchases
  {
    var p := w.purchases[id];
    p.drawdown && (InFlight(p) || p.state == AwaitRelease || IsPaid(w, id))
  }

  /** The draw of `id` is booked as long as it can still be paid, and once it was. */
  ghost predicate SettledOk(w: World, id: string)
    requires id in w.purchases
  {
    var p := w.purchases[id];
    MustBook(w, id) ==> Booked(w.ledger, p.home, id, p.amount)
  }

  ghost predicate Inv(w: World) {
    Base(w) && forall id :: id in w.purchases ==> SettledOk(w, id)
  }

  /** A manual release is paid although the draw is no longer in the book. */
  ghost predicate UnbookedPay(w: World, step: Step) {
    && step.ByHand? && step.n in w.hands && w.hands[step.n].pc == HandCalling && step.a.called && step.a.ok
    && w.hands[step.n].purchase in w.purchases
    && var p := w.purchases[w.hands[step.n].purchase];
    && p.drawdown && !Booked(w.ledger, p.home, w.hands[step.n].purchase, p.amount)
  }

  /** The deferred rollback reaches a draw that was paid and not yet recorded. */
  ghost predicate RollsBackPaid(w: World, step: Step) {
    && step.Orchestrate? && step.id in w.purchases
    && var p := w.purchases[step.id];
    && p.pc == RollingBack && IsPaid(w, step.id)
    && p.home in w.ledger.mem && !Stamped(w.ledger, p.home, step.id)
  }

  /** The step leaves a payment without its draw. */
  ghost predicate Unbooks(w: World, step: Step) {
    UnbookedPay(w, step) || RollsBackPaid(w, step)
  }

  /** What is counted of a purchase: the calls of the rail to release its payment, or the
      payments of its draw. */
  datatype Count = Calls | Payments

  function Times(w: World, id: string, c: Count): nat
    requires id in w.purchases
  {
    match c
    case Calls => w.purchases[id].attempts
    case Payments => PaidTimes(w.payments, id)
  }

  /** The step counts for `id`. */
  predicate Happens(w: World, step: Step, id: string, c: Count) {
    match step
    case Orchestrate(q, a) =>
      && q == id && id in w.purchases && w.purchases[id].pc == Releasing && a.called
      && (c == Calls || (a.ok && w.purchases[id].drawdown))
    case ByHand(n, a) =>
      && n in w.hands && w.hands[n] == Hand(id, HandCalling) && id in w.purchases && a.called
      && (c == Calls || (a.ok && w.purchases[id].drawdown))
    case _ => false
  }

  /** A manual release does it again. */
  predicate Repeats(w: World, step: Step, c: Count) {
    && step.ByHand? && step.n in w.hands && w.hands[step.n].purchase in w.purchases
    && Happens(w, step, w.hands[step.n].purchase, c) && Times(w, w.hands[step.n].purchase, c) > 0
  }

  /** What must not happen for at most one call, or payment, each and a draw for every
      payment. */
  ghost predicate Hazard(w: World, step: Step, c: Count) {
    Repeats(w, step, c) || Unbooks(w, step)
  }

  // ----- The ledger's moves, seen from the purchases

  /** Between `a` and `b` only draws of `id` come, go or change. */
  ghost predicate Moves(a: State, b: State, id: string) {
    && GoodBooks(b)
    && (forall s :: s in b.mem ==> s in a.mem || s !in a.disk)
    && (forall s, q, n :: q != id ==> (Booked(a, s, q, n) <==> Booked(b, s, q, n)))
    && (forall s, q :: q != id && Stamped(a, s, q) ==> Stamped(b, s, q))
  }

  /** The draws of `id` are the same too. */
  ghost predicate SameBooks(a: State, b: State) {
    && b.mem.Keys == a.mem.Keys
    && (forall s, q, n :: Booked(a, s, q, n) <==> Booked(b, s, q, n))
    && (forall s, q :: Stamped(a, s, q) ==> Stamped(b, s, q))
  }

  lemma RemovedDraws(draws: seq<Draw>, i: nat)
    requires i < |draws| && OneDrawEach(draws)
    ensures var t := draws[..i] + draws[i + 1..];
      && OneDrawEach(t)
      && |t| == |draws| - 1 && forall k :: 0 <= k < |t| ==> t[k] == draws[if k < i then k else k + 1]
  {
  }

  lemma GiveBackMoves(s: Session, id: string, q: string, n: int)
    requires OneDrawEach(s.draws)
    ensures var t := GiveBack(s, id).draws;
      && OneDrawEach(t)
      && (BookedIn(t, q, n) ==> BookedIn(s.draws, q, n))
      && (StampedIn(s.draws, q) ==> StampedIn(t, q))
  {
    var i := LastPending(s.draws, id);
    if i >= 0 {
      RemovedDraws(s.draws, i);
    }
  }

  lemma GiveBackKeeps(s: Session, id: string, q: string, n: int)
    requires OneDrawEach(s.draws) && BookedIn(s.draws, q, n) && (q != id || StampedIn(s.draws, id))
    ensures BookedIn(GiveBack(s, id).draws, q, n)
  {
    var i := LastPending(s.draws, id);
    if i >= 0 {
      RemovedDraws(s.draws, i);
      var k :| 0 <= k < |s.draws| && s.draws[k].purchase == q && s.draws[k].amount == n;
      assert GiveBack(s, id).draws[if k < i then k else k - 1] == s.draws[k];
    }
  }

  lemma StampMoves(s: Session, id: string, tx: string, now: int, q: string, n: int)
    requires OneDrawEach(s.draws) && tx != ""
    ensures var t := Stamp(s, id, tx, now).draws;
      && OneDrawEach(t)
      && (BookedIn(t, q, n) <==> BookedIn(s.draws, q, n))
      && (StampedIn(s.draws, q) ==> StampedIn(t, q))
      && StampedIn(t, id)
  {
    var t := Stamp(s, id, tx, now).draws;
    assert |t| == |s.draws| &&
      forall k :: 0 <= k < |t| ==> t[k].purchase == s.draws[k].purchase && t[k].amount == s.draws[k].amount;
  }

  /** Saving a session that is already there. */
  lemma SaveMoves(a: State, session: string, t: Session, id: string)
    requires GoodBooks(a) && session in a.mem && t.Valid() && OneDrawEach(t.draws)
    requires forall q, n :: q != id ==> (BookedIn(a.mem[session].draws, q, n) <==> BookedIn(t.draws, q, n))
    requires forall q :: q != id && StampedIn(a.mem[session].draws, q) ==> StampedIn(t.draws, q)
    ensures Moves(a, Save(a, session, t), id) && Save(a, session, t).mem.Keys == a.mem.Keys
  {
  }

  /** What giving back the draw of `id` does to a book, for all purchases at once. */
  lemma GiveBackBooks(s: Session, id: string)
    requires OneDrawEach(s.draws)
    ensures var t := GiveBack(s, id).draws;
      && OneDrawEach(t)
      && (forall q, n :: BookedIn(t, q, n) ==> BookedIn(s.draws, q, n))
      && (forall q, n :: BookedIn(s.draws, q, n) && (q != id || StampedIn(s.draws, id)) ==> BookedIn(t, q, n))
      && (forall q :: StampedIn(s.draws, q) ==> StampedIn(t, q))
  {
    var t := GiveBack(s, id).draws;
    GiveBackMoves(s, id, id, 0);
    forall q, n ensures BookedIn(t, q, n) ==> BookedIn(s.draws, q, n) {
      GiveBackMoves(s, id, q, n);
    }
    forall q | StampedIn(s.draws, q) ensures StampedIn(t, q) {
      GiveBackMoves(s, id, q, 0);
    }
    forall q, n | BookedIn(s.draws, q, n) && (q != id || StampedIn(s.draws, id)) ensures BookedIn(t, q, n) {
      GiveBackKeeps(s, id, q, n);
    }
  }

  lemma RollbackMoves(a: State, session: string, id: string, now: int)
    requires GoodBooks(a)
    ensures var b := RolledBack(a, session, id, now);
      && Moves(a, b, id)
      && (forall s, q, n :: Booked(b, s, q, n) ==> Booked(a, s, q, n))
      && (forall s, n :: Booked(a, s, id, n) && (session !in a.mem || Stamped(a, session, id)) ==> Booked(b, s, id, n))
  {
    if session in a.mem {
      var s := a.mem[session];
      GiveBackBooks(s, id);
      GiveBackKeepsValid(s, id);
      var t := GiveBack(s, id).(updated := now);
      assert t.Valid() && t.draws == GiveBack(s, id).draws;
      SaveMoves(a, session, t, id);
    }
  }

  /** A change of a session that leaves its draws alone. */
  lemma SameDrawsMoves(a: State, session: string, t: Session, id: string)
    requires GoodBooks(a) && session in a.mem && t.draws == a.mem[session].draws && t.Valid()
    ensures Moves(a, Save(a, session, t), id) && SameBooks(a, Save(a, session, t))
  {
    SaveMoves(a, session, t, id);
    SameDrawsBooks(a, session, t);
  }

  lemma SameDrawsBooks(a: State, session: string, t: Session)
    requires Consistent(a) && session in a.mem && t.draws == a.mem[session].draws
    ensures SameBooks(a, Save(a, session, t))
  {
    var b := Save(a, session, t);
    assert b.mem.Keys == a.mem.Keys;
    forall s, q, n ensures Booked(a, s, q, n) <==> Booked(b, s, q, n) {
      SameDrawsAt(a, session, t, s);
    }
    forall s, q | Stamped(a, s, q) ensures Stamped(b, s, q) {
      SameDrawsAt(a, session, t, s);
    }
  }

  lemma SameDrawsAt(a: State, session: string, t: Session, s: string)
    requires Consistent(a) && session in a.mem && t.draws == a.mem[session].draws
    ensures var b := Save(a, session, t);
      (s in a.disk <==> s in b.disk) && (s in b.disk ==> b.disk[s].draws == a.disk[s].draws)
  {
  }

  lemma EndedMoves(a: State, session: string, status: Status, now: int, id: string)
    requires GoodBooks(a)
    ensures Moves(a, Ended(a, session, status, now), id) && SameBooks(a, Ended(a, session, status, now))
  {
    if session in a.mem {
      SameDrawsMoves(a, session, a.mem[session].(status := status, updated := now), id);
    }
  }

  lemma OpenedMoves(a: State, session: string, tx: string, now: int, id: string)
    requires GoodBooks(a) && tx != ""
    ensures Moves(a, Opened(a, session, tx, now), id) && SameBooks(a, Opened(a, session, tx, now))
  {
    if session in a.mem {
      SameDrawsMoves(a, session, a.mem[session].(openTx := tx, updated := now), id);
    }
  }

  lemma RecordedMoves(a: State, session: string, id: string, tx: string, now: int)
    requires GoodBooks(a) && tx != ""
    ensures var b := Recorded(a, session, id, tx, now);
      && Moves(a, b, id) && b.mem.Keys == a.mem.Keys
      && (forall s, q, n :: Booked(a, s, q, n) <==> Booked(b, s, q, n))
      && (session in a.mem ==> Stamped(b, session, id))
  {
    if session in a.mem {
      var s := a.mem[session];
      var t := Stamp(s, id, tx, now).(updated := now);
      forall q, n {
        StampMoves(s, id, tx, now, q, n);
      }
      StampMoves(s, id, tx, now, id, 0);
      StampKeepsValid(s, id, tx, now);
      assert t.Valid();
      SaveMoves(a, session, t, id);
    }
  }

  lemma AcquireMoves(a: State, q: Request, b: State, g: Grant)
    requires GoodBooks(a) && Acquires(a, q, b, g) && q.amount > 0 && q.newId !in a.disk
    requires forall s, n :: !Booked(a, s, q.purchase, n)
    ensures Moves(a, b, q.purchase)
    ensures forall s, n :: Booked(b, s, q.purchase, n) ==> !g.Refused? && s == g.id && n == q.amount
    ensures !g.Refused? ==> Booked(b, g.id, q.purchase, q.amount)
  {
    AcquireKeepsConsistent(a, q, b, g);
    match g {
      case Reused(id) => AppendMoves(a, id, b.mem[id], q.purchase, q.amount);
      case Minted(id) => AddMoves(a, b, id, q.purchase, q.amount);
      case Refused =>
    }
  }

  lemma AppendBooks(draws: seq<Draw>, purchase: string, amount: int, q: string, n: int)
    ensures var t := draws + [Draw(purchase, amount, "", None)];
      && (BookedIn(t, q, n) <==> BookedIn(draws, q, n) || (q == purchase && n == amount))
      && (q != purchase && StampedIn(draws, q) ==> StampedIn(t, q))
  {
    var t := draws + [Draw(purchase, amount, "", None)];
    assert t[|draws|] == Draw(purchase, amount, "", None);
    if BookedIn(draws, q, n) {
      var i :| 0 <= i < |draws| && draws[i].purchase == q && draws[i].amount == n;
      assert t[i] == draws[i];
    }
  }

  lemma AppendMoves(a: State, id: string, t: Session, purchase: string, amount: int)
    requires GoodBooks(a) && id in a.mem && t.Valid()
    requires t.draws == a.mem[id].draws + [Draw(purchase, amount, "", None)]
    requires forall s, n :: !Booked(a, s, purchase, n)
    ensures Moves(a, Save(a, id, t), purchase)
    ensures forall s, n :: Booked(Save(a, id, t), s, purchase, n) ==> s == id && n == amount
    ensures Booked(Save(a, id, t), id, purchase, amount)
  {
    var draws := a.mem[id].draws;
    forall i | 0 <= i < |draws| ensures draws[i].purchase != purchase {
      assert !Booked(a, id, purchase, draws[i].amount);
    }
    assert OneDrawEach(t.draws);
    forall q, n | q != purchase ensures BookedIn(draws, q, n) <==> BookedIn(t.draws, q, n) {
      AppendBooks(draws, purchase, amount, q, n);
    }
    forall q | q != purchase && StampedIn(draws, q) ensures StampedIn(t.draws, q) {
      AppendBooks(draws, purchase, amount, q, 0);
    }
    SaveMoves(a, id, t, purchase);
    AppendBooks(draws, purchase, amount, purchase, amount);
    forall s, n | Booked(Save(a, id, t), s, purchase, n) ensures s == id && n == amount {
      assert !Booked(a, s, purchase, n);
      AppendBooks(draws, purchase, amount, purchase, n);
    }
  }

  lemma AddMoves(a: State, b: State, id: string, purchase: string, amount: int)
    requires GoodBooks(a) && Consistent(b) && id !in a.disk
    requires id in b.disk && b.disk == a.disk[id := b.disk[id]]
    requires b.disk[id].draws == [Draw(purchase, amount, "", None)]
    requires b.mem.Keys <= a.mem.Keys + {id}
    requires forall s, n :: !Booked(a, s, purchase, n)
    ensures Moves(a, b, purchase)
    ensures forall s, n :: Booked(b, s, purchase, n) ==> s == id && n == amount
    ensures Booked(b, id, purchase, amount)
  {
    var draws := b.disk[id].draws;
    assert draws[0] == Draw(purchase, amount, "", None);
    forall s, q, n ensures Booked(b, s, q, n) <==> Booked(a, s, q, n) || (s == id && q == purchase && n == amount) {
    }
  }

  // ----- One purchase moves, the others stay

  /** How a step may change the record of a purchase. */
  predicate RecordMoves(p: Purchase, p': Purchase) {
    && p'.drawdown == p.drawdown && p'.amount == p.amount && p'.attempts >= p.attempts
    && (p.attempts > 0 ==> p'.home == p.home)
    && (Rests(p) ==> Rests(p'))
  }

  ghost predicate OthersSame(w: World, w': World, id: string) {
    && w'.purchases.Keys == w.purchases.Keys + {id}
    && (forall q :: q in w.purchases && q != id ==> w'.purchases[q] == w.purchases[q])
    && (id in w.purchases ==> RecordMoves(w.purchases[id], w'.purchases[id]))
  }

  /** The payments stay, or `id` is paid for one more call. */
  ghost predicate PaymentsMove(w: World, w': World, id: string) {
    || w'.payments == w.payments
    || (&& id in w.purchases && id in w'.purchases
        && var p' := w'.purchases[id];
        && p'.drawdown && p'.attempts > w.purchases[id].attempts
        && w'.payments == w.payments + [Payment(id, p'.home, p'.amount)])
  }

  /** A manual release starts only on `id`, and only when that is at rest. */
  ghost predicate HandsMove(w: World, w': World, id: string) {
    forall n :: n in w'.hands ==>
      || (n in w.hands && w'.hands[n].purchase == w.hands[n].purchase)
      || (w'.hands[n].purchase == id && id in w'.purchases && Rests(w'.purchases[id]))
  }

  ghost predicate BooksOf(st: State, id: string, p: Purchase) {
    forall s, n :: Booked(st, s, id, n) ==> Acquired(p) && s == p.home && n == p.amount
  }

  lemma {:induction false} PaidTimesIff(payments: seq<Payment>, id: string)
    ensures PaidTimes(payments, id) > 0 <==> exists i :: 0 <= i < |payments| && payments[i].purchase == id
  {
    if payments != [] {
      var n := |payments| - 1;
      PaidTimesIff(payments[..n], id);
      assert forall i :: 0 <= i < n ==> payments[..n][i] == payments[i];
    }
  }

  lemma PaidTimesOne(payments: seq<Payment>, y: Payment, id: string)
    ensures PaidTimes(payments + [y], id) == PaidTimes(payments, id) + if y.purchase == id then 1 else 0
  {
    assert (payments + [y])[..|payments|] == payments;
  }

  lemma FramedPayments(w: World, w': World, id: string)
    requires PaymentsOk(w) && OthersSame(w, w', id) && PaymentsMove(w, w', id)
    ensures PaymentsOk(w')
  {
    forall i | 0 <= i < |w'.payments| ensures PaymentOk(w', w'.payments[i]) {
      if i < |w.payments| {
        assert PaymentOk(w, w.payments[i]) && w'.payments[i] == w.payments[i];
      }
    }
    forall q | q in w'.purchases ensures PaidTimes(w'.payments, q) <= w'.purchases[q].attempts {
      if q !in w.purchases {
        PaidTimesIff(w.payments, q);
        assert forall i :: 0 <= i < |w.payments| ==> PaymentOk(w, w.payments[i]);
      }
      if w'.payments != w.payments {
        PaidTimesOne(w.payments, w'.payments[|w.payments|], q);
      }
    }
  }

  lemma FramedBooks(w: World, w': World, id: string)
    requires BooksOk(w) && OthersSame(w, w', id) && Moves(w.ledger, w'.ledger, id)
    requires BooksOf(w'.ledger, id, w'.purchases[id])
    ensures BooksOk(w')
  {
    forall s, q, n | Booked(w'.ledger, s, q, n)
      ensures q in w'.purchases && Acquired(w'.purchases[q]) && s == w'.purchases[q].home && n == w'.purchases[q].amount
    {
      assert q != id ==> Booked(w.ledger, s, q, n);
    }
  }

  lemma FramedBase(w: World, w': World, id: string)
    requires Base(w) && OthersSame(w, w', id) && PaymentsMove(w, w', id) && HandsMove(w, w', id)
    requires Moves(w.ledger, w'.ledger, id) && BooksOf(w'.ledger, id, w'.purchases[id]) && PurchaseOk(w'.purchases[id])
    ensures Base(w')
  {
    FramedPayments(w, w', id);
    FramedBooks(w, w', id);
  }

  lemma PaidSame(w: World, w': World, id: string, q: string)
    requires PaymentsMove(w, w', id) && q != id
    ensures IsPaid(w', q) <==> IsPaid(w, q)
  {
    if IsPaid(w, q) {
      var i :| 0 <= i < |w.payments| && w.payments[i].purchase == q;
      assert w'.payments[i].purchase == q;
    }
  }

  lemma FramedInv(w: World, w': World, id: string)
    requires Inv(w) && Base(w') && OthersSame(w, w', id) && PaymentsMove(w, w', id) && Moves(w.ledger, w'.ledger, id)
    requires SettledOk(w', id)
    ensures Inv(w')
  {
    forall q | q in w'.purchases ensures SettledOk(w', q) {
      if q != id {
        assert SettledOk(w, q);
        PaidSame(w, w', id, q);
      }
    }
  }

  /** A purchase that has made no release call has not been paid. */
  lemma NoAttemptNoPay(w: World, id: string)
    requires PaymentsOk(w) && id in w.purchases && w.purchases[id].attempts == 0
    ensures !IsPaid(w, id)
  {
    PaidTimesIff(w.payments, id);
  }

  lemma SameMoves(a: State, id: string)
    requires GoodBooks(a)
    ensures Moves(a, a, id)
  {
  }

  lemma BooksHold(w: World, id: string, p': Purchase)
    requires BooksOk(w) && id in w.purchases
    requires var p := w.purchases[id]; p'.amount == p.amount && p'.home == p.home && (Acquired(p) ==> Acquired(p'))
    ensures BooksOf(w.ledger, id, p')
  {
  }

  // ----- The orchestration

  /** What one orchestration step does to its own record. */
  lemma NextRecordOk(f: Handshake.Functions, p: Purchase, a: Answer, known: bool)
    requires PurchaseOk(p) && (p.pc != Releasing || !a.called)
    ensures var p' := NextRecord(f, p, a, known);
      && PurchaseOk(p') && RecordMoves(p, p') && p'.attempts == p.attempts && p'.home == p.home
      && (Acquired(p) ==> Acquired(p'))
      && (InFlight(p') || p'.state == AwaitRelease ==> !p.drawdown || InFlight(p) || p.state == AwaitRelease)
      && (p.pc in {ReturningDraw, RollingBack} ==> !InFlight(p') && p'.state != AwaitRelease)
  {
    NextRecordStaysOk(f, p, a, known);
    NextRecordMoves(f, p, a, known);
    NextRecordHolds(f, p, a, known);
  }

  lemma NextRecordStaysOk(f: Handshake.Functions, p: Purchase, a: Answer, known: bool)
    requires PurchaseOk(p) && (p.pc != Releasing || !a.called)
    ensures PurchaseOk(NextRecord(f, p, a, known))
  {
    if p.pc == Fetching {
      FetchedOk(f, p, a);
    }
  }

  lemma FetchedOk(f: Handshake.Functions, p: Purchase, a: Answer)
    requires PurchaseOk(p) && p.pc == Fetching
    ensures PurchaseOk(Fetched(f, p, a))
  {
  }

  lemma NextRecordMoves(f: Handshake.Functions, p: Purchase, a: Answer, known: bool)
    requires PurchaseOk(p)
    ensures var p' := NextRecord(f, p, a, known);
      RecordMoves(p, p') && p'.attempts == p.attempts && p'.home == p.home && (Acquired(p) ==> Acquired(p'))
  {
  }

  lemma NextRecordHolds(f: Handshake.Functions, p: Purchase, a: Answer, known: bool)
    requires PurchaseOk(p)
    ensures var p' := NextRecord(f, p, a, known);
      && (InFlight(p') || p'.state == AwaitRelease ==> !p.drawdown || InFlight(p) || p.state == AwaitRelease)
      && (p.pc in {ReturningDraw, RollingBack} ==> !InFlight(p') && p'.state != AwaitRelease)
  {
  }

  /** The record changes, and the book of its draw at most. */
  lemma StepBase(w: World, st: State, id: string, p': Purchase)
    requires Base(w) && id in w.purchases && PurchaseOk(p') && RecordMoves(w.purchases[id], p')
    requires Moves(w.ledger, st, id) && BooksOf(st, id, p')
    ensures Base(With(w.(ledger := st), id, p'))
  {
    FramedBase(w, With(w.(ledger := st), id, p'), id);
  }

  lemma StepInv(w: World, st: State, id: string, p': Purchase)
    requires Inv(w) && id in w.purchases && PurchaseOk(p') && RecordMoves(w.purchases[id], p')
    requires Moves(w.ledger, st, id) && BooksOf(st, id, p')
    requires p'.drawdown && (InFlight(p') || p'.state == AwaitRelease || IsPaid(w, id)) ==>
      Booked(st, p'.home, id, p'.amount)
    ensures Inv(With(w.(ledger := st), id, p'))
  {
    var w' := With(w.(ledger := st), id, p');
    StepBase(w, st, id, p');
    assert IsPaid(w', id) == IsPaid(w, id);
    FramedInv(w, w', id);
  }

  /** A release call. */
  lemma ReleaseBase(w: World, id: string, p': Purchase, ok: bool)
    requires Base(w) && id in w.purchases && RecordMoves(w.purchases[id], p') && p'.attempts == w.purchases[id].attempts
    requires PurchaseOk(p'.(attempts := p'.attempts + 1)) && BooksOf(w.ledger, id, p')
    requires p'.drawdown ==> p'.session == p'.home
    ensures Base(Release(w, id, p', ok))
    ensures OthersSame(w, Release(w, id, p', ok), id) && PaymentsMove(w, Release(w, id, p', ok), id)
  {
    var w' := Release(w, id, p', ok);
    SameMoves(w.ledger, id);
    assert OthersSame(w, w', id) && PaymentsMove(w, w', id);
    FramedBase(w, w', id);
  }

  lemma ReleaseInv(w: World, id: string, p': Purchase, ok: bool)
    requires Inv(w) && id in w.purchases && RecordMoves(w.purchases[id], p') && p'.attempts == w.purchases[id].attempts
    requires PurchaseOk(p'.(attempts := p'.attempts + 1)) && BooksOf(w.ledger, id, p')
    requires p'.home == w.purchases[id].home && (p'.drawdown ==> p'.session == p'.home)
    requires p'.drawdown && (InFlight(p') || p'.state == AwaitRelease || ok) ==>
      Booked(w.ledger, p'.home, id, p'.amount)
    ensures Inv(Release(w, id, p', ok))
  {
    var w' := Release(w, id, p', ok);
    ReleaseBase(w, id, p', ok);
    assert SettledOk(w, id);
    assert IsPaid(w', id) ==> IsPaid(w, id) || ok;
    SameMoves(w.ledger, id);
    FramedInv(w, w', id);
  }

  /** The ledger after the next step of an orchestration. */
  lemma LedgerAfterMoves(st: State, id: string, p: Purchase, a: Answer)
    requires GoodBooks(st) && a.tx != ""
    ensures var st' := LedgerAfter(st, id, p, a);
      && Moves(st, st', id)
      && (forall s, n :: Booked(st', s, id, n) ==> Booked(st, s, id, n))
      && (p.pc !in {ReturningDraw, RollingBack} ==> forall s, n :: Booked(st, s, id, n) ==> Booked(st', s, id, n))
      && (p.pc == RollingBack ==> forall s, n ::
            Booked(st, s, id, n) && (p.home !in st.mem || Stamped(st, p.home, id)) ==> Booked(st', s, id, n))
  {
    SameMoves(st, id);
    match p.pc {
      case ReturningDraw => RollbackMoves(st, p.home, id, a.now);
      case RollingBack => RollbackMoves(st, p.home, id, a.now);
      case AbandoningSession => EndedMoves(st, p.home, OpenFailed, a.now, id);
      case StampingOpen => OpenedMoves(st, p.home, a.tx, a.now, id);
      case Recording => RecordedMoves(st, p.session, id, a.tx, a.now);
      case _ =>
    }
  }

  /** What a step other than a release call does to record and books. */
  lemma AdvanceMoves(w: World, id: string, a: Answer, p': Purchase)
    requires Base(w) && id in w.purchases && a.tx != "" && !(w.purchases[id].pc == Releasing && a.called)
    requires p' == NextRecord(w.functions, w.purchases[id], a, w.purchases[id].home in w.ledger.mem)
    ensures var p, st := w.purchases[id], LedgerAfter(w.ledger, id, w.purchases[id], a);
      && PurchaseOk(p') && RecordMoves(p, p') && Moves(w.ledger, st, id) && BooksOf(st, id, p')
  {
    NextRecordOk(w.functions, w.purchases[id], a, w.purchases[id].home in w.ledger.mem);
    LedgerAfterMoves(w.ledger, id, w.purchases[id], a);
    BooksHold(w, id, p');
  }

  /** What a release call of the orchestration finds. */
  lemma CallRecord(f: Handshake.Functions, p: Purchase, a: Answer, known: bool)
    requires PurchaseOk(p) && p.pc == Releasing && a.called
    ensures var p' := NextRecord(f, p, a, known);
      && RecordMoves(p, p') && PurchaseOk(p'.(attempts := 1)) && p'.attempts == p.attempts == 0
      && p'.home == p.home && (Acquired(p) ==> Acquired(p')) && (p'.drawdown ==> p'.session == p'.home)
  {
  }

  lemma AdvanceKeepsBase(w: World, id: string, a: Answer)
    requires Base(w) && id in w.purchases && a.tx != ""
    ensures Base(Advance(w, id, a))
  {
    var p := w.purchases[id];
    var p' := NextRecord(w.functions, p, a, p.home in w.ledger.mem);
    if p.pc == Releasing && a.called {
      CallRecord(w.functions, p, a, p.home in w.ledger.mem);
      BooksHold(w, id, p');
      ReleaseBase(w, id, p', a.ok);
    } else {
      AdvanceMoves(w, id, a, p');
      StepBase(w, LedgerAfter(w.ledger, id, p, a), id, p');
    }
  }

  /** A step of an orchestration keeps draws and payments in agreement, whatever the rail
      and the seller answer, unless its deferred rollback reaches a paid draw. */
  lemma AdvanceKeepsInv(w: World, id: string, a: Answer)
    requires Inv(w) && id in w.purchases && a.tx != "" && !RollsBackPaid(w, Orchestrate(id, a))
    ensures Inv(Advance(w, id, a))
  {
    var p := w.purchases[id];
    var p' := NextRecord(w.functions, p, a, p.home in w.ledger.mem);
    if p.pc == Releasing && a.called {
      assert SettledOk(w, id);
      CallRecord(w.functions, p, a, p.home in w.ledger.mem);
      BooksHold(w, id, p');
      ReleaseInv(w, id, p', a.ok);
    } else {
      AdvanceMoves(w, id, a, p');
      NextRecordOk(w.functions, p, a, p.home in w.ledger.mem);
      LedgerAfterMoves(w.ledger, id, p, a);
      DrawStays(w, id, LedgerAfter(w.ledger, id, p, a), p');
      StepInv(w, LedgerAfter(w.ledger, id, p, a), id, p');
    }
  }

  /** Afterwards the draw is still booked if it has to be. */
  lemma DrawStays(w: World, id: string, st: State, p': Purchase)
    requires Inv(w) && id in w.purchases
    requires var p := w.purchases[id];
      && p'.attempts == p.attempts && p'.home == p.home && p'.amount == p.amount && p'.drawdown == p.drawdown
      && (InFlight(p') || p'.state == AwaitRelease ==> !p.drawdown || InFlight(p) || p.state == AwaitRelease)
      && (p.pc in {ReturningDraw, RollingBack} ==> !InFlight(p') && p'.state != AwaitRelease)
      && (p.pc !in {ReturningDraw, RollingBack} ==> forall s, n :: Booked(w.ledger, s, id, n) ==> Booked(st, s, id, n))
      && (p.pc == RollingBack ==> forall s, n ::
            Booked(w.ledger, s, id, n) && (p.home !in w.ledger.mem || Stamped(w.ledger, p.home, id)) ==>
              Booked(st, s, id, n))
      && (p.pc == RollingBack && IsPaid(w, id) && p.home in w.ledger.mem ==> Stamped(w.ledger, p.home, id))
    ensures p'.drawdown && (InFlight(p') || p'.state == AwaitRelease || IsPaid(w, id)) ==>
      Booked(st, p'.home, id, p'.amount)
  {
    assert SettledOk(w, id) && PurchaseOk(w.purchases[id]);
    if w.purchases[id].pc == ReturningDraw {
      NoAttemptNoPay(w, id);
    }
  }

  lemma GrantedOk(p: Purchase, g: Grant)
    requires PurchaseOk(p) && p.pc == Acquiring && p.drawdown
    ensures var p' := Granted(p, g);
      && PurchaseOk(p') && RecordMoves(p, p') && p'.attempts == 0 && p'.state != AwaitRelease
      && (!g.Refused? ==> Acquired(p') && p'.home == g.id)
      && (g.Refused? ==> !InFlight(p'))
  {
  }

  lemma AcquireBooks(w: World, id: string, q: Request, g: Grant, w': World)
    requires Base(w) && AcquireStep(w, id, q, g, w')
    ensures var p' := Granted(w.purchases[id], g);
      && Moves(w.ledger, w'.ledger, id) && BooksOf(w'.ledger, id, p')
      && (InFlight(p') ==> Booked(w'.ledger, p'.home, id, p'.amount))
  {
    assert PurchaseOk(w.purchases[id]);
    GrantedOk(w.purchases[id], g);
    AcquireMoves(w.ledger, q, w'.ledger, g);
  }

  lemma AcquireKeepsBase(w: World, id: string, q: Request, g: Grant, w': World)
    requires Base(w) && AcquireStep(w, id, q, g, w')
    ensures Base(w')
  {
    GrantedOk(w.purchases[id], g);
    AcquireBooks(w, id, q, g, w');
    StepBase(w, w'.ledger, id, Granted(w.purchases[id], g));
  }

  /** Acquiring a session keeps draws and payments in agreement. */
  lemma AcquireKeepsInv(w: World, id: string, q: Request, g: Grant, w': World)
    requires Inv(w) && AcquireStep(w, id, q, g, w')
    ensures Inv(w')
  {
    GrantedOk(w.purchases[id], g);
    AcquireBooks(w, id, q, g, w');
    NoAttemptNoPay(w, id);
    StepInv(w, w'.ledger, id, Granted(w.purchases[id], g));
  }

  // ----- The operator and the chain

  /** Manual releases that go on or end change nothing else. */
  lemma FewerHands(w: World, hands: map<nat, Hand>)
    requires Base(w) && forall n :: n in hands ==> n in w.hands && hands[n].purchase == w.hands[n].purchase
    ensures Base(w.(hands := hands)) && (Inv(w) ==> Inv(w.(hands := hands)))
  {
    var w' := w.(hands := hands);
    StillBase(w, w');
    if Inv(w) {
      StillInv(w, w');
    }
  }

  lemma HandMoves(w: World, id: string, p: Purchase, pc: HandPc, a: Answer)
    requires Base(w) && id in w.purchases && p == w.purchases[id] && Rests(p) && a.tx != ""
    ensures var st, p' := HandLedger(w.ledger, id, p, pc, a), HandRecord(p, pc);
      && PurchaseOk(p') && RecordMoves(p, p') && p'.attempts == p.attempts && p'.home == p.home
      && Moves(w.ledger, st, id) && BooksOf(st, id, p')
      && (p'.state == AwaitRelease ==> p.state == AwaitRelease)
      && (forall s, m :: Booked(w.ledger, s, id, m) <==> Booked(st, s, id, m))
  {
    assert PurchaseOk(p);
    SameMoves(w.ledger, id);
    BooksHold(w, id, HandRecord(p, pc));
    if pc == HandRecording && p.drawdown {
      RecordedMoves(w.ledger, p.session, id, a.tx, a.now);
    }
  }

  lemma CallByHand(w: World, id: string)
    requires Base(w) && id in w.purchases && Rests(w.purchases[id])
    ensures var p := w.purchases[id];
      RecordMoves(p, p) && PurchaseOk(p.(attempts := p.attempts + 1)) && BooksOf(w.ledger, id, p)
  {
    assert PurchaseOk(w.purchases[id]);
    BooksHold(w, id, w.purchases[id]);
  }

  lemma HandsAfterFewer(hands: map<nat, Hand>, n: nat, a: Answer)
    requires n in hands
    ensures var after := HandsAfter(hands, n, a);
      forall m :: m in after ==> m in hands && after[m].purchase == hands[m].purchase
  {
  }

  /** A manual release calls the rail. */
  lemma HandCalls(w: World, id: string, ok: bool, hands: map<nat, Hand>)
    requires Base(w) && id in w.purchases && Rests(w.purchases[id])
    requires forall n :: n in hands ==> n in w.hands && hands[n].purchase == w.hands[n].purchase
    ensures Base(Release(w, id, w.purchases[id], ok).(hands := hands))
    ensures Inv(w) && PaysBooked(w, id, ok) ==> Inv(Release(w, id, w.purchases[id], ok).(hands := hands))
  {
    var p := w.purchases[id];
    CallByHand(w, id);
    ReleaseBase(w, id, p, ok);
    FewerHands(Release(w, id, p, ok), hands);
    if Inv(w) && PaysBooked(w, id, ok) {
      assert SettledOk(w, id);
      ReleaseInv(w, id, p, ok);
    }
  }

  /** If the call pays, the draw is booked. */
  ghost predicate PaysBooked(w: World, id: string, ok: bool)
    requires id in w.purchases
  {
    var p := w.purchases[id];
    ok && p.drawdown ==> Booked(w.ledger, p.home, id, p.amount)
  }

  /** A manual release goes on after its call. */
  lemma HandGoesOn(w: World, id: string, pc: HandPc, a: Answer, hands: map<nat, Hand>)
    requires Base(w) && id in w.purchases && Rests(w.purchases[id]) && a.tx != ""
    requires forall n :: n in hands ==> n in w.hands && hands[n].purchase == w.hands[n].purchase
    ensures var p := w.purchases[id];
      var w' := With(w.(ledger := HandLedger(w.ledger, id, p, pc, a)), id, HandRecord(p, pc)).(hands := hands);
      Base(w') && (Inv(w) ==> Inv(w'))
  {
    var p := w.purchases[id];
    HandMoves(w, id, p, pc, a);
    var st, p' := HandLedger(w.ledger, id, p, pc, a), HandRecord(p, pc);
    StepBase(w, st, id, p');
    FewerHands(With(w.(ledger := st), id, p'), hands);
    if Inv(w) {
      assert SettledOk(w, id);
      StepInv(w, st, id, p');
    }
  }

  lemma HandKeepsBase(w: World, n: nat, a: Answer)
    requires Base(w) && n in w.hands && a.tx != ""
    ensures Base(HandStep(w, n, a))
  {
    var Hand(id, pc) := w.hands[n];
    HandsAfterFewer(w.hands, n, a);
    if pc == HandCalling && a.called {
      HandCalls(w, id, a.ok, HandsAfter(w.hands, n, a));
    } else {
      HandGoesOn(w, id, pc, a, HandsAfter(w.hands, n, a));
    }
  }

  /** A step of a manual release keeps draws and payments in agreement, refused or accepted,
      unless it pays for a draw that is gone. */
  lemma HandKeepsInv(w: World, n: nat, a: Answer)
    requires Inv(w) && n in w.hands && a.tx != ""
    requires !UnbookedPay(w, ByHand(n, a))
    ensures Inv(HandStep(w, n, a))
  {
    var Hand(id, pc) := w.hands[n];
    HandsAfterFewer(w.hands, n, a);
    if pc == HandCalling && a.called {
      HandCalls(w, id, a.ok, HandsAfter(w.hands, n, a));
    } else {
      HandGoesOn(w, id, pc, a, HandsAfter(w.hands, n, a));
    }
  }

  lemma ObservedMoves(w: World, id: string, e: Event, now: int)
    requires Base(w) && id in w.purchases && w.purchases[id].state != PendingReview
    ensures var p := w.purchases[id];
      var st, p' := EventLedger(w.ledger, p, e, now), p.(state := StateAfter(e));
      && PurchaseOk(p') && RecordMoves(p, p') && Moves(w.ledger, st, id) && BooksOf(st, id, p')
      && (forall s, m :: Booked(w.ledger, s, id, m) <==> Booked(st, s, id, m))
  {
    var p := w.purchases[id];
    ObservedRecord(p, e);
    BooksHold(w, id, p.(state := StateAfter(e)));
    EventLedgerMoves(w.ledger, id, p, e, now);
  }

  lemma ObservedRecord(p: Purchase, e: Event)
    requires PurchaseOk(p) && p.state != PendingReview
    ensures var p' := p.(state := StateAfter(e)); PurchaseOk(p') && RecordMoves(p, p') && (Acquired(p) ==> Acquired(p'))
  {
  }

  lemma EventLedgerMoves(st: State, id: string, p: Purchase, e: Event, now: int)
    requires GoodBooks(st)
    ensures Moves(st, EventLedger(st, p, e, now), id) && SameBooks(st, EventLedger(st, p, e, now))
  {
    SameMoves(st, id);
    EndedMoves(st, p.session, StatusAfter(e), now, id);
  }

  lemma ObservedKeepsBase(w: World, id: string, e: Event, now: int)
    requires Base(w) && id in w.purchases && w.purchases[id].state != PendingReview
    ensures Base(Observed(w, id, e, now))
  {
    var p := w.purchases[id];
    ObservedMoves(w, id, e, now);
    StepBase(w, EventLedger(w.ledger, p, e, now), id, p.(state := StateAfter(e)));
  }

  /** An escrow event, seen on chain or caused by the operator, keeps draws and payments in
      agreement. */
  lemma ObservedKeepsInv(w: World, id: string, e: Event, now: int)
    requires Inv(w) && id in w.purchases && w.purchases[id].state != PendingReview
    ensures Inv(Observed(w, id, e, now))
  {
    var p := w.purchases[id];
    assert SettledOk(w, id);
    ObservedMoves(w, id, e, now);
    StepInv(w, EventLedger(w.ledger, p, e, now), id, p.(state := StateAfter(e)));
  }

  // ----- Steps that concern no single purchase

  /** Purchases, payments and draws stay as they are. */
  ghost predicate NothingMoves(w: World, w': World) {
    && w'.purchases == w.purchases && w'.payments == w.payments
    && GoodBooks(w'.ledger) && forall s, q, n :: Booked(w'.ledger, s, q, n) <==> Booked(w.ledger, s, q, n)
  }

  lemma StillBase(w: World, w': World)
    requires Base(w) && NothingMoves(w, w')
    requires forall n :: n in w'.hands ==>
      w'.hands[n].purchase in w.purchases && Rests(w.purchases[w'.hands[n].purchase])
    ensures Base(w')
  {
    forall i | 0 <= i < |w'.payments| ensures PaymentOk(w', w'.payments[i]) {
      assert PaymentOk(w, w.payments[i]);
    }
  }

  lemma StillInv(w: World, w': World)
    requires Inv(w) && Base(w') && NothingMoves(w, w')
    ensures Inv(w')
  {
    forall id | id in w'.purchases ensures SettledOk(w', id) {
      assert SettledOk(w, id) && IsPaid(w', id) == IsPaid(w, id);
    }
  }

  lemma StepIsStill(w: World, step: Step, w': World)
    requires Base(w) && Next(w, step, w') && (step.DropReviews? || step.Sweep? || step.StartByHand?)
    ensures NothingMoves(w, w') && Base(w')
  {
    if step.Sweep? {
      SweepIsStill(w, step.session, step.ok, step.now);
    } else {
      StillBase(w, w');
    }
  }

  lemma SweepIsStill(w: World, session: string, ok: bool, now: int)
    requires Base(w)
    ensures var w' := if ok then w.(ledger := Ended(w.ledger, session, Closed, now)) else w;
      NothingMoves(w, w') && Base(w')
  {
    EndedMoves(w.ledger, session, Closed, now, "");
    if ok {
      StillBase(w, w.(ledger := Ended(w.ledger, session, Closed, now)));
    }
  }

  lemma StoppedOk(p: Purchase)
    requires PurchaseOk(p)
    ensures PurchaseOk(Stopped(p)) && (Acquired(p) ==> Acquired(Stopped(p)))
    ensures InFlight(Stopped(p)) ==> InFlight(p)
  {
  }

  lemma RestartMoves(w: World, w': World)
    requires Base(w) && Next(w, Restart, w')
    ensures Base(w') && forall s, q, n :: Booked(w'.ledger, s, q, n) <==> Booked(w.ledger, s, q, n)
  {
    RestartRecords(w, w');
    RestartPayments(w, w');
    RestartBooks(w, w');
  }

  lemma RestartRecords(w: World, w': World)
    requires w'.purchases == map id | id in w.purchases :: Stopped(w.purchases[id])
    requires forall id :: id in w.purchases ==> PurchaseOk(w.purchases[id])
    ensures w'.purchases.Keys == w.purchases.Keys
    ensures forall id :: id in w.purchases ==>
      var p, p' := w.purchases[id], w'.purchases[id];
      && p' == Stopped(p) && PurchaseOk(p')
      && p'.home == p.home && p'.amount == p.amount && (Acquired(p) ==> Acquired(p'))
  {
    forall id | id in w.purchases ensures PurchaseOk(Stopped(w.purchases[id])) {
      StoppedOk(w.purchases[id]);
    }
  }

  lemma RestartPayments(w: World, w': World)
    requires PaymentsOk(w) && w'.payments == w.payments && w'.purchases.Keys == w.purchases.Keys
    requires forall id :: id in w.purchases ==> w'.purchases[id] == Stopped(w.purchases[id])
    ensures PaymentsOk(w')
  {
    forall i | 0 <= i < |w'.payments| ensures PaymentOk(w', w'.payments[i]) {
      assert PaymentOk(w, w.payments[i]);
    }
  }

  lemma RestartBooks(w: World, w': World)
    requires BooksOk(w) && w'.ledger == State(w.ledger.disk, w.ledger.disk) && w'.purchases.Keys == w.purchases.Keys
    requires forall id :: id in w.purchases ==>
      var p, p' := w.purchases[id], w'.purchases[id];
      p'.home == p.home && p'.amount == p.amount && (Acquired(p) ==> Acquired(p'))
    ensures BooksOk(w') && forall s, q, n :: Booked(w'.ledger, s, q, n) <==> Booked(w.ledger, s, q, n)
  {
    forall s, q, n ensures Booked(w'.ledger, s, q, n) <==> Booked(w.ledger, s, q, n) {
    }
  }

  /** A restart that reloads the files, between any two steps, keeps draws and payments in
      agreement. */
  lemma RestartKeepsInv(w: World, w': World)
    requires Inv(w) && Next(w, Restart, w')
    ensures Inv(w')
  {
    RestartMoves(w, w');
    forall id | id in w'.purchases ensures SettledOk(w', id) {
      assert SettledOk(w, id) && IsPaid(w', id) == IsPaid(w, id);
      StoppedOk(w.purchases[id]);
    }
  }

  lemma BeginKeeps(w: World, id: string, p: Purchase, reviews: map<string, string>)
    requires Base(w) && id !in w.purchases && PurchaseOk(p) && p.attempts == 0 && p.state != AwaitRelease
    requires p.pc in {NotStarted, Starting}
    ensures Base(With(w, id, p).(reviews := reviews))
    ensures Inv(w) ==> Inv(With(w, id, p).(reviews := reviews))
  {
    var w' := With(w, id, p).(reviews := reviews);
    SameMoves(w.ledger, id);
    assert BooksOf(w.ledger, id, p);
    FramedBase(w, w', id);
    NoAttemptNoPay(w', id);
    if Inv(w) {
      FramedInv(w, w', id);
    }
  }

  lemma ConfirmKeeps(w: World, id: string, reviews: map<string, string>)
    requires Base(w) && id in w.purchases && w.purchases[id].state == PendingReview
    ensures var w' := With(w, id, Confirmed(w.purchases[id])).(reviews := reviews); Base(w') && (Inv(w) ==> Inv(w'))
  {
    var p' := Confirmed(w.purchases[id]);
    ConfirmedOk(w.purchases[id]);
    SameMoves(w.ledger, id);
    BooksHold(w, id, p');
    StepBase(w, w.ledger, id, p');
    if Inv(w) {
      NoAttemptNoPay(w, id);
      StepInv(w, w.ledger, id, p');
    }
    ReviewsAside(With(w.(ledger := w.ledger), id, p'), reviews);
  }

  lemma ConfirmedOk(p: Purchase)
    requires PurchaseOk(p) && p.state == PendingReview
    ensures var p' := Confirmed(p);
      && PurchaseOk(p') && RecordMoves(p, p') && p'.attempts == p.attempts == 0 && p'.home == p.home
      && !Acquired(p) && !InFlight(p') && p'.state != AwaitRelease
  {
  }

  lemma ReviewsAside(w: World, reviews: map<string, string>)
    requires Base(w)
    ensures Base(w.(reviews := reviews)) && (Inv(w) ==> Inv(w.(reviews := reviews)))
  {
    StillBase(w, w.(reviews := reviews));
    if Inv(w) {
      StillInv(w, w.(reviews := reviews));
    }
  }

  // ----- Every step

  lemma NextKeepsBase(w: World, step: Step, w': World)
    requires Base(w) && Next(w, step, w')
    ensures Base(w')
  {
    match step {
      case Orchestrate(id, a) => AdvanceKeepsBase(w, id, a);
      case AcquireSession(id, q, g) => AcquireKeepsBase(w, id, q, g, w');
      case ByHand(n, a) => HandKeepsBase(w, n, a);
      case Restart => RestartMoves(w, w');
      case Begin(id, deal, amount, review) => NewKeeps(w, step, w');
      case Saturated(id, deal, amount) => NewKeeps(w, step, w');
      case Confirm(r) => NewKeeps(w, step, w');
      case _ => VerbKeeps(w, step, w');
    }
  }

  lemma NewKeeps(w: World, step: Step, w': World)
    requires Base(w) && Next(w, step, w') && (step.Begin? || step.Saturated? || step.Confirm?)
    ensures Base(w') && (Inv(w) ==> Inv(w'))
  {
    if step.Confirm? {
      ConfirmKeeps(w, w.reviews[step.token], w'.reviews);
    } else {
      BeginIs(w, step, w');
      BeginKeeps(w, step.id, w'.purchases[step.id], w'.reviews);
    }
  }

  lemma BeginIs(w: World, step: Step, w': World)
    requires Next(w, step, w') && (step.Begin? || step.Saturated?)
    ensures step.id !in w.purchases && step.id in w'.purchases
    ensures var p := w'.purchases[step.id];
      && w' == With(w, step.id, p).(reviews := w'.reviews)
      && PurchaseOk(p) && p.attempts == 0 && p.state != AwaitRelease && p.pc in {NotStarted, Starting}
  {
    NewIsOk(step.deal, step.amount);
  }

  lemma NewIsOk(deal: Handshake.Purchase, amount: int)
    requires IsDeal(deal, amount)
    ensures PurchaseOk(NewPurchase(deal, amount, PendingReview, NotStarted))
    ensures PurchaseOk(NewPurchase(deal, amount, Queued, Starting))
    ensures PurchaseOk(NewPurchase(deal, amount, Failed, NotStarted))
  {
  }

  lemma NextKeepsInv(w: World, step: Step, w': World)
    requires Inv(w) && Next(w, step, w') && !Unbooks(w, step)
    ensures Inv(w')
  {
    match step {
      case Orchestrate(id, a) => AdvanceKeepsInv(w, id, a);
      case AcquireSession(id, q, g) => AcquireKeepsInv(w, id, q, g, w');
      case ByHand(n, a) => HandKeepsInv(w, n, a);
      case Restart => RestartKeepsInv(w, w');
      case Begin(id, deal, amount, review) => NewKeeps(w, step, w');
      case Saturated(id, deal, amount) => NewKeeps(w, step, w');
      case Confirm(r) => NewKeeps(w, step, w');
      case _ => VerbKeeps(w, step, w');
    }
  }

  lemma VerbKeeps(w: World, step: Step, w': World)
    requires Base(w) && Next(w, step, w')
    requires step.Dispute? || step.Refund? || step.Observe? || step.DropReviews? || step.Sweep? || step.StartByHand?
    ensures Base(w') && (Inv(w) ==> Inv(w'))
  {
    match step {
      case Dispute(id, ok, now) => ObservedKeeps(w, id, WasDisputed, now);
      case Refund(id, ok, now) => ObservedKeeps(w, id, WasWithdrawn, now);
      case Observe(id, e, now) => ObservedKeeps(w, id, e, now);
      case _ =>
        StepIsStill(w, step, w');
        if Inv(w) {
          StillInv(w, w');
        }
    }
  }

  lemma ObservedKeeps(w: World, id: string, e: Event, now: int)
    requires Base(w) && id in w.purchases && w.purchases[id].state != PendingReview
    ensures Base(Observed(w, id, e, now)) && (Inv(w) ==> Inv(Observed(w, id, e, now)))
  {
    ObservedKeepsBase(w, id, e, now);
    if Inv(w) {
      ObservedKeepsInv(w, id, e, now);
    }
  }

  /** The rollback of an unstamped draw takes it out of the book. */
  lemma RollbackRemoves(a: State, session: string, id: string, now: int, n: int)
    requires GoodBooks(a) && session in a.mem && !Stamped(a, session, id)
    ensures !Booked(RolledBack(a, session, id, now), session, id, n)
  {
    var s := a.mem[session];
    var k :| 0 <= k < |s.draws| && s.draws[k].purchase == id && s.draws[k].tx == "";
    var i := LastPending(s.draws, id);
    RemovedDraws(s.draws, i);
    assert i == k;
  }

  /** Every payment has its draw in the book. */
  ghost predicate PaymentsBooked(w: World) {
    forall i :: 0 <= i < |w.payments| ==>
      Booked(w.ledger, w.payments[i].session, w.payments[i].purchase, w.payments[i].amount)
  }

  lemma InvIsBooked(w: World)
    requires Inv(w)
    ensures PaymentsBooked(w)
  {
    forall i | 0 <= i < |w.payments|
      ensures Booked(w.ledger, w.payments[i].session, w.payments[i].purchase, w.payments[i].amount)
    {
      assert PaymentOk(w, w.payments[i]) && IsPaid(w, w.payments[i].purchase);
      assert SettledOk(w, w.payments[i].purchase);
    }
  }

  /** A purchase that was paid although its draw is not booked. */
  lemma UnbookedIsPaid(w: World, id: string)
    requires PaymentsOk(w) && id in w.purchases && IsPaid(w, id)
    requires !Booked(w.ledger, w.purchases[id].home, id, w.purchases[id].amount)
    ensures !PaymentsBooked(w)
  {
    var i :| 0 <= i < |w.payments| && w.payments[i].purchase == id;
    assert PaymentOk(w, w.payments[i]);
  }

  lemma PaysUnbooked(w: World, n: nat, a: Answer)
    requires n in w.hands && w.hands[n].purchase in w.purchases && UnbookedPay(w, ByHand(n, a))
    requires PaymentsOk(HandStep(w, n, a))
    ensures !PaymentsBooked(HandStep(w, n, a))
  {
    assert HandStep(w, n, a).payments[|w.payments|].purchase == w.hands[n].purchase;
    UnbookedIsPaid(HandStep(w, n, a), w.hands[n].purchase);
  }

  lemma RollbackStep(w: World, id: string, a: Answer)
    requires id in w.purchases && w.purchases[id].pc == RollingBack
    ensures var p := w.purchases[id];
      Advance(w, id, a) == With(w.(ledger := RolledBack(w.ledger, p.home, id, a.now)), id, p.(pc := Finished))
  {
  }

  lemma UnbooksPaid(w: World, id: string, a: Answer)
    requires id in w.purchases && RollsBackPaid(w, Orchestrate(id, a)) && GoodBooks(w.ledger)
    requires PaymentsOk(Advance(w, id, a))
    ensures !PaymentsBooked(Advance(w, id, a))
  {
    var p := w.purchases[id];
    RollbackStep(w, id, a);
    RollbackRemoves(w.ledger, p.home, id, a.now, p.amount);
    assert IsPaid(Advance(w, id, a), id) == IsPaid(w, id);
    UnbookedIsPaid(Advance(w, id, a), id);
  }

  lemma UnbooksPayment(w: World, step: Step, w': World)
    requires Base(w) && Next(w, step, w') && Unbooks(w, step)
    ensures !PaymentsBooked(w')
  {
    NextKeepsBase(w, step, w');
    if UnbookedPay(w, step) {
      PaysUnbooked(w, step.n, step.a);
    } else {
      UnbooksPaid(w, step.id, step.a);
    }
  }

  /** Whatever party takes it, a step keeps draws and payments in agreement exactly when it
      leaves no payment without its draw. */
  lemma NextKeepsInvIff(w: World, step: Step, w': World)
    requires Inv(w) && Next(w, step, w')
    ensures Inv(w') <==> !Unbooks(w, step)
  {
    if Unbooks(w, step) {
      UnbooksPayment(w, step, w');
      if Inv(w') {
        InvIsBooked(w');
      }
    } else {
      NextKeepsInv(w, step, w');
    }
  }

  // ----- Whole runs

  ghost predicate Init(w: World) {
    w == World(w.functions, State(map[], map[]), map[], map[], [], map[])
  }

  ghost predicate IsRun(run: seq<World>, steps: seq<Step>) {
    && |run| == |steps| + 1 && Init(run[0])
    && forall i, j :: 0 <= i && j == i + 1 < |run| ==> Next(run[i], steps[i], run[j])
  }

  lemma {:induction false} RunKeepsBase(run: seq<World>, steps: seq<Step>, i: nat)
    requires IsRun(run, steps) && i < |run|
    ensures Base(run[i])
  {
    if i > 0 {
      RunKeepsBase(run, steps, i - 1);
      NextKeepsBase(run[i - 1], steps[i - 1], run[i]);
    }
  }

  lemma StepOfRun(run: seq<World>, steps: seq<Step>, i: nat)
    requires IsRun(run, steps) && i < |steps| && Inv(run[i])
    ensures Inv(run[i + 1]) <==> !Unbooks(run[i], steps[i])
  {
    var j := i + 1;
    NextKeepsInvIff(run[i], steps[i], run[j]);
  }

  lemma {:induction false} RunKeepsInv(run: seq<World>, steps: seq<Step>, n: nat)
    requires IsRun(run, steps) && n <= |steps| && forall i :: 0 <= i < n ==> !Unbooks(run[i], steps[i])
    ensures Inv(run[n])
  {
    if n == 0 {
      RunKeepsBase(run, steps, 0);
    } else {
      RunKeepsInv(run, steps, n - 1);
      StepOfRun(run, steps, n - 1);
    }
  }

  /** In every state of a run draws and payments agree, exactly when no step of it leaves a
      payment without its draw. */
  lemma RunKeepsInvIff(run: seq<World>, steps: seq<Step>)
    requires IsRun(run, steps)
    ensures (forall i :: 0 <= i < |run| ==> Inv(run[i])) <==>
      (forall i :: 0 <= i < |steps| ==> !Unbooks(run[i], steps[i]))
  {
    if forall i :: 0 <= i < |steps| ==> !Unbooks(run[i], steps[i]) {
      forall i | 0 <= i < |run| ensures Inv(run[i]) {
        RunKeepsInv(run, steps, i);
      }
    } else {
      var i :| 0 <= i < |steps| && Unbooks(run[i], steps[i]);
      if Inv(run[i]) {
        StepOfRun(run, steps, i);
      }
    }
  }

  // ----- Counting calls and payments

  /** What a release call does to the counts. */
  lemma ReleaseCounts(w: World, id: string, p: Purchase, ok: bool, q: string, c: Count)
    requires id in w.purchases && p.attempts == w.purchases[id].attempts && q in w.purchases
    ensures q in Release(w, id, p, ok).purchases
    ensures Times(Release(w, id, p, ok), q, c) ==
      Times(w, q, c) + if q == id && (c == Calls || (ok && p.drawdown)) then 1 else 0
  {
    PaidTimesOne(w.payments, Payment(id, p.session, p.amount), q);
  }

  lemma AdvanceCounts(w: World, id: string, a: Answer, q: string, c: Count)
    requires id in w.purchases && q in w.purchases
    ensures q in Advance(w, id, a).purchases
    ensures Times(Advance(w, id, a), q, c) == Times(w, q, c) + if Happens(w, Orchestrate(id, a), q, c) then 1 else 0
  {
    var p := w.purchases[id];
    var p' := NextRecord(w.functions, p, a, p.home in w.ledger.mem);
    NextRecordKeeps(w.functions, p, a, p.home in w.ledger.mem);
    ReleaseCounts(w, id, p', a.ok, q, c);
  }

  lemma NextRecordKeeps(f: Handshake.Functions, p: Purchase, a: Answer, known: bool)
    ensures var p' := NextRecord(f, p, a, known); p'.attempts == p.attempts && p'.drawdown == p.drawdown
  {
  }

  lemma HandCounts(w: World, n: nat, a: Answer, q: string, c: Count)
    requires n in w.hands && w.hands[n].purchase in w.purchases && q in w.purchases
    ensures q in HandStep(w, n, a).purchases
    ensures Times(HandStep(w, n, a), q, c) == Times(w, q, c) + if Happens(w, ByHand(n, a), q, c) then 1 else 0
  {
    var id := w.hands[n].purchase;
    ReleaseCounts(w, id, w.purchases[id], a.ok, q, c);
  }

  /** What a step that is neither one of an orchestration nor one of a manual release may do
      to a record: acquire, confirm, stop, or move its state. */
  predicate VerbMoves(p: Purchase, p': Purchase) {
    || p' == p || p' == Stopped(p)
    || (p.state == PendingReview && p' == Confirmed(p))
    || (&& p.pc == Acquiring && p.drawdown && p' == p.(home := p'.home, pc := p'.pc, state := p'.state)
        && (p'.pc == Finished ==> p'.state == Failed)
        && (p'.pc != Finished ==> p'.pc in {Binding, OpeningSession} && p'.state == p.state))
    || (&& p.state != PendingReview && p'.state in {Completed, InDispute, Settled, Refunded}
        && p' == p.(state := p'.state))
  }

  lemma VerbRecord(w: World, step: Step, w': World, id: string)
    requires Next(w, step, w') && id in w.purchases && !step.Orchestrate? && !step.ByHand?
    ensures w'.functions == w.functions && w'.payments == w.payments
    ensures id in w'.purchases && VerbMoves(w.purchases[id], w'.purchases[id])
    ensures var p, p' := w.purchases[id], w'.purchases[id];
      && (!(step.AcquireSession? && step.id == id) ==>
            p'.home == p.home && (p'.pc == p.pc || step.Restart? || step.Confirm?))
      && (step.Restart? ==> p' == Stopped(p))
  {
    if step.Dispute? || step.Refund? || step.Observe? {
      EventRecord(w, step, w', id);
    } else if step.AcquireSession? {
      GrantRecord(w, step, w', id);
    } else {
      OtherRecord(w, step, w', id);
    }
  }

  lemma GrantRecord(w: World, step: Step, w': World, id: string)
    requires Next(w, step, w') && id in w.purchases && step.AcquireSession?
    ensures w'.functions == w.functions && w'.payments == w.payments
    ensures id in w'.purchases && VerbMoves(w.purchases[id], w'.purchases[id])
    ensures step.id != id ==> w'.purchases[id] == w.purchases[id]
  {
    assert w'.purchases[id] == if id == step.id then Granted(w.purchases[id], step.g) else w.purchases[id];
  }

  lemma OtherRecord(w: World, step: Step, w': World, id: string)
    requires Next(w, step, w') && id in w.purchases && !step.Orchestrate? && !step.ByHand? && !step.AcquireSession?
    requires !step.Dispute? && !step.Refund? && !step.Observe?
    ensures w'.functions == w.functions && w'.payments == w.payments && id in w'.purchases
    ensures var p, p' := w.purchases[id], w'.purchases[id];
      if step.Restart? then p' == Stopped(p)
      else p' == p || (step.Confirm? && p.state == PendingReview && p' == Confirmed(p))
  {
  }

  lemma EventRecord(w: World, step: Step, w': World, id: string)
    requires Next(w, step, w') && id in w.purchases && (step.Dispute? || step.Refund? || step.Observe?)
    ensures w'.functions == w.functions && w'.payments == w.payments
    ensures id in w'.purchases && VerbMoves(w.purchases[id], w'.purchases[id])
  {
  }

  /** What a step does to a manual release. */
  predicate HandMovesOn(w: World, step: Step, h: Hand, n: nat) {
    || (n in w.hands && h == w.hands[n])
    || (step.ByHand? && n == step.n && n in w.hands && h.purchase == w.hands[n].purchase && h.pc != HandCalling)
    || (&& step.StartByHand? && n == step.n && h == Hand(step.id, HandCalling)
        && step.id in w.purchases && w.purchases[step.id].state == AwaitRelease)
  }

  lemma StepHands(w: World, step: Step, w': World, n: nat)
    requires Next(w, step, w') && n in w'.hands
    ensures HandMovesOn(w, step, w'.hands[n], n)
  {
    if step.ByHand? {
      assert w'.hands == HandsAfter(w.hands, step.n, step.a);
    }
  }

  /** A purchase stays known, and its calls and payments are counted one by one. */
  lemma StepCounts(w: World, step: Step, w': World, id: string, c: Count)
    requires Next(w, step, w') && id in w.purchases
    ensures id in w'.purchases
    ensures Times(w', id, c) == Times(w, id, c) + if Happens(w, step, id, c) then 1 else 0
  {
    if step.Orchestrate? {
      AdvanceCounts(w, step.id, step.a, id, c);
    } else if step.ByHand? {
      HandCounts(w, step.n, step.a, id, c);
    } else {
      VerbRecord(w, step, w', id);
    }
  }

  lemma NewIsUncounted(w: World, step: Step, w': World, id: string)
    requires Next(w, step, w') && id in w'.purchases && id !in w.purchases
    ensures (step.Begin? || step.Saturated?) && id == step.id && w'.purchases[id].attempts == 0
  {
  }

  ghost predicate Once(w: World, c: Count) {
    forall id :: id in w.purchases ==> Times(w, id, c) <= 1
  }

  lemma UncalledIsUncounted(w: World, id: string, c: Count)
    requires PaymentsOk(w) && id in w.purchases
    ensures Times(w, id, c) <= w.purchases[id].attempts
  {
  }

  /** Whatever party takes it, after a step each purchase was called for, or paid, at most
      once exactly when the step does not repeat it. */
  lemma NextOnceIff(w: World, step: Step, w': World, c: Count)
    requires Base(w) && Once(w, c) && Next(w, step, w')
    ensures Once(w', c) <==> !Repeats(w, step, c)
  {
    if Repeats(w, step, c) {
      StepCounts(w, step, w', w.hands[step.n].purchase, c);
    } else {
      NextKeepsBase(w, step, w');
      forall id | id in w'.purchases ensures Times(w', id, c) <= 1 {
        OnceAt(w, step, w', id, c);
      }
    }
  }

  lemma OnceAt(w: World, step: Step, w': World, id: string, c: Count)
    requires Base(w) && Base(w') && Once(w, c) && Next(w, step, w') && !Repeats(w, step, c) && id in w'.purchases
    ensures Times(w', id, c) <= 1
  {
    if id in w.purchases {
      StepCounts(w, step, w', id, c);
      if Happens(w, step, id, c) {
        FirstTime(w, step, id, c);
      }
    } else {
      NewIsUncounted(w, step, w', id);
      UncalledIsUncounted(w', id, c);
    }
  }

  lemma FirstTime(w: World, step: Step, id: string, c: Count)
    requires Base(w) && id in w.purchases && Happens(w, step, id, c) && !Repeats(w, step, c)
    ensures Times(w, id, c) == 0
  {
    assert PurchaseOk(w.purchases[id]);
    UncalledIsUncounted(w, id, c);
  }

  lemma {:induction false} RunOnce(run: seq<World>, steps: seq<Step>, n: nat, c: Count)
    requires IsRun(run, steps) && n <= |steps| && forall i :: 0 <= i < n ==> !Repeats(run[i], steps[i], c)
    ensures Once(run[n], c)
  {
    if n > 0 {
      RunOnce(run, steps, n - 1, c);
      RunKeepsBase(run, steps, n - 1);
      NextOnceIff(run[n - 1], steps[n - 1], run[n], c);
    }
  }

  /** Each purchase makes at most one release call in its life, automatic or manual,
      respectively is paid at most once, exactly when no manual release repeats it. */
  lemma RunOnceIff(run: seq<World>, steps: seq<Step>, c: Count)
    requires IsRun(run, steps)
    ensures (forall i :: 0 <= i < |run| ==> Once(run[i], c)) <==>
      (forall i :: 0 <= i < |steps| ==> !Repeats(run[i], steps[i], c))
  {
    if forall i :: 0 <= i < |steps| ==> !Repeats(run[i], steps[i], c) {
      forall i | 0 <= i < |run| ensures Once(run[i], c) {
        RunOnce(run, steps, i, c);
      }
    } else {
      var i :| 0 <= i < |steps| && Repeats(run[i], steps[i], c);
      var j := i + 1;
      if Once(run[i], c) {
        RunKeepsBase(run, steps, i);
        NextOnceIff(run[i], steps[i], run[j], c);
      }
    }
  }
}
