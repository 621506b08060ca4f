# Rhizome: verified core

Rhizome is a personal AI agent with a peer-to-peer market for agent work. This project models
the parts of it where a mistake costs money, breaks a conversation or lets a tool run
unasked, and proves what those parts promise.

| file | what it models |
|---|---|
| `Ledger.dfy`, `Eviction.dfy` | the buyer's book of funded drawdown sessions, and how records are bounded |
| `Purchases.dfy` | every interleaving of purchase orchestrations, manual releases, operator verbs, event watcher, sweep and restarts |
| `Operator.dfy` | how carefully the manual release has to be used, and why no less care would do |
| `Outcomes.dfy` | what becomes of a purchase: whose session pays it, when it is completed, what refusals and failures leave behind |
| `Payouts.dfy` | what holds over whole runs: money, release calls, receipts, completions, refunds, the history of a session |
| `Registry.dfy`, `RateWindow.dfy` | the seller's session registry with its caps, reaper and receipts; the per-peer rate limit |
| `Handshake.dfy`, `Hex.dfy`, `Text.dfy` | the two halves of a sale, from the price to the receipt |
| `Watch.dfy` | the block ranges the escrow watcher reads |
| `Messages.dfy`, `Sanitize.dfy` | the history filter in front of every provider request |
| `Turns.dfy`, `Media.dfy` | cutting histories at turn boundaries; inserting images of tool results |
| `Acp.dfy`, `SessionStore.dfy` | tool permissions of the editor-facing server, across save, load and restart |
| `ShellQuote.dfy` | quoting a command for `sh -c`, against the POSIX.1-2017 Shell Command Language |
| `Bench.dfy` | the memory benchmark's token scores and its aggregates of aggregates |
| `Seqs.dfy` | regrouping of sequences |

Where the source changes things in place, the model is a class or a method with loops, and
each method is proved against a function of the old state; the promises are then proved of
those functions. Whole-run results range over sequences of states in which each state follows
from the one before by one step of any kind.

Where a promise turned out not to hold of the code, the code was kept as it is, the failing
input or run is given as a lemma, and the exact condition is proved:

- A manual release checks the state of the purchase once and then calls the rail. When the
  program stops between the call and the saved completion, or when two manual releases of one
  purchase overlap, the rail can be called twice: every waiting purchase can be paid twice on
  one draw (`Payouts.StopPaysTwice`), and a whole run pays twice the budget of a session
  (`Payouts.BudgetIsOverpaid`). The exact conditions are proved twice over, with the calls of
  the rail counted and with the payments counted: in all states of a run nothing is repeated
  and every payment has its draw exactly when no step of it is a hazard
  (`Payouts.RunIsBackedIff`). What operator and administrator have to mind is exact too:
  `Operator.CarefulRunHasNoHazard` says it is enough, and `Operator.CarefulIff` that after any
  less careful step a hazard can follow. For the bound on payments the weaker care suffices,
  which disregards calls that were refused (`Payouts.CarefulMoneySafety`). A refund excludes
  later release calls exactly when no manual release is about to call
  (`Payouts.RefundExcludesReleaseIff`).
- A session that the reaper has already ended can still be bound by its connection. It comes
  back to life outside the registry, gets a second receipt, and its end can unregister another
  session of the same escrow (`Registry.RevivingRun`). The registry stays sound exactly
  when no ended session is bound (`Registry.RunKeepsInvIff`, `Registry.NewSessionKeepsInvIff`).
- An answer to a permission prompt of a session that has since been loaded again writes that
  session's old cache into the store, and with it approvals from before the last mode switch;
  a whole run ends in an unasked approval (`Acp.StaleApproval`). A run keeps cached approvals
  backed by answers exactly when no step of it writes such a stale cache
  (`Acp.RunKeepsGrantsIff`). Only an always-answer to a closed session can do so, and while no
  closed session is answered every silent approval was granted
  (`Acp.SilentApprovalWasGranted`); right after a mode switch an always-answer to an old prompt
  is harmless exactly when its session is not closed or holds no approval other than the one
  given (`Acp.AnswerAfterSwitchIff`).
- The drawdown book's eviction removes the first listed id from its list instead of the record
  it evicts, so at any bound it can stop too early (`Eviction.SweptCanStopEarly`), for one when a
  start has loaded more session files than the bound. It is a correct
  eviction for every order in which the map may be walked exactly when no more records are due
  than share the oldest age, or the second oldest (`Eviction.SweptAlwaysGoodIff`); with all
  ages different, when at most one is due (`Eviction.TameByOne`).
- Trimming a history that starts with messages in front of the first user message skips that
  first turn (`Turns.TrimCanSkipFirstTurn`); `Turns.TrimmedIsBestIff` says exactly when the
  result is still the longest one.
- A watch whose recorded block is the last one a 64-bit number can name starts over at block 0
  (`Watch.CanStartOver`); the ranges read are consecutive exactly when no scan starts over
  (`Watch.ScansAreConsecutive`).

## Model

| member | source | states |
|---|---|---|
| Ledger.DrawnWithinBudget | cmd/rhizome-market/drawdown.go:73-77 | a session whose accounts balance has drawn between nothing and its budget |
| Ledger.ReserveKeepsValid | cmd/rhizome-market/drawdown.go:191-197 | reserving within the headroom keeps drawn equal to the sum of the draws and within the budget |
| Ledger.StampKeepsValid | cmd/rhizome-market/drawdown.go:201-219 | confirming a draw records its tx and time and changes no sum |
| Ledger.StampIs | cmd/rhizome-market/drawdown.go:201-219 | a confirmation gives the last pending draw its tx and time, sets the time of the last draw, and changes nothing else |
| Ledger.GiveBackKeepsValid | cmd/rhizome-market/drawdown.go:222-244 | returning a pending draw takes exactly its amount off the sum |
| Ledger.LastPending | cmd/rhizome-market/drawdown.go:222-244 | the draw a confirmation or rollback finds is the last one of that purchase without a tx |
| Ledger.FindPending | cmd/rhizome-market/drawdown.go:222-244 | the backward search of confirmation and rollback finds exactly that draw |
| Ledger.AcquireKeepsConsistent | cmd/rhizome-market/drawdown.go:133-186 | whichever way acquire answers, memory and files agree and every session's accounts balance |
| Ledger.AcquireFits | cmd/rhizome-market/drawdown.go:133-197 | on the fields of the session: what a reused session had room for and how its book grows, for which seller, buyer and token a new one is made, that bounding drops nothing below 128, and when acquire refuses |
| Ledger.DrawdownLedger.constructor | cmd/rhizome-market/drawdown.go:89-112 | a started book holds exactly the session files |
| Ledger.DrawdownLedger.FindServing | cmd/rhizome-market/drawdown.go:142-158 | finds an open, funded session of that seller peer and token with enough headroom and time left, or there is none |
| Ledger.DrawdownLedger.Acquire | cmd/rhizome-market/drawdown.go:133-186 | reuses a session exactly when one has room: open, funded, of the same seller peer, the same token up to case, the amount left of its budget and over 120 seconds of its time; else mints one exactly when the budget covers the amount; otherwise refuses and changes nothing |
| Ledger.DrawdownLedger.Mint | cmd/rhizome-market/drawdown.go:168-186 | a new session carries its minter's draw; bounding the book drops no open session |
| Ledger.DrawdownLedger.RecordDraw | cmd/rhizome-market/drawdown.go:201-219 | stamps the last pending draw of the purchase with tx and time, sets the time of the last draw, and fails exactly when there is none |
| Ledger.DrawdownLedger.RollbackDraw | cmd/rhizome-market/drawdown.go:222-244 | removes only a draw without a tx, and gives its amount back |
| Ledger.DrawdownLedger.MarkOpened | cmd/rhizome-market/drawdown.go:249-258 | records the open tx of a known session, whatever it is; the book stays valid exactly unless an empty tx meets a session with several draws |
| Ledger.DrawdownLedger.MarkClosed | cmd/rhizome-market/drawdown.go:261-271 | records how a session ended |
| Ledger.OnlyOneChanges | cmd/rhizome-market/drawdown.go:201-271 | confirming, giving back, opening and ending leave every other session as it is |
| Ledger.ChangesAreRecorded | cmd/rhizome-market/drawdown.go:201-271 | they change the session in memory and in its file, and record when |
| Ledger.DrawdownLedger.Expired | cmd/rhizome-market/drawdown.go:286-297 | lists exactly the sessions that are open, have an open tx and a deadline that has passed |
| Eviction.BoundPurchases | cmd/rhizome-market/purchase.go:351-390 | never evicts a purchase that is not final; afterwards the cap holds or nothing final is left, and every evicted record is no newer than every final one kept |
| Eviction.BoundDrawdowns | cmd/rhizome-market/drawdown.go:299-330 | the loop as written, over some listing of the closed sessions; only closed sessions go |
| Eviction.SweptDropsListed | cmd/rhizome-market/drawdown.go:299-330 | drops only listed records, nothing when within the cap, never below the cap |
| Eviction.SweptDropsFinalOnly | cmd/rhizome-market/drawdown.go:299-330 | never drops an open session |
| Eviction.SweptIsGoodByOne | cmd/rhizome-market/drawdown.go:299-330 | over the cap by one, the loop is a correct eviction, equal ages included |
| Eviction.SweptIsGoodIff | cmd/rhizome-market/drawdown.go:299-330 | for one listing and closed sessions of all different ages: a correct eviction exactly when the i-th oldest record it must drop stands at position i or later in the listing |
| Eviction.SweptAlwaysGoodIff | cmd/rhizome-market/drawdown.go:299-330 | the loop is a correct eviction for every order of walking the map exactly when no more records are due than share the oldest age, or the second oldest; equal ages included |
| Eviction.TameByOne | cmd/rhizome-market/drawdown.go:299-330 | with all ages different, that is exactly when at most one record is due |
| Eviction.SweptCanStopEarly | cmd/rhizome-market/drawdown.go:327-328 | at every cap, 128 included, some records and some listing make the loop stop above the cap with a closed session left |
| Purchases.NextKeepsBase | cmd/rhizome-market/buy.go:568-746 | whatever party takes it, hazards included, a step keeps every book balanced, every draw with the purchase that acquired it, every payment with a call of its purchase, from its session and in its amount |
| Purchases.AdvanceKeepsInv | cmd/rhizome-market/buy.go:568-746 | a step of an orchestration keeps draws and payments in agreement, whatever the rail and the seller answer, unless its deferred rollback reaches a paid draw |
| Purchases.AcquireKeepsInv | cmd/rhizome-market/drawdown.go:337-363 | acquiring a session keeps draws and payments in agreement |
| Purchases.DrawStays | cmd/rhizome-market/buy.go:603-628 | after a step of an orchestration, its rollbacks included, the draw is still booked if the purchase was paid or can still be |
| Purchases.RollbackRemoves | cmd/rhizome-market/drawdown.go:222-244 | a rollback that finds the draw without a tx takes it out of the book |
| Purchases.HandKeepsInv | cmd/rhizome-market/buy.go:717-746 | each step of a manual release (call, record, complete, or move to disputable) keeps draws and payments in agreement, unless it pays for a draw that is gone |
| Purchases.ObservedKeepsInv | cmd/rhizome-market/watch.go:194-258 | an escrow event seen on chain keeps draws and payments in agreement |
| Purchases.VerbKeeps | cmd/rhizome-market/drawdown.go:391-412 | so do disputes, refunds, starting a manual release and the sweep of expired sessions |
| Purchases.RestartKeepsInv | cmd/rhizome-market/purchase.go:188-210 | so does a restart that reloads the files, between any two steps, those of a manual release included |
| Purchases.UnbooksPayment | cmd/rhizome-market/buy.go:620-628 | after a payment by hand for a draw that is gone, or a rollback of a paid draw that is not recorded, some payment has no draw |
| Purchases.NextKeepsInvIff | cmd/rhizome-market/buy.go:568-746 | a step keeps draws and payments in agreement exactly when it is no payment by hand for a draw that is gone and no rollback of a paid draw that is not recorded |
| Purchases.RunKeepsInvIff | cmd/rhizome-market/buy.go:568-746 | they agree in every state of a run exactly when no step of it is one of these |
| Purchases.StepCounts | cmd/rhizome-market/buy.go:717-746 | the calls of the rail for a purchase, and its payments, are counted one by one, by orchestrations and manual releases alone |
| Purchases.NextOnceIff | cmd/rhizome-market/buy.go:922-938 | a step keeps the calls for each purchase, or its payments, at one exactly when it is no manual release that repeats one |
| Purchases.RunOnceIff | cmd/rhizome-market/buy.go:922-938 | each purchase makes at most one release call in its life, automatic or manual, respectively is paid at most once, exactly when no manual release repeats it |
| Operator.NextKeepsReach | cmd/rhizome-market/buy.go:620-628 | every step, other than a manual release started while a rollback can still reach the draw, keeps paid draws, and those about to be paid by hand, booked and out of reach of rollbacks |
| Operator.NextKeepsCount | cmd/rhizome-market/buy.go:922-938 | every careful step keeps a manual release about to call the first to do so and the only one, and a purchase that waits although it was called for in the hands of the operator |
| Operator.NextKeepsCareful | cmd/rhizome-market/buy.go:922-938 | with a careful operator every step keeps, besides, that paid draws are out of reach of rollbacks and that a manual release about to call is the first to do so and the only one |
| Operator.CarefulRunHasNoHazard | cmd/rhizome-market/buy.go:922-938 | no step is a hazard in any run in which a manual release starts only when no other one of that purchase may call, or has called (with payments counted: was paid), and no rollback can reach its draw, and the program stops only when no purchase waits whose release was called (was paid) |
| Operator.CarefulIff | cmd/rhizome-market/buy.go:922-938 | with calls counted and with payments counted: a step is careful exactly when no careful continuation after it ever meets a hazard |
| Payouts.PaymentsFit | cmd/rhizome-market/drawdown.go:191-197 | booked payments of different purchases add up to no more than the draws |
| Payouts.HazardUnbacks | cmd/rhizome-market/buy.go:922-938 | after a hazard some purchase was called for (or paid) twice, or some payment has no draw |
| Payouts.RunIsBackedIff | cmd/rhizome-market/buy.go:717-746 | in every state of a run each purchase was called for (or, with payments counted, was paid) at most once and each payment has its draw, exactly when no step of the run is a hazard |
| Payouts.MoneySafety | cmd/rhizome-market/buy.go:717-746 | over every interleaving without a repeated payment or a payment without a draw, what was paid out of a session never exceeds what its book reserves, and that never exceeds its budget; nothing is paid without a book |
| Payouts.CarefulMoneySafety | cmd/rhizome-market/buy.go:717-746 | the same over every interleaving with an operator who is careful about payments |
| Payouts.BooksStayInBudget | cmd/rhizome-market/drawdown.go:73-77 | in every run, hazards included, each book adds up, has at most one draw for a purchase, and stays within its budget |
| Payouts.OneOrchestrationEach | cmd/rhizome-market/purchase.go:188-210 | in every run each purchase is orchestrated at most once and is not paid more often than the rail was called for it |
| Payouts.NoReleaseWithoutReceipt | cmd/rhizome-market/buy.go:678-704 | in every run no release, automatic or manual, is called, offered or under way without a receipt whose signature verifies for the seller of the purchase and which names its session, the hash of its result text and, where given, its offer and its price |
| Payouts.CompletionWasPaid | cmd/rhizome-market/buy.go:717-746 | in every run an orchestration or a manual release that goes on to record and complete a drawdown purchase has been paid, from the session and in the amount the purchase stands for |
| Payouts.RefundExcludesReleaseIff | cmd/rhizome-market/buy.go:890-918 | at a refund no orchestration is at work, and no continuation ever calls the rail for that purchase again, exactly when no manual release of it is about to call |
| Payouts.WaitingDrawIsBooked | cmd/rhizome-market/buy.go:619-628 | in every run, hazards included, a purchase has its draw in the book from acquiring a session to the end of its orchestration, and while it waits for its manual release |
| Payouts.SessionHistory | cmd/rhizome-market/drawdown.go:133-271 | over a whole run, hazards included: the budget is fixed, a session that is no longer open never opens again and takes no further draw, and a draw with a tx is never removed |
| Outcomes.OthersLeave | cmd/rhizome-market/buy.go:568-746 | only its own orchestration and a restart move a purchase on in its work; steps of others change at most its state and the count of its calls |
| Outcomes.DrawIsForSeller | cmd/rhizome-market/drawdown.go:337-363 | in every run, hazards included, a draw is booked only in a session made for the seller peer of its purchase, in the token of its deal |
| Outcomes.PaymentIsForSeller | cmd/rhizome-market/buy.go:717-746 | in every run every payment goes out of a session made for the seller peer of the purchase, in its amount |
| Outcomes.CompletedWasPaid | cmd/rhizome-market/buy.go:717-746 | in every run an orchestration or a manual release moves a purchase to completed only after a release call, and a drawdown purchase only after the rail paid it from its session and in its amount |
| Outcomes.RecordedWasPaid | cmd/rhizome-market/drawdown.go:201-219 | in every run a draw that carries a tx belongs to a purchase the rail has paid |
| Outcomes.RefusedReleaseIsReturned | cmd/rhizome-market/buy.go:620-628 | in every run a refused release makes the purchase disputable and, unless the escrow was claimed meanwhile, ends with no draw of it in any book, whatever others do in between |
| Outcomes.RefusedByHand | cmd/rhizome-market/buy.go:717-746 | in every run a refused manual release ends disputable, with nothing paid and the books as they were |
| Outcomes.StateTellsPlace | cmd/rhizome-market/purchase.go:43-56 | in every run the state of a purchase is the one of the place its orchestration has reached, unless an escrow event or a release has moved it |
| Outcomes.FundedNeverFails | cmd/rhizome-market/buy.go:636-660 | in every run at most one escrow is opened for a purchase; a purchase with its own escrow is not dialed, talked to or released before it is open, and never fails afterwards |
| Outcomes.FailedLeavesNoDraw | cmd/rhizome-market/buy.go:603-616 | in every run an orchestration fails a drawdown purchase only unpaid and, unless its session is out of memory, without a draw; a session the rail refused to open is no longer offered |
| Outcomes.OpenSessionStays | cmd/rhizome-market/drawdown.go:299-330 | no step but a restart takes an open session out of memory, and a restart brings all back |
| Outcomes.TalkDecides | cmd/rhizome-market/buy.go:642-669 | once its escrow is open a purchase is in session, and becomes disputable or keeps the text it got and awaits the receipt, with books and payments as they were |
| Outcomes.FetchDecides | cmd/rhizome-market/buy.go:670-702 | without a receipt that proves the delivery, field by field, a purchase becomes disputable and no release is called; with one it is released at once or waits, as configured |
| Outcomes.ReleaseCompletes | cmd/rhizome-market/buy.go:717-738 | a release the rail accepts ends completed with exactly one new payment, from the session and in the amount of the purchase, and its draw stamped |
| Outcomes.CompletedIsFinal | cmd/rhizome-market/buy.go:623-628 | after completion the rest of the orchestration changes neither books nor payments |
| Outcomes.OpeningDecides | cmd/rhizome-market/buy.go:568-640 | with its own escrow a purchase goes on to the session exactly when there is a rail and it opens the escrow, and fails otherwise |
| Outcomes.AcquireDecides | cmd/rhizome-market/buy.go:589-619 | a purchase the ledger refuses fails with the book as it was; one that reuses a session is bound to it without calling the rail; a minted session is for the parties of the deal and not yet open |
| Outcomes.OpenedIsBound | cmd/rhizome-market/buy.go:595-619 | a new session the rail opened carries its open tx and the purchase is bound to it |
| Outcomes.LostSessionFails | cmd/rhizome-market/buy.go:609-612 | when the book has lost the session the rail opened, the purchase fails and the book stays as it was |
| Outcomes.RefusedOpening | cmd/rhizome-market/buy.go:603-608 | a session the rail refuses to open has the draw given back and is marked so, and the purchase fails unpaid |
| Outcomes.EventsTell | cmd/rhizome-market/watch.go:222-258 | each escrow event gives the purchase its state, pays nothing, and ends the shared session except when the escrow is claimed |
| Outcomes.HandCompletesPaid | cmd/rhizome-market/buy.go:717-738 | a manual release the rail accepts ends completed with exactly one new payment and its draw stamped |
| Outcomes.RestartStops | cmd/rhizome-market/purchase.go:185-212 | a restart stops every orchestration where it is and reads the books back from the files; states and payments stay |
| Outcomes.VerbsAreOffered | cmd/rhizome-market/buy.go:789-938 | in exactly which states a purchase can be disputed, refunded, released by hand or confirmed |
| Outcomes.VerbsTell | cmd/rhizome-market/buy.go:97-108 | a verb the rail refuses changes nothing; a confirmed purchase is queued for its deal and its token is spent |
| Outcomes.ReviewsAndEvents | cmd/rhizome-market/watch.go:111-130 | a review that has run out loses its token and nothing else; an event can reach a purchase exactly when it is past its review and has a session, whatever became of it since it was listed |
| Outcomes.SweepTells | cmd/rhizome-market/drawdown.go:389-415 | a session the sweep could withdraw from is closed in memory and file with its accounts kept, one it could not stays; no purchase is touched |
| Outcomes.BeginTells | cmd/rhizome-market/buy.go:220-277 | a new purchase stands for its deal with an amount that reads back, and starts at once or waits under a new review token |
| Payouts.StopPaysTwice | cmd/rhizome-market/buy.go:717-746 | from every reachable state with a waiting drawdown purchase, two stops after the call lead to two payments on one draw, with the books unchanged |
| Payouts.BudgetIsOverpaid | cmd/rhizome-market/buy.go:717-746 | the failing run, from the empty start: twice the budget of a session has been paid |
| Registry.CountLive | cmd/rhizome-market/session.go:199-208 | counts the registered live sessions, in all and of a peer |
| Registry.PeerCap | cmd/rhizome-market/session.go:181-187 | a peer's share is half the cap, rounded down, and at least one |
| Registry.SessionMgr.RegisterSession | cmd/rhizome-market/session.go:191-223 | registers exactly when both caps leave room and the key is free, and then under its key and its connection |
| Registry.SessionMgr.FinishSession | cmd/rhizome-market/session.go:369-419 | ends a live session once: one receipt, out of the registry and off its connection's list; otherwise does nothing |
| Registry.SessionMgr.FinalizeConn | cmd/rhizome-market/session.go:255-268 | ends every session of the connection; on a sound registry none of its sessions stays live |
| Registry.SessionMgr.ReapSessions | cmd/rhizome-market/session.go:465-486 | ends exactly the registered sessions that outlived the limit |
| Registry.SessionMgr.Bind | cmd/rhizome-market/session.go:340-345 | binds the agent without looking at the session's state |
| Registry.MarketAgent.OpenSession | cmd/rhizome-market/agent.go:293-310 | registers, and holds the session pending unless the connection has one already; then it stays in the registry |
| Registry.MarketAgent.BindSession | cmd/rhizome-market/agent.go:112-136 | takes the pending session once; binds it, ends it when the spawn fails, or drops it when the buyer wants servers |
| Registry.MarketAgent.CloseSession | cmd/rhizome-market/agent.go:238-255 | ends the active session named, as closed or, without a finished prompt, as failed |
| Registry.ClosingTells | cmd/rhizome-market/agent.go:238-255 | the active session ends as closed exactly when its prompt was answered, else as failed, with one more receipt |
| Registry.OneSessionEach | cmd/rhizome-market/agent.go:293-310 | a connection that has a session keeps it and takes no second; only the session that is named is closed |
| Registry.MarketAgent.ConnectionClosed | cmd/rhizome-market/agent.go:359-375 | after a dropped connection the registry is sound and the connection has no live session |
| Registry.RegisterKeepsInv | cmd/rhizome-market/session.go:191-223 | registering keeps at most max live sessions and max(1, max/2) per peer, and the index exact |
| Registry.AdmitsIff | cmd/rhizome-market/session.go:191-223 | on a sound registry a session is admitted exactly when fewer sessions than the cap are live, fewer than the share are of its peer, and none is live under its key |
| Registry.FinishKeepsInv | cmd/rhizome-market/session.go:369-419 | ending a session keeps the registry exact and mints its one receipt |
| Registry.FinalizeKeepsInv | cmd/rhizome-market/session.go:255-268 | finalizing ends exactly the live sessions of the connection, with one receipt each |
| Registry.ReapKeepsInv | cmd/rhizome-market/session.go:465-486 | reaping keeps the registry exact and leaves nothing expired |
| Registry.ReapedIff | cmd/rhizome-market/session.go:465-486 | the reaper ends a live session exactly when it was opened longer ago than the limit |
| Registry.ActivateKeepsInvIff | cmd/rhizome-market/session.go:340-345 | binding an agent keeps the registry sound exactly when the session is live |
| Registry.NextKeepsInvIff | cmd/rhizome-market/session.go:191-419 | a step keeps the caps, the exact index and one receipt per session exactly when it binds no ended session |
| Registry.RunKeepsInvIff | cmd/rhizome-market/session.go:191-419 | a run keeps the caps, the exact index and one receipt per session in all its states exactly when no step of it binds an ended session |
| Registry.NewSessionKeepsInvIff | cmd/rhizome-market/agent.go:112-136 | session/new keeps the registry sound exactly when the pending session has not ended |
| Registry.ReapedSession | cmd/rhizome-market/session.go:465-486 | the start of the failing run: a pending session is reaped |
| Registry.ReopenedEscrow | cmd/rhizome-market/session.go:404-404 | its escrow is registered again by another peer |
| Registry.ReopenedIsSound | cmd/rhizome-market/session.go:191-223 | up to here the registry of the failing run is sound |
| Registry.RevivedSession | cmd/rhizome-market/agent.go:112-136 | binding the reaped session leaves two live sessions under a cap of one |
| Registry.EndedTwice | cmd/rhizome-market/agent.go:238-255 | closing it mints a second receipt and unregisters the live session of the other peer |
| Registry.RevivingRun | cmd/rhizome-market/session.go:340-345 | the whole failing run, from the empty registry: sound until the ended session is bound, broken by that step |
| Registry.DrawdownKeysAgreeIff | cmd/rhizome-market/session.go:129-138 | two draws share a registry key exactly when they share the escrow and the first sixteen letters of their nonces, up to case; without a nonce the key is the escrow |
| RateWindow.PeerWindow.Compact | cmd/rhizome-market/session.go:229-236 | compacting over the same buffer keeps exactly the opens after the cut, in order |
| RateWindow.PeerWindow.Allow | cmd/rhizome-market/session.go:226-243 | allows an open exactly when fewer than twelve recent ones are kept, and then adds it |
| RateWindow.AtMostLimit | cmd/rhizome-market/session.go:226-243 | for any calls at non-decreasing times, every minute holds at most twelve granted opens of a peer |
| RateWindow.CallIsGranted | cmd/rhizome-market/session.go:226-243 | an allowed call is granted at its time; a refused one and one of another peer leave the grants as they are |
| RateWindow.ForgettingIsExact | cmd/rhizome-market/session.go:226-243 | the compacted window decides like the whole history of granted opens |
| Handshake.PricesAgree | cmd/rhizome-market/gate.go:263-281 | on the same rail the gate expects exactly what the buyer commits to, and it is the exact price in base units |
| Handshake.PriceIff | cmd/rhizome-market/gate.go:263-281 | an offer costs n base units exactly when its price is a positive number, the decimals are known (six in the fixture posture), and n over ten to their power is that price |
| Handshake.PowersAdd | cmd/rhizome-market/gate.go:263-281 | the powers of ten multiply as their exponents add, and the first is ten |
| Handshake.BoughtIff | cmd/rhizome-market/buy.go:472-505 | an order can be placed exactly when its offer has a price in base units; it then names the offer, the hash of the task and that price |
| Handshake.FindOffer | cmd/rhizome-market/gate.go:137-146 | finds the first offer with the id |
| Handshake.GateIsSafe | cmd/rhizome-market/gate.go:94-247 | nothing passes without a confirmed lock over exactly the expected price of a served offer |
| Handshake.GateAcceptsIff | cmd/rhizome-market/gate.go:94-247 | the gate accepts exactly what is well formed, priced as offered, locked on the rail and admitted; and the session stands for just that offer, those terms and that key |
| Handshake.GateSaysWhy | cmd/rhizome-market/gate.go:94-247 | a rejection names a defect that is there |
| Handshake.OnlyCapRejects | cmd/rhizome-market/gate.go:94-247 | what is rejected for a full registry is accepted by one with room |
| Handshake.GatedKeysAgreeIff | cmd/rhizome-market/gate.go:218-230 | two sessions share a registry key exactly when they share the escrow and are both the whole of it, or draws with the same first sixteen letters of their nonces |
| Handshake.ReadPrompt | cmd/rhizome-market/client.go:128-146 | concatenates the text blocks, passes over links, and fails on anything else |
| Handshake.BuildBlocks | cmd/rhizome-market/buyer.go:179-186 | the blocks sent flatten to the committed task |
| Handshake.BlocksFlatten | cmd/rhizome-market/client.go:128-146 | for every task and attachment list, the blocks flatten to the task |
| Handshake.BuyerHandler.SessionUpdate | cmd/rhizome-market/buyer.go:40-49 | the buyer's result grows by the text of each update |
| Handshake.SellerHandler.SessionUpdate | cmd/rhizome-market/client.go:30-46 | the seller records the text and relays the update |
| Handshake.Stream | cmd/rhizome-market/client.go:30-46 | after any stream both sides hold the same text |
| Handshake.ResultConcat | cmd/rhizome-market/client.go:30-46 | the text of two streams in a row is the two texts in a row |
| Handshake.ResultOfOne | cmd/rhizome-market/client.go:30-46 | a message chunk contributes its text and any other update nothing |
| Handshake.HonestGate | cmd/rhizome-market/gate.go:94-247 | the gate accepts what an honest buyer presents, with the buyer's own terms |
| Handshake.HonestReceipt | cmd/rhizome-market/receipt.go:65-115 | the receipt of the gated session passes the buyer's check for any result |
| Handshake.MintedSays | cmd/rhizome-market/receipt.go:65-115 | a receipt names its session, offer, buyer and the hash of the result, and without an identity to sign with it never passes |
| Handshake.ReceiptIsSound | cmd/rhizome-market/buy.go:751-776 | the check gives true exactly for a receipt whose signature verifies for its seller, who is the one of the purchase, for this session, this result and, where given, this offer and price |
| Handshake.HonestRun | cmd/rhizome-market/buy.go:751-776 | for every price, task, attachment list and stream: the gate accepts, the prompt carries the committed task, and the minted receipt verifies |
| Handshake.ReceiptBindsResult | cmd/rhizome-market/buy.go:763-767 | a minted receipt passes the comparison only for a text with the same hash |
| Hex.ParseBytes32RoundTrip | cmd/rhizome-market/gate.go:301-313 | reading back the prefixed hexadecimal form of 32 bytes gives these bytes |
| Hex.PrefixedIsInjective | cmd/rhizome-market/buy.go:763-767 | comparing hexadecimal hashes ignoring case still tells hashes apart |
| Text.ParseIntRoundTrip | cmd/rhizome-market/gate.go:157-160 | the gate reads the buyer's decimal amount back |
| Watch.Purchase.Scan | cmd/rhizome-market/watch.go:134-189 | reads the range that is due and records its end only when the logs were read |
| Watch.DueIs | cmd/rhizome-market/watch.go:137-150 | a due range ends at or before the head; it starts behind the recorded block, or at the first lookback, and is at most 2000 blocks long, each exactly unless the last 64-bit block is recorded (and, for the length, is the head too) |
| Watch.ScansAreConsecutive | cmd/rhizome-market/watch.go:134-189 | any scans read consecutive, disjoint ranges of at most 2000 blocks from the first lookback to the recorded block, which some head had reached, exactly when no scan starts over |
| Watch.BlockGrows | cmd/rhizome-market/watch.go:188-188 | the recorded block never decreases as long as no scan starts over |
| Watch.GoesOnIff | cmd/rhizome-market/watch.go:138-138 | a scan goes on behind the recorded block exactly while that is not the last 64-bit block |
| Watch.TickGrowsIff | cmd/rhizome-market/watch.go:188-188 | a scan lowers the recorded block exactly when it starts over at a head below the last 64-bit block |
| Watch.CanStartOver | cmd/rhizome-market/watch.go:138-138 | two scans at the last 64-bit block, of which the second reads everything over again |
| Sanitize.RunPassOne | pkg/agent/context.go:1023-1087 | the first loop computes the first pass |
| Sanitize.ScanBlock | pkg/agent/context.go:1114-1150 | the inner scan takes exactly the run of results, keeps the first answer to each expected id, and marks which ids were answered |
| Sanitize.RunPassTwo | pkg/agent/context.go:1089-1201 | the second loop computes the second pass |
| Sanitize.SanitizeHistory | pkg/agent/context.go:1023-1201 | the two loops together compute the specification, and the result is in normal form |
| Sanitize.SanitizedIsNormal | pkg/agent/context.go:1023-1201 | no system message; each caller follows a user or tool message and is followed at once by results whose ids are distinct, non-empty and exactly its call ids; no result elsewhere |
| Sanitize.NormalIsUnchanged | pkg/agent/context.go:1023-1201 | a history in normal form is left as it is |
| Sanitize.SanitizedIsIdempotent | pkg/agent/context.go:1023-1201 | sanitizing twice is sanitizing once |
| Sanitize.SanitizedDistributes | pkg/agent/context.go:1023-1201 | sanitizing distributes over every split in front of a plain message, so at every user message |
| Sanitize.CutAtUserLeavesSuffix | pkg/agent/context.go:1023-1201 | a cut at a user message leaves exactly a suffix of the sanitized whole |
| Sanitize.SanitizedSelects | pkg/agent/context.go:1023-1201 | the result is a subsequence that keeps every message that is not a system message, a tool result or a caller |
| Sanitize.GroupSurvives | pkg/agent/context.go:1023-1201 | a caller right behind a user message is kept with its results exactly when every call has an id and an answer; of the results the first answer to each call is kept; everything else is as it would be without the group |
| Sanitize.NextGroupSurvives | pkg/agent/context.go:1023-1201 | so is the next caller of the same turn, behind at least one result |
| Sanitize.OrphansAreDropped | pkg/agent/context.go:1023-1201 | results at the start or behind a plain message are dropped, and nothing else |
| Sanitize.StrayCallerIsDropped | pkg/agent/context.go:1023-1201 | a caller at the start, or behind a plain message that is not the user's, is dropped with its results |
| Sanitize.SecondCallerIsDropped | pkg/agent/context.go:1023-1201 | a caller right behind another is dropped, and the results behind it count for the first |
| Sanitize.SystemIsDropped | pkg/agent/context.go:1023-1201 | a system message is dropped wherever it stands, and nothing else changes |
| Turns.ParseTurnBoundaries | pkg/agent/context_budget.go:20-29 | lists exactly the user messages, in order |
| Turns.FindSafeBoundary | pkg/agent/context_budget.go:44-85 | the last user message at or before the target, else the first after it, else 0 for a single turn, else the target when there is no user message |
| Turns.SafeCutTearsNothing | pkg/agent/context_budget.go:33-85 | cutting there leaves the provider a suffix of what it would have seen |
| Turns.NoUserNoGroups | pkg/agent/context_budget.go:44-85 | without user messages no group survives sanitizing, so a cut anywhere is harmless |
| Turns.IsOverContextBudget | pkg/agent/context_budget.go:102-116 | compares the tokens of messages, tools and the reserve with the window |
| Turns.NextHistoryTrimStart | pkg/agent/context_budget.go:152-169 | where the next trim starts |
| Turns.TrimHistoryToFitContextWindow | pkg/agent/context_budget.go:122-149 | the loop computes the specification of trimming |
| Turns.TrimmedIsBest | pkg/agent/context_budget.go:122-169 | from a history that starts with a user message, the longest turn-aligned suffix that fits, possibly the empty one |
| Turns.TrimmedIsBestIff | pkg/agent/context_budget.go:152-169 | for any history, exactly when this is still the longest one |
| Turns.TrimCanSkipFirstTurn | pkg/agent/context_budget.go:152-169 | a reply in front of two turns that fit together: only the second is kept |
| Turns.TrimFailsIffEmptyTooLarge | pkg/agent/context_budget.go:122-149 | trimming fails, for every history, exactly when even the empty history is too large, if and only if the builder never makes the empty history the larger request |
| Turns.CutNeverCosts | pkg/agent/context_budget.go:122-149 | for a builder that sends the sanitized history, a cut at a turn boundary never makes the request larger |
| Turns.SanitizingTrimFailsIff | pkg/agent/context_budget.go:122-149 | so with such a builder trimming fails exactly when even the empty history is too large |
| Turns.TrimmedTearsNothing | pkg/agent/context_budget.go:122-169 | trimming tears no tool-call group |
| Turns.PickForSummary | pkg/agent/context_legacy.go:193-207 | picks exactly the user and assistant messages that are small enough, in order and as often as they occur, and says whether one was too large |
| Turns.FindNearestUserMessage | pkg/agent/context_legacy.go:264-285 | the last user message at or before the middle, else the first after it, else the middle |
| Turns.Summarize | pkg/agent/context_legacy.go:212-240 | up to ten messages are one batch together with the old summary; more are split at the user message nearest the middle, and the merged answer counts, or the two summaries in a row when it fails |
| Turns.Conversation.SummarizeSession | pkg/agent/context_legacy.go:174-262 | cuts at the safe boundary four from the end and keeps a summary of what was picked, or changes nothing, and never tears a group |
| Turns.Conversation.ForceCompression | pkg/agent/context_legacy.go:117-172 | keeps the compressed history and adds the note about what was dropped |
| Turns.CompressedCases | pkg/agent/context_legacy.go:128-147 | cuts at a user message, or in a history without any, or keeps the user message of a single turn |
| Turns.CompressedProgress | pkg/agent/context_legacy.go:117-172 | of more than two messages it drops and keeps at least one, and a user message comes first if there is any |
| Turns.CompressedTearsNothing | pkg/agent/context_legacy.go:117-172 | compression tears no tool-call group |
| Turns.RepeatedCompressionEnds | pkg/agent/context_legacy.go:117-172 | repeating it reaches two messages or fewer |
| Media.CollectRefsLoop | pkg/agent/agent_media.go:122-165 | sorts the references of a message into kept ones, path tags and images handed on |
| Media.CollectedAre | pkg/agent/agent_media.go:122-165 | the path tags are those of all references that resolve, and what stays attached are the references that are none of the store's and, in auto mode outside tool results, the encoded images; both in order |
| Media.MessageIsResolved | pkg/agent/agent_media.go:122-165 | a message keeps its role and calls, carries exactly these attachments, and these tags in its text |
| Media.ResolveMediaRefs | pkg/agent/agent_media.go:86-184 | the loop with its pending images computes the specification |
| Media.OriginalsKept | pkg/agent/agent_media.go:86-184 | erasing the synthetic messages gives back the input one for one |
| Media.ImagesKept | pkg/agent/agent_media.go:86-184 | the images handed on appear in the synthetic messages exactly once, in order |
| Media.ItemsHandOnImages | pkg/agent/agent_media.go:139-157 | these are the encoded images of the current turn's tool results and no others |
| Media.FollowupsFollowBlocks | pkg/agent/agent_media.go:104-111 | no synthetic message falls inside a run of tool results |
| Media.EmitKeepsNormal | pkg/agent/agent_media.go:86-184 | a history in normal form stays in normal form |
| Media.ResolutionKeepsConversation | pkg/agent/agent_media.go:86-184 | for one call: input messages one for one, each as it is resolved, current tool images once and in order, no block of results broken, normal form kept |
| Acp.AcpServer.NewSession | pkg/acp/server.go:303-331 | a fresh session without decisions, recorded in the store |
| Acp.AcpServer.LoadSession | pkg/acp/server.go:335-395 | restores decisions, restores the mode only if still offered, and closes the session it displaces |
| Acp.AcpServer.SetSessionMode | pkg/acp/server.go:900-928 | switches to an offered mode and clears decisions in memory and in the store |
| Acp.AcpServer.CloseSession | pkg/acp/server.go:831-844 | closes and removes the session |
| Acp.AcpServer.CacheDecision | pkg/acp/session.go:185-208 | caches an always-answer and persists the session's whole cache |
| Acp.NextKeepsDenyOk | pkg/acp/server.go:400-432 | while the policy is deny, every session is read-only and no prompt is open |
| Acp.DenyIsFinal | pkg/acp/permission.go:40-73 | on a deny policy no tool call of an open session is approved or even asked about, whatever the store held and whatever ran before |
| Acp.AutoApproves | pkg/acp/permission.go:58-63 | in every run a session in auto mode, or without a mode where the server allows, approves every call |
| Acp.ReadOnlyRefuses | pkg/acp/permission.go:64-73 | in every run a session in read-only mode, or without a mode where the server denies, approves none |
| Acp.AskModeAsks | pkg/acp/permission.go:75-90 | in every run a call without a cached answer is put to a connected client, once, and refused without one |
| Acp.SwitchTakesEffect | pkg/acp/server.go:900-928 | a switched session behaves by its new mode at once, whatever it had cached |
| Acp.CloseEnds | pkg/acp/server.go:831-844 | calls of a closed session's chat are no longer the approver's business, and other sessions stay |
| Acp.ReplyKeepsGrantsIff | pkg/acp/permission.go:138-159 | an answer keeps all cached approvals granted exactly when it writes no stale cache |
| Acp.NextKeepsGrantsIff | pkg/acp/server.go:335-432 | any step, restarts and loads included, keeps cached and stored approvals backed by an always-allow answer since the last mode switch, exactly when it writes no stale cache |
| Acp.RunKeepsGrantsIff | pkg/acp/server.go:335-432 | a run keeps cached and stored approvals backed by answers in all its states exactly when no step of it writes a stale cache |
| Acp.RunKeepsOpenIsLive | pkg/acp/server.go:377-384 | in every run a session that is not closed is the live one under its id |
| Acp.StaleAnswersClosed | pkg/acp/session.go:185-208 | only an always-answer to a closed session can write a stale cache |
| Acp.OpenAnswersKeepGrants | pkg/acp/session.go:185-208 | while no closed session is given an always-answer, cached and stored approvals stay backed by answers |
| Acp.SilentApprovalWasGranted | pkg/acp/permission.go:75-78 | where the client would be prompted, and while no closed session was given an always-answer, an approval without a prompt has an always-allow answer since the last mode switch, also across save, load and restart |
| Acp.AnswerAfterSwitchIff | pkg/acp/server.go:900-928 | right after a mode switch, an always-answer to a prompt of that id keeps approvals backed exactly when its session is not closed or holds no approval other than the one just given |
| Acp.RejectionIsFinal | pkg/acp/session.go:173-183 | after an always-reject answer the session neither asks about the tool nor approves it, unless its mode approves everything, until it is reset, loaded again or closed |
| Acp.AllowanceIsFinal | pkg/acp/session.go:173-183 | after an always-allow answer the tool is approved unasked wherever the client would be prompted, until the session is reset, loaded again or closed, or the tool is always-rejected |
| Acp.AnswersOutliveServer | pkg/acp/server.go:335-395 | after a restart and a load an always-answer still decides, without asking |
| Acp.ModeOutlivesServer | pkg/acp/server.go:335-395 | after a restart and a load the mode is back, unless the policy no longer offers it, and the decisions it cleared are not |
| Acp.FreshOutlivesServer | pkg/acp/server.go:303-331 | a new session comes back from the store without a mode and without decisions |
| Acp.NothingIsRecorded | pkg/acp/server.go:303-331 | without a store nothing is ever recorded |
| Acp.StaleSwitch | pkg/acp/session.go:185-208 | in the failing run, the answer to an old prompt puts back into the store an approval the mode switch had cleared |
| Acp.StaleApproval | pkg/acp/permission.go:75-78 | a whole failing run of eight steps, from the blank server: it ends with the tool approved unasked and no answer since the mode switch that allows it |
| SessionStore.Index.constructor | pkg/acp/session_store.go:51-75 | opening reads the complete records of the file in order |
| SessionStore.Index.PutSession | pkg/acp/session_store.go:86-98 | inserts or replaces, evicts first in first out, and saves |
| SessionStore.Index.UpdateSession | pkg/acp/session_store.go:102-127 | changes an existing record and saves |
| SessionStore.Index.RemoveSession | pkg/acp/session_store.go:158-172 | takes the record out of the records and of the order, leaves the rest in order, and saves |
| SessionStore.Index.Evict | pkg/acp/session_store.go:174-180 | the loop computes the specification of eviction |
| SessionStore.Index.Save | pkg/acp/session_store.go:182-196 | writes the records in order, sorted by age with records of equal age as they were |
| SessionStore.EvictedIs | pkg/acp/session_store.go:174-180 | takes a prefix of the order and its records, and only while over the bound |
| SessionStore.PutKeepsValid | pkg/acp/session_store.go:86-98 | every record stays in the order and the bound holds after a put, whatever the file held |
| SessionStore.IncompleteIsRefused | pkg/acp/session_store.go:86-98 | a record without an id or a key is not taken |
| SessionStore.LoadedIsComplete | pkg/acp/session_store.go:51-75 | nor is one read from the file |
| SessionStore.MissingIsLeftAlone | pkg/acp/session_store.go:102-172 | what is not there can be neither changed nor removed |
| SessionStore.RemovedKeepsValid | pkg/acp/session_store.go:158-172 | removing takes away exactly that record, and every record left stays complete and in the order |
| SessionStore.SortIsStable | pkg/acp/session_store.go:182-196 | the sort gives the same records in order of age, those of equal age in the order they had |
| SessionStore.StableSortIff | pkg/acp/session_store.go:182-196 | and it is the only list that is so |
| SessionStore.ReopenKeepsRecords | pkg/acp/session_store.go:182-196 | saving and reopening loses no record and invents none |
| SessionStore.ReopenKeepsStoreIff | pkg/acp/session_store.go:51-75 | the store comes back with its order exactly when the order lists no missing record and is the order of age |
| ShellQuote.RoundTrip | pkg/acp/terminal.go:219-238 | whatever the words hold, the shell reads back exactly these words |
| ShellQuote.QuoteCommand | pkg/acp/terminal.go:219-238 | the quoted string reads back as the command and its arguments |
| ShellQuote.QuotingIsInjective | pkg/acp/terminal.go:219-238 | different commands never quote to the same string |
| Bench.TokenOverlapF1 | cmd/membench/metrics.go:112-147 | the counting loops and the harmonic mean give twice the shared tokens over all tokens of both sides |
| Bench.OverlapIsScore | cmd/membench/metrics.go:112-147 | a token score lies between 0 and 1, and is 1 exactly when both sides hold the same tokens the same number of times |
| Bench.ScoredIsScore | cmd/membench/eval.go:167-191 | the score of a question is between 0 and 1, and 1 exactly when something was retrieved and holds the tokens of the answer the same number of times; an empty answer does not score where nothing was retrieved |
| Bench.AggregateMetrics | cmd/membench/eval.go:205-264 | the loops compute the averages over all questions and per category |
| Bench.ComputeModeAgg | cmd/membench/eval.go:305-349 | the loops compute the weighted averages of sample aggregates |
| Bench.SummedIsTotal | cmd/membench/eval.go:305-349 | sums of sample aggregates are the sums over all questions, up to the miscounted questions |
| Bench.AggregatesComposeIff | cmd/membench/eval.go:305-349 | aggregating sample aggregates equals aggregating all questions, for any split, exactly in llm modes or when no sample has a category whose scores are all negative |
| Bench.NonNegativeCompose | cmd/membench/eval.go:305-349 | aggregating sample aggregates equals aggregating all questions whenever no score is negative |
| Bench.TokenScoresCompose | cmd/membench/eval.go:305-349 | in token modes aggregating sample aggregates always equals aggregating all questions, for any split, questions without any retrieval included |

## Left out

- The settlement rail, chain, wallet and approval queue: the rail is an answer that may be a success or a failure at every call, its tx is a non-empty string, and no contract rules are assumed.
- Signatures and hashes are function parameters with the one property that a signature verifies; random ids and predicted session ids are fresh and non-empty; a failed prediction of a session id is not modelled.
- Files are written successfully, and a restart reloads what was written last.
- Purchases: each step of an orchestration or of a manual release, each other operator verb, each watched event and each ledger call is one atomic step, and all of them interleave; a dispute or refund that lands later than its check is covered as the observed event of the same kind; the evicted purchase records stay reachable in the model, which only adds behaviours; the pacing of draws, the daily spending cap, redundant purchases and the escalation verb are not modelled.
- Purchases.Observed: covers the events that move a purchase; the informational ones and the partial release of the graduated rail change nothing and have no step.
- Ledger.DrawdownLedger.Acquire: the walk over the sessions takes them in any order.
- Eviction.SweptIsGoodIff: one listing at a time is treated for closed sessions of all different ages only; equal ages are covered by Eviction.SweptAlwaysGoodIff, over all listings at once.
- Registry: sessions are shared by reference, so the model keeps them in a table and passes positions; every operation, `activate` and session_open together with its registration included, is one atomic step, and the configuration is fixed during a run; spawning, scratch directories, usage and outcome reports are not modelled.
- Registry.SessionMgr.ReapSessions: the age limit is a parameter, with its default and configuration left out.
- RateWindow.PeerWindow.Allow: models one peer's window; windows of different peers are independent entries of a map that is not modelled.
- Handshake: reading decimal prices and checking addresses are function parameters shared by both sides; encoding to and from JSON, redaction, the buyer's caps and reviews are left out; under drawdown the lock the gate verifies is the rail's answer for the draw's terms.
- Watch: fetching and decoding logs is one success or failure; that a tick may drop logs past its bound of fifty is not modelled.
- Letter case and white space are those of ASCII, and text length is counted in characters.
- Turns.Conversation.SummarizeSession: what the model answers to a batch or to the request to merge is a parameter; its prompts and retries are not modelled.
- Media: looking up, sizing and encoding a file, and how path tags enter the text, are functions of the store.
- Acp: each request and each answer is one atomic step, caching a decision together with persisting it included; the approver approves calls of chats that are no open session, as the code does; models, thinking levels, history replay and session tools are left out.
- ShellQuote.RoundTrip: covers the quoting for `sh -c`; the PowerShell form is not modelled.
- Bench: scores are exact reals, so rounding of floating point is not modelled; splitting and lower-casing a text into tokens is left out, and so are keywords and recall.
- The websocket, TLS and bridge transports, process spawning, sandboxes, the command line, configuration parsing, the agent loop's turn claiming and the system-prompt file cache are not modelled.
