# The parking backend in Dafny

A model of the backend of a network of parking lots, and proofs about it. Cars enter and leave through cameras and
operators, pay in cash, online or by card at a terminal, and the backend keeps sessions, exit candidates, terminal
operations and a payment ledger consistent while all of this happens at once.

Run `dafny verify dfyconfig.toml` to check everything.

## Files

- `Protocol.dfy`: the records, every transaction that changes them as a function on the tables, the background run of
  a card payment cut at its awaits, queued aborts, restarts; `Next` is one step and `Run` a whole run.
- `ProtocolInvariants.dfy`: the invariant, one lemma for each transaction that it is kept, and the
  reachable states.
- `ProtocolTheorems.dfy`: what follows for every run.
- `ProtocolOutcomes.dfy`: what single transactions mean to their callers, row by row and field by field: who enters,
  leaves, is matched and charged, when a request is refused, and what stays as it was.
- `CardOutcomes.dfy`: the same for card payments: starts, retries, the answer to VRP, completion, aborts and restarts, and
  that the amount in the ledger is the one the terminal approved.
- `ParkingStore.dfy`: the tables as an object in a reachable state, whose methods are the requests; a method with an
  await lets any steps of others happen there, and a whole card run is one method over arbitrary answers.
- `CardRuns.dfy`: card runs over their terminal leases: which conversations can interleave, and what an abort reaches.
- `TerminalManager.dfy`: leases, aborts and reloads of the card terminals, cut at their awaits.
- `VtkWire.dfy`: the Vendotek wire format, TLV fields, frame reassembly and amounts.
- `EditDistance.dfy`, `Plates.dfy`: string distances, and the algorithms that decide which car is meant.
- `ObservationLock.dfy`: the promise-chain lock and the claims of plate-format checks.
- `WebhookEvents.dfy`: registration of camera events, duplicates and echoes.
- `LedDisplay.dfy`: modes, send queue and timer of a LED board.
- `CashCollections.dfy`: collection periods of operators.
- `Tariffs.dfy`, `ForcedOpenAudit.dfy`: interval tariffs, and the audit list of forced openings.
- `Wrappers.dfy`: `Option` and `Result`.

## How the protocol is modelled

A database transaction, and a guarded update outside one, is one step. A card run is cut wherever others can come
between two of its accesses: it reads its row, connects and requests FIN without another look, and takes the answer in
three steps. A FIN that never gets to the terminal counts as requested and not taken. Work that waits between steps is
state: `runs` holds where each card run is suspended, `intents` the queued aborts. Steps come in any order, an abort
or a run may be resumed at any time or never, and the terminal may give any answer. A restart drops runs and aborts
and keeps the rows. Rows are indexed by their ids and never deleted. What an operation went through outside its row
(FIN requests, money taken by the terminal, confirmation received, log rows, a lost run) is kept in its `Trail`, so
that the theorems can speak about it. Legacy sessions may start in `awaiting_payment` without a payment.

Times are integers (milliseconds), money is in hundredths, and a row-locked transaction is atomic.

## What came out false, and the exact condition

- Money the terminal took can disappear without a payment and without a call for reconciliation, exactly by an abort;
  all that is left is the log row of the abort itself (`FinIsAccountedUnlessAborted`). For an operation with a candidate
  the confirmation must have been lost as well (`ConfirmedMoneyIsSettled`, `LostReplyIsSilent`); without a candidate
  even a received one is dropped, because `completeManualCardPayment` returns silently unless the row reads APPROVED
  (`ManualCompletionOutcome`, `ManualSilenceIsReachable`).
- FIN does not leave only while the row reads APPROVED: the row is read before the terminal is connected, and exactly an
  abort between that read and the request lets it leave ABORTED (`FinFollowsItsRead`, `LateFinIsReachable`).
- Two accepted camera events of one plate can be closer than ten seconds when the earlier one is later given a
  plate-format outcome (`MutedEventsDoNotDedupe`, exactly when in `GapBreaksExactlyWhen`). The windows are counted from
  the moment of the query: with any delay after the stamp, stamps can be closer (`DelayNarrowsTheGap`) and the coarse
  window can hide an opposite event within the guard (`WindowNeedsPromptQuery`).
- The registered terminal is not always the leased one: exactly a lease acquired inside a reload can lose it
  (`AcquireAndTerminal`). An abort then misses the terminal of its run (`AbortReaches`, `TwoTalkersArePossible`).
- Conversations of two card runs of one organisation can interleave, even with leases acquired outside a reload: only
  when an abort takes a lease between the check of a row and the request (`SendFollowsCheck`,
  `InterleavedIsOvertaken`), and then always possibly (`ConversationsInterleave`). Both can talk at once, at two
  terminals, when an abort came in between like that or missed its terminal (`TalkersExclude`,
  `CleanTalkersArePossible`).
- Cash is not conserved over collections when a payment commits after a collection that overtook its stamp
  (`CashIsConservedExactlyWhen`, `MissedExactlyWhenOvertaken`).
- Interval tariffs are checked and written in separate statements: two creations or updates at once may leave an overlap
  (`WriteKeepsApart`, `RacingWrites`, in both directions).
- `isFuzzyPlateMatch` and plate distance 1 agree on canonical plates; on normalised ones a fuzzy match is at distance 1
  exactly if the canonical forms differ (`FuzzyOnNormalized`, `FuzzyDiffersOffCanonical`).
- The restricted Damerau distance is not a metric (`DamerauIsNotMetric`); `DamerauTriangle` says what holds instead.
- In the display the generation test of the return-to-clock timer never fails: each mode change clears the timer
  (`TimerActsForItsMode`).

## Model

| member | source | states |
|---|---|---|
| ProtocolTheorems.ConfirmedMoneyIsSettled | src/modules/exitCandidates/exitCandidates.service.ts:1340-1526 | in every reachable state: an operation with a candidate for which a FIN confirmation was received, whose run is over and was not killed by a restart, is either FIN_CONFIRMED with its session completed, exactly one payment of the approved amount and its candidate accepted, or STALE_IGNORED with a reconciliation log row |
| ProtocolTheorems.FinIsAccountedUnlessAborted | src/modules/paymentTerminal/paymentTerminalOperations.service.ts:404-470 | in every reachable state: an operation for which a FIN was sent, whose run is over and was not killed by a restart, is settled or reported as FIN_FAILED if and only if it was not aborted; so money the terminal took, its reply received or lost, disappears from the records exactly by an abort |
| ProtocolTheorems.LostReplyIsSilent | src/modules/paymentTerminal/paymentTerminalOperations.service.ts:404-427 | a reachable state in which the terminal took the money of a candidate operation, the reply was lost, an abort came before the next attempt, and the run is over with neither a payment nor a call for reconciliation; what the records show is an aborted operation |
| ProtocolTheorems.SuspendedRunWaits | src/modules/paymentTerminal/paymentTerminalOperations.service.ts:363-471 | while a card run is suspended, any steps of others leave it where it is; all they can do to its row is abort it |
| ProtocolTheorems.NothingLostWithoutRestart | src/modules/paymentTerminal/paymentTerminalOperations.service.ts:473-486 | in a run without a restart no card run is ever lost, so the two theorems above cover all operations |
| ProtocolTheorems.AbortedIsJustified | src/modules/paymentTerminal/paymentTerminalOperations.service.ts:488-566 | in every reachable state an ABORTED operation has a resolved candidate, or a session somebody has already paid for |
| ProtocolTheorems.OnePaymentPerSession | src/modules/parking/parking.service.ts:568-666 | in every reachable state a car inside has no payment row, no session has two, and each payment is the amount its session records |
| ProtocolTheorems.PaidIsForever | src/modules/exitCandidates/exitCandidates.service.ts:659-743 | in every run, from the step that pays it on, a session with a payment stays completed with the same amount and the same single payment: free-exit recovery never reopens it |
| ProtocolTheorems.OneActiveSessionPerPlate | src/modules/parking/parking.service.ts:386-467 | in every reachable state an active session carries the key org:plate and a completed one none, a plate has at most one active session in an organisation, and after the stale close none: the already-active branch of the entry webhook cannot be reached |
| ProtocolTheorems.StatusOnlyAdvances | src/modules/paymentTerminal/paymentTerminalOperations.service.ts:117-126 | under any step an operation keeps its identity, a status change lowers the rank PENDING, APPROVED, ABORTED, final; the approved amount is written only with PENDING to APPROVED |
| ProtocolTheorems.StatusNeverGoesBack | src/modules/paymentTerminal/paymentTerminalOperations.service.ts:117-126 | over any run an operation never returns to an earlier status, and its approved amount is fixed once it left PENDING |
| ProtocolTheorems.FinFollowsItsRead | src/modules/paymentTerminal/paymentTerminalOperations.service.ts:404-420 | whenever a FIN is requested in a run, its row had read APPROVED earlier in the same turn of the loop; when the request leaves, the row is ABORTED if an abort fell between that read and the request, and APPROVED if none did |
| ProtocolTheorems.FinalMeansNoMoreFins | src/modules/paymentTerminal/paymentTerminalOperations.service.ts:404-411 | over any run no FIN is requested for an operation whose status is final |
| ProtocolTheorems.LateFinIsReachable | src/modules/paymentTerminal/VendotekVTK.ts:228-240 | a reachable state with an ABORTED row whose run is connecting for FIN: the next step sends it, and the terminal may take the money |
| ProtocolTheorems.StepKeepsPayments | src/modules/exitCandidates/exitCandidates.service.ts:659-743 | no step removes or re-prices a payment row, and no candidate leaves a resolved status |
| ProtocolTheorems.AtMostThreeFins | src/modules/paymentTerminal/paymentTerminalOperations.service.ts:404-427 | in any run, restarts included, FIN is requested at most three times for an operation |
| ProtocolTheorems.OneConfirmedOperation | src/modules/paymentTerminal/paymentTerminalOperations.service.ts:158-262 | a session has at most one FIN_CONFIRMED operation; it is completed, and its only payment amount is the approved amount |
| ProtocolTheorems.CardPaymentsFinish | src/modules/paymentTerminal/paymentTerminalOperations.service.ts:363-471 | over any run a card payment is resumed at most fourteen times, whatever the terminal answers and whatever else happens in between: begin, answer to VRP, for each of three FINs the read of the row, the request and its end, and at most three steps to complete |
| ProtocolTheorems.RunsComeToAnEnd | src/modules/paymentTerminal/paymentTerminalOperations.service.ts:363-471 | every resumption of a card run ends it or lowers a measure |
| ProtocolTheorems.ManualCompletionOutcome | src/modules/paymentTerminal/paymentTerminalOperations.service.ts:153-273 | for an operation without a candidate the completion settles or logs the money if and only if the row still reads APPROVED; otherwise the row stays ABORTED although the money was taken, and the session was paid by other means |
| ProtocolTheorems.ManualSilenceIsReachable | src/modules/paymentTerminal/paymentTerminalOperations.service.ts:170 | a reachable state in which a manual card payment was confirmed by the terminal and ended ABORTED, neither settled nor logged |
| ProtocolTheorems.LedgerBalances | src/modules/parking/parking.service.ts:1071-1121 | in every reachable state the payments add up to what the completed sessions record |
| ProtocolInvariants.InitEstablishesInv | src/modules/parking/parking.service.ts:429-467 | empty tables, or legacy awaiting rows without payments, satisfy the invariant |
| ProtocolInvariants.NextKeepsInv | src/modules/exitCandidates/exitCandidates.service.ts:659-743 | every step of every transaction keeps the whole invariant: keys, ledger, references, operation numbers, run phases, abort justification, confirmations |
| ProtocolInvariants.RunKeepsInv | src/modules/paymentTerminal/paymentTerminalOperations.service.ts:363-566 | the invariant holds after any sequence of steps |
| ProtocolInvariants.ReachableKeepsInv | src/modules/paymentTerminal/paymentTerminalOperations.service.ts:363-566 | the invariant holds in every reachable state |
| ProtocolInvariants.ReachableByRuns | src/modules/paymentTerminal/paymentTerminalOperations.service.ts:363-566 | reachable states are exactly the results of runs from an initial state |
| ProtocolInvariants.CloseStaleKeepsInv | src/modules/parking/parking.service.ts:386-427 | after the stale close no active session of the plate is left, so its key is free |
| ProtocolInvariants.RecoverKeepsInv | src/modules/exitCandidates/exitCandidates.service.ts:659-743 | what is recovered is active, unpaid, without a money-holding operation, and the only holder of its key; otherwise nothing changes |
| ProtocolInvariants.CompleteForCandidateKeepsInv | src/modules/exitCandidates/exitCandidates.service.ts:1340-1526 | a confirmed candidate operation is never dropped: the completion settles it or goes on to mark it stale; the branches for a missing row, a missing amount or a status other than APPROVED are dead |
| ProtocolInvariants.OpenIsNotAborted | src/modules/exitCandidates/exitCandidates.service.ts:1366-1369 | while the candidate is pending and the session active, a confirmed operation still reads APPROVED |
| ProtocolInvariants.StaleIsAlwaysMarked | src/modules/exitCandidates/exitCandidates.service.ts:1496-1519 | the guarded update after a rolled-back completion always finds its row, so the reconciliation log is always written |
| ProtocolInvariants.NumberFindsRow | src/modules/exitCandidates/exitCandidates.service.ts:1349-1352 | looking an operation up by organisation and number finds that very row: numbers are unique in an organisation |
| ProtocolInvariants.ConfirmCandidateKeepsInv | src/modules/exitCandidates/exitCandidates.service.ts:1590-1778 | an operator confirmation, charged, free, inpatient or emergency, keeps the invariant and queues only justified aborts |
| ParkingStore.Store.CloseStaleActiveSessionOnReentry | src/modules/parking/parking.service.ts:386-427 | reports whether the plate was active, and afterwards no session of the plate is |
| ParkingStore.Store.InsertActiveSession | src/modules/parking/parking.service.ts:429-467 | inserts exactly when the key is free, and then the new row is the only active one of the plate |
| ParkingStore.Store.CreateEntrySessionInTransaction | src/modules/parking/parking.service.ts:668-705 | succeeds exactly for a plate that is given, passes the policy checks and has no legacy row awaiting payment; then there is a new active row with that plate, entry time and source, no amount and its key, and an older active row is closed for nothing; otherwise the stale close is rolled back |
| ParkingStore.Store.EntryManual | src/modules/parking/parking.service.ts:736-766 | the desk entry with other requests between its stale close and its insert: it succeeds exactly if nobody of the plate is inside by then, as a new row with its plate, entry time and key and the only active one; a refusal leaves the close in place |
| ParkingStore.Store.ProcessEntryWebhook | src/modules/entryCandidates/entryCandidates.service.ts:174-353 | creates a session exactly if the event is not set aside, the plate is given, passes the policy checks and meets no legacy row: then the last row, entered now, of that plate, organisation and source, active, without an amount and with its key; an older active row is closed now for nothing, refused or not, and every other row stays |
| ParkingStore.Store.CompleteActiveSession | src/modules/parking/parking.service.ts:568-666 | succeeds exactly if the plate is active; then exactly that session is closed at the given time, with its first and only payment, of the tariff for a regular car and of nothing for the others, and no session of the plate is active any more |
| ParkingStore.Store.ConfirmCashPayment | src/modules/parking/parking.service.ts:1071-1149 | succeeds exactly for a session awaiting payment; it becomes completed by cash without its key, and its first and only payment is of its recorded amount |
| ParkingStore.Store.ForceCloseSession | src/modules/parking/parking.service.ts:1252-1359 | refused exactly for a session that is not active or a time before its entry; otherwise exactly that session is closed, with its first and only payment, of the entered amount or else the tariff of a regular car |
| ParkingStore.Store.PerformAutoExit | src/modules/exitCandidates/autoExit.service.ts:187-263 | closes if and only if the session exists in the organisation and is active, regular and still free when the tariff is the reason, or inside for any other reason; then that row, and no other, is completed at the given time with amount 0, exit method auto and no key, and without a payment; otherwise nothing changes |
| ParkingStore.Store.RecoverFreeExitSession | src/modules/exitCandidates/exitCandidates.service.ts:659-743 | reopens a regular, unpaid, undisputed free automatic exit of the plate, the one that left last, if the key is free; exit time, amount and exit method are cleared and nothing else changes; otherwise nothing does |
| ParkingStore.Store.CreateCandidate | src/modules/exitCandidates/exitCandidates.service.ts:861-1046 | nothing for a repeated event or a plate inside only as awaiting payment; otherwise the only active session of the plate is matched, else the near match, else the session recovered, else none, and exactly one pending row with these fields is added unless the event repeats a car just dealt with or joins a pending candidate |
| ParkingStore.Store.ConfirmExitCandidate | src/modules/exitCandidates/exitCandidates.service.ts:1590-1778 | refused exactly for a closed candidate, no active session chosen or a regular car without means or tariff; otherwise the session the operator chose, or else the matched one, is the only session changed and the candidate names it; it pays the tariff exactly if it is regular, no emergency and no free inpatient visit |
| ParkingStore.Store.ForceOpenExitCandidate | src/modules/exitCandidates/exitCandidates.service.ts:1870-1959 | decides a pending candidate, leaves the ledger alone, and the session the operator previewed, if still inside, leaves for nothing; no other session changes |
| ParkingStore.Store.CancelExitCandidate | src/modules/exitCandidates/exitCandidates.service.ts:1986-2032 | accepted exactly for an unmatched pending candidate, of which only status and resolution change; queues the abort of its card operation |
| ParkingStore.Store.RunExitCandidatesExpiry | src/modules/exitCandidates/exitCandidatesExpiry.service.ts:37-128 | the loop expires exactly the pending candidates in scope and reports their ids in order |
| ParkingStore.Store.CreatePaymentTerminalOperation | src/modules/paymentTerminal/paymentTerminalOperations.service.ts:81-109 | refused exactly when the numbers of the organisation are used up; otherwise a pending row with the next number, the given candidate and amount and no approved amount, and its run is queued |
| ParkingStore.Store.StartAutomaticCardPayment | src/modules/exitCandidates/exitCandidates.service.ts:311-401 | starts exactly for a pending candidate and an active regular session with an amount, when neither has an operation and a number is left; a refusal changes nothing |
| ParkingStore.Store.ExitManual | src/modules/parking/parking.service.ts:768-901 | a card exit of a regular session queues a run and leaves sessions and ledger alone; any other exit, card for a subscriber included, closes the session at once with a payment in hand |
| ParkingStore.Store.RetryCardPayment | src/modules/parking/parking.service.ts:1157-1229 | only after DECLINED or TIMEOUT of the last operation of an active session, whose candidate must still be pending: a new row for the same candidate and amount; a refusal changes nothing |
| ParkingStore.Store.CompleteCardPaymentForCandidate | src/modules/exitCandidates/exitCandidates.service.ts:1340-1493 | either stale, with no row changed, or FIN_CONFIRMED with session, payment and candidate as the approved amount demands |
| ParkingStore.Store.AwaitAndCheckFin | src/modules/paymentTerminal/paymentTerminalOperations.service.ts:404-409 | others run and the row is read: the turn goes ahead if and only if it reads APPROVED then, and otherwise the run ends with the row aborted |
| ParkingStore.Store.FinTurn | src/modules/paymentTerminal/paymentTerminalOperations.service.ts:404-427 | one turn of the FIN loop with others before the read of the row, while it connects and before the answer: once the row has read APPROVED it adds exactly one request with its answer, whatever happens to the row; otherwise the run of an aborted row ends |
| ParkingStore.Store.FinalizePayment | src/modules/paymentTerminal/paymentTerminalOperations.service.ts:421-447 | the FIN loop over arbitrary answers: it stops at the first confirmation received, after three attempts, or at a read of an aborted row |
| ParkingStore.Store.ProcessCardPaymentOperation | src/modules/paymentTerminal/paymentTerminalOperations.service.ts:363-471 | the whole card run over arbitrary answers of the terminal and arbitrary requests of others between its reads, requests and updates: FIN goes out only after an approval, and the approved amount on record is then the one the terminal answered; FIN_CONFIRMED means the session is closed and its only payment is of exactly that amount; FIN_FAILED means three FINs; a requested FIN is accounted for exactly if the row was not aborted |
| ParkingStore.Store.SavePayment | src/modules/paymentTerminal/paymentTerminalOperations.service.ts:386-402 | on a row that is still pending, and on no other: an approval of amount a > 0 writes APPROVED and exactly that amount; a refusal writes its own status and leaves the amount alone |
| ParkingStore.Store.ReadAbortTarget | src/modules/paymentTerminal/paymentTerminalOperations.service.ts:494-501 | the latest open operation of the session, and of the candidate if one is given, or of the candidate alone |
| ParkingStore.Store.AbortOperation | src/modules/paymentTerminal/paymentTerminalOperations.service.ts:502-510 | aborts exactly a row that is still open, and changes nothing else of it |
| ParkingStore.Store.MarkOrphanedOperations | src/modules/paymentTerminal/PaymentTerminalManager.ts:173-203 | the startup loop over the rows it selected once, with others at every await: a selected row that still reads as selected at its turn ends ORPHANED and logged, in the order of selection; the others end ABORTED, and no other old row changes but by an abort |
| ProtocolOutcomes.RecoveryUndoesFreeExit | src/modules/exitCandidates/exitCandidates.service.ts:659-743 | recovery gives back the tables of before a free exit, field for field, if and only if the exit is recent enough, no operation holds money for the session and no later visit exists |
| ProtocolOutcomes.RecoverOutcome | src/modules/exitCandidates/exitCandidates.service.ts:659-743 | recovery reopens, if the key of the plate is free, exactly the last left of the recent, regular, unpaid free automatic exits of the plate that no money-holding operation and no later visit contradicts; without one nothing changes |
| ProtocolOutcomes.EntryOutcome | src/modules/parking/parking.service.ts:668-705 | apart from the policy checks an entry is refused exactly for an empty plate or a legacy row awaiting payment; otherwise the new row stands field by field, an older active one of the plate is closed now for nothing, and every other row stays |
| ProtocolOutcomes.EntryWebhookOutcome | src/modules/entryCandidates/entryCandidates.service.ts:174-353 | a camera entry: when it admits its car the last row is the car's, entered at the very moment of the event, active, unpaid and with its key; otherwise no row is added; either way an older active row of the plate is closed now for nothing and every other row stays |
| ProtocolOutcomes.CompleteSessionOutcome | src/modules/parking/parking.service.ts:568-666 | a manual exit succeeds exactly if the plate is active; the session closed is the only active one of the plate, field by field, its payment its first, and every other row stays |
| ProtocolOutcomes.ForceCloseOutcome | src/modules/parking/parking.service.ts:1252-1359 | refused exactly for a missing or inactive session or a time before its entry; otherwise the row closed and its payment, field by field |
| ProtocolOutcomes.ConfirmCashOutcome | src/modules/parking/parking.service.ts:1071-1149 | refused exactly for a missing session or one not awaiting payment; otherwise its recorded amount is paid in cash and only its status, means and key change |
| ProtocolOutcomes.AutoExitOutcome | src/modules/exitCandidates/autoExit.service.ts:193-240 | an automatic exit closes if and only if the session is active, regular and still free when the tariff is the reason, or inside for any other reason: completed at that moment, amount 0, exit method auto, no key; otherwise nothing changes |
| ProtocolOutcomes.ConfirmOutcome | src/modules/exitCandidates/exitCandidates.service.ts:1590-1778 | a confirmation is refused exactly for a closed candidate, no active session chosen, or a regular car that cannot be charged; otherwise the session of the operator's choice, or else the matched one, is the only one changed: it pays the tariff if regular, no emergency and no free inpatient visit, and leaves for nothing if not; the candidate names it, and an open card operation is to be aborted unless the means is card |
| ProtocolOutcomes.CandidateOutcome | src/modules/exitCandidates/exitCandidates.service.ts:868-1046 | an exit event leaves nothing if it repeats one or the plate is inside only as awaiting payment; otherwise it is matched to the only active session of the plate, else to the near match, else to the session recovered, else to none, and adds exactly one pending row with that match unless it repeats a car just dealt with or joins a pending candidate |
| ProtocolOutcomes.CancelOutcome | src/modules/exitCandidates/exitCandidates.service.ts:1986-2032 | a cancellation is refused exactly for a closed or a matched candidate; otherwise only status and resolution change and the abort of its card operation is queued |
| ProtocolOutcomes.PreviewOutcome | src/modules/exitCandidates/exitCandidates.service.ts:1304-1338 | a preview is refused exactly for a closed candidate or a session that is not inside, and otherwise records the session for a later forced opening |
| ProtocolOutcomes.ExpiryOutcome | src/modules/exitCandidates/exitCandidatesExpiry.service.ts:37-128 | exactly the pending candidates in scope become expired, and nothing else changes |
| ProtocolOutcomes.ForceOpenOutcome | src/modules/exitCandidates/exitCandidates.service.ts:1870-1959 | refused exactly for a closed candidate; the session previewed before, if it is inside, leaves for nothing and is the only one changed, and the ledger stays |
| ProtocolOutcomes.DecidedOnce | src/modules/exitCandidates/exitCandidates.service.ts:1870-2150 | once a candidate is decided every later decision, preview and automatic card start on it is refused |
| ProtocolOutcomes.ExpiryIsComplete | src/modules/exitCandidates/exitCandidatesExpiry.service.ts:37-128 | an expiry pass leaves nothing in its scope, and a second pass changes nothing |
| CardOutcomes.VrpOutcome | src/modules/paymentTerminal/paymentTerminalOperations.service.ts:363-402 | the answer to VRP is recorded only on a pending row: an approval of amount a > 0 as APPROVED with exactly a, and the run goes on to FIN; a refusal, or an approval of nothing, as its own status and the amount left alone, and the run ends |
| CardOutcomes.ApprovedByTerminal | src/modules/paymentTerminal/paymentTerminalOperations.service.ts:384-393 | in every run an operation's approved amount is the one the terminal answered when it was asked for this operation: an earlier step of the run is that approval, of that amount |
| CardOutcomes.LedgerHasApprovedAmount | src/modules/paymentTerminal/paymentTerminalOperations.service.ts:158-262 | in every run a FIN_CONFIRMED operation's session is completed with, and has as its only payment, the very amount some earlier step of the run received from the terminal |
| CardOutcomes.CandidateCompletionOutcome | src/modules/exitCandidates/exitCandidates.service.ts:1340-1493 | a confirmed card payment with a candidate settles if and only if the candidate is pending and the car inside: session, payment, candidate and operation field by field; otherwise nothing is written and it goes on to be marked stale |
| CardOutcomes.ManualCompletionRows | src/modules/paymentTerminal/paymentTerminalOperations.service.ts:153-273 | without a candidate it settles, field by field, while the row reads APPROVED and the car is inside, is set aside and logged if only the car has left, and otherwise writes nothing |
| CardOutcomes.FinOutcome | src/modules/paymentTerminal/paymentTerminalOperations.service.ts:404-447 | a FIN request only counts; a confirmation leads to completion, and the third FIN without one is the last |
| CardOutcomes.LastTurnOutcome | src/modules/paymentTerminal/paymentTerminalOperations.service.ts:437-471 | a stale row is marked if it reads APPROVED or ABORTED, an unconfirmed one if it reads APPROVED, and a marked row is logged for reconciliation |
| CardOutcomes.StartOutcome | src/modules/paymentTerminal/paymentTerminalOperations.service.ts:81-109 | an operation starts exactly if the numbers of the organisation are not used up, with one more than the greatest number used and every field as given |
| CardOutcomes.AutomaticStartOutcome | src/modules/exitCandidates/exitCandidates.service.ts:349-401 | an automatic start succeeds exactly for a pending candidate and an active regular session with an amount, when neither has an operation and a number is left |
| CardOutcomes.ManualStartOutcome | src/modules/parking/parking.service.ts:768-901 | a manual start is for the only active session of the plate, without a candidate |
| CardOutcomes.AutomaticCardStartsOnce | src/modules/exitCandidates/exitCandidates.service.ts:367-374 | after an automatic start a second one for the same candidate or the same session is refused |
| CardOutcomes.RetryOutcome | src/modules/parking/parking.service.ts:1157-1229 | a retry is judged by the last operation of the session, repeats its candidate and amount, and is refused exactly unless that reads DECLINED or TIMEOUT, its candidate is still pending and a number is left |
| CardOutcomes.RetryOnce | src/modules/parking/parking.service.ts:1157-1229 | once retried, a session cannot be retried again before the terminal has answered |
| CardOutcomes.AbortChoice | src/modules/paymentTerminal/paymentTerminalOperations.service.ts:494-501 | a queued abort chooses the last open operation it is meant for, if there is one |
| CardOutcomes.AbortOutcome | src/modules/paymentTerminal/paymentTerminalOperations.service.ts:502-510 | an abort writes its status exactly on a row that is still open and changes nothing else |
| CardOutcomes.RestartOutcome | src/modules/paymentTerminal/PaymentTerminalManager.ts:173-203 | a restart forgets runs and queued aborts, keeps every row, and marks as lost exactly the operations whose run it killed |
| CardOutcomes.OrphanOutcome | src/modules/paymentTerminal/PaymentTerminalManager.ts:173-203 | startup marks exactly an open operation of an earlier process that still reads as selected |
| CardRuns.OneOpenRun | src/modules/paymentTerminal/paymentTerminalOperations.service.ts:473-486 | in every interleaving at most one unfinished card run of an organisation is not aborted, and it holds the lease |
| CardRuns.LeaseEnds | src/modules/paymentTerminal/PaymentTerminalManager.ts:106-122 | under the invariant, a step ends the live lease of a run if and only if it is an abort that takes that lease or the end of the run |
| CardRuns.SendFollowsCheck | src/modules/paymentTerminal/paymentTerminalOperations.service.ts:404-411 | in every run of the system each request follows a check of an open row in the same turn, and leaves without the lease if and only if an abort of that run took the lease between the check and the request |
| CardRuns.InterleavedIsOvertaken | src/modules/paymentTerminal/VendotekVTK.ts:228-240 | if another run of the organisation sends while this one is there, and this one sends after it, then an abort overtook one of the two: it took the lease between the check and the request |
| CardRuns.ConversationsInterleave | src/modules/paymentTerminal/VendotekVTK.ts:228-240 | in every reachable state, another run of the organisation can still send before a request of this one, in some continuation, if and only if this run may still send: it is connecting, or its row is open and a request is left; for an aborted run exactly while it is connecting |
| CardRuns.TalkersExclude | src/modules/paymentTerminal/VendotekVTK.ts:361 | two card runs of an organisation have requests outstanding at once only at different terminals, and only if one of them went on without its lease: its abort missed the terminal or came before its connect |
| CardRuns.AbortReaches | src/modules/paymentTerminal/VendotekVTK.ts:266-274 | an abort that takes the lease away cuts the conversation off if and only if the registered terminal is the one leased and has the operation under way, and never stops a run that is connecting; for a lease acquired outside a reload it reaches the terminal unless a run without a lease has cleared the operation there |
| CardRuns.TwoTalkersArePossible | src/modules/paymentTerminal/PaymentTerminalManager.ts:72-88 | a reachable state in which two card runs of one organisation have requests outstanding at once, after a lease during a reload |
| CardRuns.CleanTalkersArePossible | src/modules/paymentTerminal/VendotekVTK.ts:236-240 | the same with both leases acquired outside a reload: the abort came after the row was read for FIN, and the VRP of the second run went out between VRP and FIN of the first |
| TerminalManager.LeasesExclude | src/modules/paymentTerminal/PaymentTerminalManager.ts:94-151 | in every interleaving at the await points the grants and releases of an organisation form a correct lock history: a grant only when free, a release only on behalf of the holder |
| TerminalManager.RunIsConsistent | src/modules/paymentTerminal/PaymentTerminalManager.ts:94-151 | in every interleaving an organisation is busy exactly while a lease is live or its abort is under way, and a pending reload implies busy |
| TerminalManager.StaleReleaseIsHarmless | src/modules/paymentTerminal/PaymentTerminalManager.ts:117-128 | a repeated release, or one after an abort, changes nothing but its own flag |
| TerminalManager.DeferredReloadStarts | src/modules/paymentTerminal/PaymentTerminalManager.ts:72-88 | a reload that had to wait starts in the very step that frees the organisation |
| TerminalManager.OwnershipOverRuns | src/modules/paymentTerminal/PaymentTerminalManager.ts:94-130 | a lease that holds the registered terminal with no reload in flight holds it as long as it lives |
| TerminalManager.AcquireAndTerminal | src/modules/paymentTerminal/PaymentTerminalManager.ts:72-106 | in every continuation a new lease, while it lives, holds the registered terminal if and only if no reload was in flight when it was acquired |
| TerminalManager.AcquireOutcome | src/modules/paymentTerminal/PaymentTerminalManager.ts:94-112 | refused exactly when disabled, busy, or without a terminal and an address, in this order; otherwise the next token gets the registered or a new terminal, the organisation is busy, and no other organisation changes |
| TerminalManager.ReleaseOutcome | src/modules/paymentTerminal/PaymentTerminalManager.ts:117-128 | the first release through a live token frees the organisation and starts a reload that waited; any other sets at most its own flag |
| TerminalManager.AbortOutcome | src/modules/paymentTerminal/PaymentTerminalManager.ts:136-150 | an abort takes away exactly the lease with its number and keeps the organisation busy until it is over |
| TerminalManager.ReloadOutcome | src/modules/paymentTerminal/PaymentTerminalManager.ts:72-88 | a reload waits while busy and otherwise drops the terminal; at its end a new one is registered exactly if enabled with an address |
| TerminalManager.PaymentTerminalManager.AcquireConfigured | src/modules/paymentTerminal/PaymentTerminalManager.ts:94-130 | refused when disabled, busy or without an address, otherwise the only live lease |
| TerminalManager.PaymentTerminalManager.BindOperation | src/modules/paymentTerminal/PaymentTerminalManager.ts:113-116 | binds the number only through the live token |
| TerminalManager.PaymentTerminalManager.ReleaseLease | src/modules/paymentTerminal/PaymentTerminalManager.ts:117-128 | frees the organisation if and only if the token is live |
| TerminalManager.PaymentTerminalManager.ReloadTerminal | src/modules/paymentTerminal/PaymentTerminalManager.ts:72-80 | deferred while busy |
| TerminalManager.PaymentTerminalManager.ReloadConfigured | src/modules/paymentTerminal/PaymentTerminalManager.ts:81-87 | installs the new terminal after the awaits |
| TerminalManager.PaymentTerminalManager.AbortPendingPayment | src/modules/paymentTerminal/PaymentTerminalManager.ts:136-142 | takes the lease away only for its own operation number; the organisation stays busy |
| TerminalManager.PaymentTerminalManager.AbortFinished | src/modules/paymentTerminal/PaymentTerminalManager.ts:143-150 | frees the organisation after the abort, starting a waiting reload |
| VtkWire.ChunkingIsIrrelevant | src/modules/paymentTerminal/VendotekVTK.ts:320-330 | however a byte stream is cut into chunks, the packets dispatched are the frames of the whole stream in order and the buffer ends as its remainder |
| VtkWire.CutIsUnique | src/modules/paymentTerminal/VendotekVTK.ts:320-330 | a stream has exactly one cut into whole frames and a tail that holds none, and Frames and Remainder are it |
| VtkWire.AnswerResumes | src/modules/paymentTerminal/VendotekVTK.ts:332-357 | the request in flight gets the first matching packet, no matter how the packets arrive in batches |
| VtkWire.VendotekVtk.HandleData | src/modules/paymentTerminal/VendotekVTK.ts:320-330 | the loop dispatches the frames of buffer plus chunk and keeps the remainder |
| VtkWire.VendotekVtk.HandlePacket | src/modules/paymentTerminal/VendotekVTK.ts:332-357 | a packet settles the request in flight only with its name and operation number; no request is settled twice |
| VtkWire.VendotekVtk.SendRequest | src/modules/paymentTerminal/VendotekVTK.ts:359-371 | refused exactly without a connection or with a request pending; otherwise a new unsettled request |
| VtkWire.VendotekVtk.FailRequest | src/modules/paymentTerminal/VendotekVTK.ts:372-383 | a timer or write error settles its own request if that is still in flight, and no later one |
| VtkWire.VendotekVtk.HandleClose | src/modules/paymentTerminal/VendotekVTK.ts:420-437 | a closed connection settles the pending request and no other, and drops what was received |
| VtkWire.ParseFields | src/modules/paymentTerminal/VendotekVTK.ts:95-110 | the offset loop computes the last-wins map, or the error of the first incomplete TLV |
| VtkWire.DecodesExactlyTlvs | src/modules/paymentTerminal/VendotekVTK.ts:95-110 | parsing succeeds if and only if the bytes are a concatenation of complete TLVs |
| VtkWire.BuildThenParse | src/modules/paymentTerminal/VendotekVTK.ts:58-110 | parsing a built message gives back the message name and every field, the last of each tag, for all 7-bit fields within the limits |
| VtkWire.BuildMeans | src/modules/paymentTerminal/VendotekVTK.ts:64-75 | a message is built exactly if name and whole fit their length fields, and is one frame in the direction of requests, name first |
| VtkWire.HeaderIsSkipped | src/modules/paymentTerminal/VendotekVTK.ts:77-93 | fields are read behind a header whose length counts the rest, or behind a bare direction, or from the start |
| VtkWire.AnswerMeans | src/modules/paymentTerminal/VendotekVTK.ts:332-357 | the request gets the first packet that is a response with its name, and its operation number if it has one, by the last field of each tag; with exactly that packet's fields |
| VtkWire.LastWinsAt | src/modules/paymentTerminal/VendotekVTK.ts:96-108 | the value of a tag is that of its last field |
| VtkWire.LastWinsTags | src/modules/paymentTerminal/VendotekVTK.ts:96-108 | the map has exactly the tags that occur |
| VtkWire.AsciiRoundTrip | src/modules/paymentTerminal/VendotekVTK.ts:64-68 | text survives encoding and decoding if and only if it is 7-bit |
| VtkWire.ApprovedAmountRoundTrip | src/modules/paymentTerminal/VendotekVTK.ts:38-56 | an approved amount survives the way into the FIN request if and only if it fits 32 bits, and the FIN response is taken as confirmation if and only if it repeats that amount without leading zeros |
| VtkWire.AmountsMean | src/modules/paymentTerminal/VendotekVTK.ts:38-56 | which amounts a request takes and which digits a response may carry, with both error cases |
| VtkWire.DecimalRoundTrip | src/modules/paymentTerminal/VendotekVTK.ts:38-56 | decimal digits of a number read back as that number |
| VtkWire.CanonicalDecimal | src/modules/paymentTerminal/VendotekVTK.ts:51-56 | reading digits and writing them again gives the same digits if and only if there is no leading zero |
| EditDistance.LevenshteinIsMetric | src/modules/exitCandidates/plateMatch.ts:12-31 | symmetric, zero exactly for equal strings, triangle inequality, between the length difference and the longer length |
| EditDistance.LevenshteinIsLeastEdits | src/modules/exitCandidates/plateMatch.ts:12-31 | the recursive distance is the least number of single-character edits: some path of that many exists and none is shorter |
| EditDistance.OneEditIffDistanceOne | src/modules/webhook/webhookIdempotency.ts:89-111 | distance 1 is one substitution, insertion or deletion, and nothing else |
| EditDistance.DamerauBetween | src/modules/exitCandidates/exitCandidates.service.ts:750-768 | symmetric, zero exactly for equal strings, never above Levenshtein and at least half of it |
| EditDistance.DamerauIsNotMetric | src/modules/exitCandidates/exitCandidates.service.ts:750-768 | a concrete triple that breaks the triangle inequality for the restricted distance |
| EditDistance.DamerauTriangle | src/modules/exitCandidates/exitCandidates.service.ts:750-768 | the triangle inequality holds up to a factor of two, and in full while both legs equal their Levenshtein distances |
| Plates.PlateDistance | src/modules/exitCandidates/plateMatch.ts:12-31 | the rolling-row loop equals the Levenshtein distance of the canonical plates |
| Plates.CanonicalFixedPoints | src/modules/exitCandidates/plateMatch.ts:1-10 | canonicalisation is idempotent and its fixed points are exactly the canonical strings |
| Plates.CanonicalCharacter | src/modules/exitCandidates/plateMatch.ts:1-10 | what becomes of every single character: upper case, look-alikes O, I, B, S as digits, anything else dropped |
| Plates.DistanceIsLeastEdits | src/modules/exitCandidates/plateMatch.ts:12-31 | plate distance is the least number of edits between the canonical plates |
| Plates.DistanceIsPseudometric | src/modules/exitCandidates/plateMatch.ts:12-31 | symmetric, triangle inequality, zero exactly when the canonical forms agree, unchanged by canonicalising, never above the distance of the normalised plates |
| Plates.SimilarityPercentFacts | src/modules/exitCandidates/plateMatch.ts:33-40 | symmetric; the distance never exceeds the longer canonical form, so the rounded share lies between 0 and 100 and the clamp never changes it; 100 exactly for equal canonical forms of fewer than two hundred characters |
| Plates.ShareBounds | src/modules/exitCandidates/plateMatch.ts:38-39 | without that bound the share would be negative: exactly for a distance more than half a percent beyond the length |
| Plates.DamerauLevenshtein | src/modules/exitCandidates/exitCandidates.service.ts:750-768 | the matrix loops equal the restricted Damerau-Levenshtein recurrence |
| Plates.SimilarityScoreFacts | src/modules/exitCandidates/exitCandidates.service.ts:770-785 | the score is symmetric, and of the two distances compared the one of the look-alike forms decides |
| Plates.SimilarityScoreMeans | src/modules/exitCandidates/exitCandidates.service.ts:770-785 | the score in each case: none for an empty plate or more than two edits, 10000 for equal plates, 9800 for look-alikes, else the nearest whole share |
| Plates.SimilarityTiers | src/modules/exitCandidates/exitCandidates.service.ts:770-785 | equal plates outrank look-alikes, which outrank near plates, for plates of fewer than fifty characters; from fifty on one edit scores like a look-alike |
| Plates.EditDistanceAtMostOne | src/modules/webhook/webhookIdempotency.ts:89-111 | the two-pointer loop returns true if and only if the Levenshtein distance is exactly 1 |
| Plates.FuzzyAgreesOnCanonical | src/modules/webhook/webhookRules.ts:10-19 | on canonical plates of length six or more the fuzzy test is plate distance 1 |
| Plates.FuzzyOnNormalized | src/modules/webhook/webhookRules.ts:10-19 | on normalised plates a fuzzy match is at plate distance at most one, and at one exactly if the canonical forms differ |
| Plates.FuzzyDiffersOffCanonical | src/modules/webhook/webhookRules.ts:10-19 | plates that differ by a look-alike character match fuzzily at plate distance 0 |
| Plates.V2ChoosesStrictlyNearest | src/modules/exitCandidates/exitCandidates.service.ts:579-604 | the matcher takes a car if and only if the plate has three characters or more and that car is strictly nearest and at most one edit away: an ambiguity charges nobody |
| ObservationLock.LockIsFifo | src/modules/plateFormats/plateFormatCheck.service.ts:70-85 | in every interleaving one holder per key, served in order of entry, and a map entry exactly while somebody holds or waits |
| ObservationLock.LockIsLive | src/modules/plateFormats/plateFormatCheck.service.ts:70-85 | the first caller that has not let go holds the key or may take it at once |
| ObservationLock.OneFinaliser | src/modules/plateFormats/plateFormatCheck.service.ts:174-287 | no check record is finalised by two callers at once, and a holder without a claim finds none of its key being finalised |
| ObservationLock.ResolvedMeansDone | src/modules/plateFormats/plateFormatCheck.service.ts:76-78 | the promise a caller waits for is resolved exactly when every earlier caller of the key has let go |
| ObservationLock.PlateFormatChecks.WithObservationLock | src/modules/plateFormats/plateFormatCheck.service.ts:70-77 | entering chains behind the last caller of the key |
| ObservationLock.PlateFormatChecks.PreviousResolved | src/modules/plateFormats/plateFormatCheck.service.ts:78-80 | the action starts once the awaited promise is resolved, and then nobody else of the key is inside |
| ObservationLock.PlateFormatChecks.Finally | src/modules/plateFormats/plateFormatCheck.service.ts:81-84 | removes the map entry if and only if it is the caller's own |
| ObservationLock.PlateFormatChecks.ClaimCheck | src/modules/plateFormats/plateFormatCheck.service.ts:174-178 | claims a record if and only if it is pending |
| ObservationLock.PlateFormatChecks.FinishCheck | src/modules/plateFormats/plateFormatCheck.service.ts:262-267 | a failed finalisation puts the record back to pending |
| WebhookEvents.AcceptedAreApart | src/modules/webhook/webhookIdempotency.ts:160-179 | over any run an accepted registration was looked up more than ten seconds after the stamp of every earlier accepted one of its organisation, plate and direction, if the earlier was not given a suppressed outcome afterwards |
| WebhookEvents.GapBreaksExactlyWhen | src/modules/webhook/webhookIdempotency.ts:160-254 | a registration breaks that gap if and only if an accepted event of its key is recent, every recent one has a suppressed outcome, and no opposite event holds it back |
| WebhookEvents.MutedEventsDoNotDedupe | src/modules/webhook/webhookIdempotency.ts:268-285 | the gap without the proviso is false: an event set to wait for its plate format no longer holds back its repetition |
| WebhookEvents.DelayNarrowsTheGap | src/modules/webhook/webhookIdempotency.ts:160-171 | a repetition stamped exactly ten seconds later is accepted if and only if its query runs later than its stamp |
| WebhookEvents.WindowNeedsPromptQuery | src/modules/webhook/webhookIdempotency.ts:188-210 | the window of guard plus twice the skew hides no opposite event within the guard if and only if the query runs at the stamp of the new event |
| WebhookEvents.NearPlatesAreClose | src/modules/webhook/webhookIdempotency.ts:113-123 | near plates are one or two edits apart, by exactly the number of lost leading characters, and nearness is symmetric |
| WebhookEvents.NearPlateMeans | src/modules/webhook/webhookIdempotency.ts:85-123 | near plates: two different plausible plates one edit apart, or one of them the other without its first one or two characters |
| WebhookEvents.ClassifyMeans | src/modules/webhook/webhookIdempotency.ts:160-254 | a duplicate exactly if an event of its key that still counts is within ten seconds of the query; else the last event of the same plate from the other direction in time makes an echo; else the last of a near plate a conflict; else accepted |
| WebhookEvents.WebhookEventTable.RegisterWebhookEvent | src/modules/webhook/webhookIdempotency.ts:125-259 | insert and queries, each at its own time, give the classification over the whole history |
| WebhookEvents.WebhookEventTable.SearchWindow | src/modules/webhook/webhookIdempotency.ts:188-228 | newest first within the window finds the newest match, if every match lies in the window |
| ForcedOpenAudit.PreferenceIsStrictTotalOrder | src/modules/forcedOpenAudit/forcedOpenAudit.service.ts:85-98 | irreflexive, transitive, asymmetric, and total on rows with distinct ids |
| ForcedOpenAudit.PreferenceMeans | src/modules/forcedOpenAudit/forcedOpenAudit.service.ts:85-98 | reviewed before unreviewed; of two unreviewed the surer, any number before none; then the earlier; then the lower id |
| ForcedOpenAudit.DeduplicateSessionRows | src/modules/forcedOpenAudit/forcedOpenAudit.service.ts:100-121 | keeps, in order, every row without a session and the most preferred competing row of each session |
| ForcedOpenAudit.VisibleMeans | src/modules/forcedOpenAudit/forcedOpenAudit.service.ts:105-121 | a row is shown exactly if it has no session, or it is the most preferred of the rows of its session that are reviewed or whose session has no review |
| ForcedOpenAudit.OneRowPerSession | src/modules/forcedOpenAudit/forcedOpenAudit.service.ts:100-121 | two shown rows never share a session, and which rows are shown does not depend on the order of the input |
| ForcedOpenAudit.SameRowsInAnyOrder | src/modules/forcedOpenAudit/forcedOpenAudit.service.ts:100-121 | the same rows are shown for any order of the input |
| ForcedOpenAudit.SomeRowShown | src/modules/forcedOpenAudit/forcedOpenAudit.service.ts:100-121 | a session with a competing row shows its most preferred one |
| Tariffs.OverlapMeansSharedMinute | src/modules/tariffIntervals/tariffIntervals.service.ts:35-44 | closed intervals overlap if and only if they share a minute |
| Tariffs.TariffIntervals.CreateTariffInterval | src/modules/tariffIntervals/tariffIntervals.service.ts:84-99 | refused exactly for an invalid or overlapping interval in the table it checks; the insert goes into the table that others leave meanwhile, and keeps that disjoint if and only if the interval still fits |
| Tariffs.TariffIntervals.UpdateTariffInterval | src/modules/tariffIntervals/tariffIntervals.service.ts:101-119 | found, checked and written in three tables, as others leave them: refused exactly for a missing row, an invalid range or an overlap with a row other than its own, and what it writes keeps the table disjoint if and only if it still fits |
| Tariffs.TariffIntervals.DeleteTariffInterval | src/modules/tariffIntervals/tariffIntervals.service.ts:121-124 | removes that one row from what others leave meanwhile |
| Tariffs.WriteKeepsApart | src/modules/tariffIntervals/tariffIntervals.service.ts:46-65 | a creation or an update keeps the table disjoint if and only if its check would still pass when it is written |
| Tariffs.RacingWrites | src/modules/tariffIntervals/tariffIntervals.service.ts:46-119 | two requests of different rows that both passed their checks, creations or updates, leave the table disjoint if and only if their intervals do not overlap |
| Tariffs.CalculateIntervalAmount | src/modules/parking/parking.service.ts:150-166 | sort and scan equal the price at the latest start not after the duration |
| Tariffs.PriceMeans | src/modules/parking/parking.service.ts:150-166 | the price is that of the interval with the latest start not after the duration, of equal starts the later in the list, and 0 while none has started |
| Tariffs.PriceOfApartIntervals | src/modules/parking/parking.service.ts:150-166 | for disjoint intervals the price does not depend on the order, a covered minute costs its interval's price, and no interval is in force exactly before the first start |
| Tariffs.HourlyAmount | src/modules/parking/parking.service.ts:168-183 | the hourly charge covers every begun hour after the grace period and never falls with time |
| LedDisplay.FramesNeverGoBack | src/modules/led/led.service.ts:99-124 | in every run frames start in the order of their generations, and one generation shows one mode |
| LedDisplay.SupersededNeverStarts | src/modules/led/led.service.ts:106-110 | a frame that starts is of the mode on show, so none starts after its mode was superseded |
| LedDisplay.TimerActsForItsMode | src/modules/led/led.service.ts:263-286 | in every run a timer that fires was set under the mode still on show, with no mode entered since, and changes it exactly if that is a payment: the generation test of the callback never fails |
| LedDisplay.ClockIsRateLimited | src/modules/led/led.service.ts:126-140 | in every run the clock is requested at most once a second within a generation |
| LedDisplay.LedRuntime.EnterMode | src/modules/led/led.service.ts:161-178 | a new generation, and no timer left over |
| LedDisplay.LedRuntime.DiscardUnconfiguredPayment | src/modules/led/led.service.ts:180-185 | the payment given is not on show afterwards; any other mode is left alone |
| LedDisplay.LedRuntime.BeginClock | src/modules/led/led.service.ts:126-140 | lets a clock request through only for the current clock generation, a second after the last |
| LedDisplay.LedRuntime.QueueClock | src/modules/led/led.service.ts:142-152 | after the await a clock frame is queued if and only if its generation is still the clock on show |
| LedDisplay.LedRuntime.QueuePayment | src/modules/led/led.service.ts:214-224 | a payment frame queues up whatever happened during the await |
| LedDisplay.LedRuntime.SendNext | src/modules/led/led.service.ts:106-110 | a queued frame is sent if and only if its mode is still current |
| LedDisplay.LedRuntime.ScheduleReturnToClock | src/modules/led/led.service.ts:263-281 | the timer belongs to the current generation |
| LedDisplay.LedRuntime.ReturnToClock | src/modules/led/led.service.ts:270-281 | acts exactly in payment mode |
| CashCollections.CashIsConservedExactlyWhen | src/modules/cashCollections/cashCollections.service.ts:154-169 | expected amounts of the periods plus the pending amount equal all cash since the base if and only if no cash of value came too late for its period |
| CashCollections.MissedExactlyWhenOvertaken | src/modules/cashCollections/cashCollections.service.ts:75-121 | a payment comes too late for its period if and only if a collection of its operator that reaches beyond its stamp falls between stamp and commit |
| CashCollections.TilesCover | src/modules/cashCollections/cashCollections.service.ts:75-95 | the periods leave no instant out |
| CashCollections.TilesDoNotOverlap | src/modules/cashCollections/cashCollections.service.ts:75-95 | the periods of an operator follow one another from the base and never share an instant |
| CashCollections.TilingEnds | src/modules/cashCollections/cashCollections.service.ts:75-95 | the latest of base and period ends is where the tiling ends |
| CashCollections.TakenSplits | src/modules/cashCollections/cashCollections.service.ts:97-121 | what is taken in a period is what is taken in its two halves |
| CashCollections.TakenOfOne | src/modules/cashCollections/cashCollections.service.ts:104-119 | one payment counts in full if it is the operator's, by that means, from the start of the period up to but not at its end |
| CashCollections.EndIsLatest | src/modules/cashCollections/cashCollections.service.ts:75-95 | the next period starts at the latest of the base and the period ends of the operator alone |
| CashCollections.GroupsAddUp | src/modules/cashCollections/cashCollections.service.ts:104-119 | the rows of the grouped query add up to what was taken, in whatever order they come and whichever means are absent |
| CashCollections.CashDesk.BuildPendingSummary | src/modules/cashCollections/cashCollections.service.ts:154-169 | collected plus pending is all the operator's cash since the base if and only if no cash of value was missed |
| CashCollections.CashDesk.CreateCashCollection | src/modules/cashCollections/cashCollections.service.ts:267-307 | adds the period from the previous end to now with the cash of exactly that period, and keeps the tiling |
| CashCollections.CashDesk.ResolveOperatorPeriodStart | src/modules/cashCollections/cashCollections.service.ts:75-95 | the end of the tiling, never before the base |
| CashCollections.CashDesk.QueryGroups | src/modules/cashCollections/cashCollections.service.ts:104-110 | the grouped query: each means at most once, with its total, and every means that was taken |
| CashCollections.CashDesk.SumOperatorPaymentsByMethod | src/modules/cashCollections/cashCollections.service.ts:97-121 | the loop over the grouped rows gives the exact sums by method |
| CashCollections.CashDesk.StampPayment | src/modules/parking/parking.service.ts:1097-1103 | a payment is stamped by a clock that does not go back, and may commit any time later |
| CashCollections.CashDesk.CommitPayment | src/modules/parking/parking.service.ts:1081-1121 | its commit is too late for its period exactly if a collection of its operator overtook it |

## Left out

- Terminal answers: the device is an arbitrary oracle; keep-alive and reconnection timers are not modelled, and connecting and waiting for the keep-alive are one suspension before each request. The suspension of VRP, from the read of PENDING to its saved answer, is one in `Protocol` and three in `CardRuns`.
- A restart while a run is suspended loses it; the theorems on card money exclude exactly those operations, and the rows stay for orphan marking.
- Card runs and their leases (`CardRuns`) are a model of their own beside the tables of `Protocol`. Its row is open, aborted or final; a reload drops the old terminal without cutting off a request there at once, since an answer may come at any time.
- CardRuns.ConversationsInterleave: speaks of an organisation that has an operation number left, since another run needs one.
- ParkingStore.Store.ProcessEntryWebhook: capacity, plate formats, look-alike plates and the coalescing of entry candidates are the parameters `setAside` and `policy`.
- ParkingStore.Store.CreateCandidate: the near match, the cooldown and the candidate an event is coalesced with are parameters of the event; the near matcher itself is proved in `Plates`.
- ParkingStore.Store.MarkOrphanedOperations: the two-minute limit is the parameter `aged`, the first id that is too young; ids grow with time, and rows are selected in the order of their ids. A restart during the loop ends it.
- Policy checks before entry (work hours, capacity, look-alike plates, tariffs) and the setting aside of entry events: the parameters `policy` and `setAside`.
- The choice of the plate matcher and of the coalescing target on exit: parameters of `ExitEvent`; the matcher itself is in `Plates`.
- Tariff and discount amounts in the protocol are parameters; the interval and hourly tariffs are in `Tariffs`.
- Entry-candidate rows, images, durations, receipts, Telegram, sockets, printers and log rows other than reconciliation.
- Deletion of rows, stale-session cleanup, clearing of all active sessions and test-data resets: they only weaken the invariants.
- MySQL isolation, collation and timestamp precision; transactions are atomic and unique keys hold.
- `stop()` and `start()` of the terminal manager; the two awaits of a reload are one suspension, since nothing changes between them.
- `selectMatchingCheck` and the attempt counting of plate-format checks: the lock and the claims are modelled. A restart of the process ends the model of the lock.
- `updateSessionPaymentMethod` is a step of the protocol but not of the cash model, where it would rewrite closed periods.
- Organisation-wide uncollected revenue and payments without an operator.
- Upper-casing is ASCII only, and amounts are integers in hundredths: no floating point and no time zones.
- Express routes, authentication, permissions, rate limits, subscriptions, VIP lists, blacklists and reports: no deep state.
- Plates.SimilarityTiers: holds for plates of fewer than fifty characters; at fifty and more one edit rounds up to the look-alike score.
- Plates.SimilarityPercentFacts: the score of 100 means equal canonical forms only below two hundred characters, where one edit rounds up to 100.
- WebhookEvents.AcceptedAreApart: the gap is counted to the moment of the later query, since to its stamp it is false; carries a proviso on the earlier event, because the unconditional gap is false; GapBreaksExactlyWhen gives the exact condition of a step.
- CashCollections.CashDesk.StampPayment: demands a payment time the clock has reached, since stamps come from one clock; commits may come in any order.
