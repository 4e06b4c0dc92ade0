/** What the protocol promises over every run: at most one payment, paid sessions stay closed, confirmed card
    money is accounted for, operation states only advance, and the ledger balances. */
module ProtocolTheorems {
  import opened Wrappers
  import opened Protocol
  import opened ProtocolInvariants

  // ----- what a step may change -----

  /** How far an operation still is from a final status. */
  function Rank(status: OperationStatus): nat {
    match status
    case PENDING => 3
    case APPROVED => 2
    case ABORTED => 1
    case _ => 0
  }

  /** One step of an operation: its identity stays, a new status has a lower rank, and its trail only grows. */
  predicate OperationSteps(o: Operation, o': Operation) {
    && SameIdentity(o, o')
    && (o'.status == o.status || Rank(o'.status) < Rank(o.status))
    && (o'.approved == o.approved || (o.status == PENDING && o'.status == APPROVED))
    && o.trail.finRequests <= o'.trail.finRequests <= o.trail.finRequests + 1
    && (o.trail.finTaken ==> o'.trail.finTaken) && (o.trail.finConfirmed ==> o'.trail.finConfirmed)
    && (o.trail.lost ==> o'.trail.lost)
  }

  ghost predicate OperationsStep(os: seq<Operation>, os': seq<Operation>) {
    |os| <= |os'| && forall i :: 0 <= i < |os| ==> OperationSteps(os[i], os'[i])
  }

  /** Entry touches no table but the sessions. */
  lemma EntryTables(st: State, org: Org, plate: string, now: int, at: int, source: SessionSource, setAside: bool,
                    policy: Option<Refusal>)
    ensures var st' := Committed(st, CreateEntry(st, org, plate, now, at, source, policy));
            st' == st.(sessions := st'.sessions)
    ensures var st' := EntryWebhook(st, org, plate, at, source, setAside, policy); st' == st.(sessions := st'.sessions)
  {
  }

  lemma SessionStepTables(st: State, step: SessionStep)
    ensures var st' := NextSession(st, step);
            && st'.operations == st.operations && st'.candidates == st.candidates
            && PaymentsGrow(st.payments, st'.payments)
  {
    match step
    case DoCreateEntry(org, plate, now, at, source, policy) =>
      EntryTables(st, org, plate, now, at, source, false, policy);
    case DoEntryWebhook(org, plate, at, source, setAside, policy) =>
      EntryTables(st, org, plate, at, at, source, setAside, policy);
    case _ =>
  }

  lemma CandidateStepTables(st: State, step: CandidateStep)
    ensures var st' := NextCandidate(st, step);
            st'.operations == st.operations && PaymentsGrow(st.payments, st'.payments)
  {
  }

  lemma ExitCandidateAdvances(st: State, event: ExitEvent)
    ensures CandidatesAdvance(st.candidates, CreateExitCandidate(st, event).candidates)
  {
  }

  lemma ConfirmAdvances(st: State, org: Org, id: Id, request: ConfirmRequest)
    ensures CandidatesAdvance(st.candidates, Committed(st, ConfirmCandidate(st, org, id, request)).candidates)
  {
  }

  lemma CandidateStepAdvances(st: State, step: CandidateStep)
    ensures CandidatesAdvance(st.candidates, NextCandidate(st, step).candidates)
  {
    match step
    case DoCreateExitCandidate(event) => ExitCandidateAdvances(st, event);
    case DoConfirmCandidate(org, id, request) => ConfirmAdvances(st, org, id, request);
    case _ =>
  }

  lemma CompleteTables(st: State, id: Id, at: int)
    requires At(st, id, Confirmed)
    ensures var st' := Complete(st, id, at);
            PaymentsGrow(st.payments, st'.payments) && CandidatesAdvance(st.candidates, st'.candidates)
  {
  }

  lemma RunStepTables(st: State, id: Id, vrp: VrpResult, fin: bool, at: int)
    ensures var st' := RunStep(st, id, vrp, fin, at);
            PaymentsGrow(st.payments, st'.payments) && CandidatesAdvance(st.candidates, st'.candidates)
  {
    if At(st, id, Confirmed) {
      CompleteTables(st, id, at);
    }
  }

  lemma VrpOperations(st: State, id: Id, result: VrpResult)
    requires At(st, id, AwaitVrp)
    ensures OperationsStep(st.operations, VrpAnswered(st, id, result).operations)
  {
  }

  lemma FinOperations(st: State, id: Id, attempt: nat, fin: bool)
    ensures At(st, id, ReadyForFin(attempt)) ==> OperationsStep(st.operations, FinSent(st, id, attempt, fin).operations)
    ensures At(st, id, AwaitFin(attempt)) ==>
              OperationsStep(st.operations, FinAnswered(st, id, attempt, fin).operations)
  {
  }

  lemma CompleteOperations(st: State, id: Id, at: int)
    requires At(st, id, Confirmed)
    ensures OperationsStep(st.operations, Complete(st, id, at).operations)
  {
  }

  lemma MarkOperations(st: State, id: Id)
    ensures At(st, id, StaleFound) ==> OperationsStep(st.operations, MarkStale(st, id).operations)
    ensures At(st, id, Exhausted) ==> OperationsStep(st.operations, MarkFinFailed(st, id).operations)
    ensures At(st, id, StaleLogging) || At(st, id, FailureLogging) ==>
              OperationsStep(st.operations, LogReconciliation(st, id).operations)
  {
  }

  lemma RunStepOperations(st: State, id: Id, vrp: VrpResult, fin: bool, at: int)
    ensures OperationsStep(st.operations, RunStep(st, id, vrp, fin, at).operations)
  {
    if id in st.runs && id < |st.operations| {
      match st.runs[id]
      case Queued =>
      case AwaitVrp => VrpOperations(st, id, vrp);
      case BeforeFin(_) =>
      case ReadyForFin(attempt) => FinOperations(st, id, attempt, fin);
      case AwaitFin(attempt) => FinOperations(st, id, attempt, fin);
      case Confirmed => CompleteOperations(st, id, at);
      case StaleFound => MarkOperations(st, id);
      case StaleLogging => MarkOperations(st, id);
      case Exhausted => MarkOperations(st, id);
      case FailureLogging => MarkOperations(st, id);
    }
  }

  lemma CardStepTables(st: State, step: CardStep)
    ensures var st' := NextCard(st, step);
            PaymentsGrow(st.payments, st'.payments) && CandidatesAdvance(st.candidates, st'.candidates)
  {
    if step.DoRun? {
      RunStepTables(st, step.id, step.vrp, step.fin, step.at);
    }
  }

  lemma StartOperations(st: State, org: Org, id: Id, session: Id, plate: string, amount: Money)
    ensures OperationsStep(st.operations, Committed(st, StartAutomaticCard(st, org, id, session, amount)).operations)
    ensures OperationsStep(st.operations, Committed(st, StartManualCard(st, org, plate, amount)).operations)
  {
  }

  lemma RetryOperations(st: State, id: Id)
    ensures OperationsStep(st.operations, Committed(st, RetryCard(st, id)).operations)
  {
  }

  /** Under any interleaving of runs, aborts, restarts and orphan marking, a status change lowers the rank
      of its operation. */
  lemma StatusOnlyAdvances(st: State, step: Step)
    ensures OperationsStep(st.operations, Next(st, step).operations)
  {
    match step
    case OnSession(s) => SessionStepTables(st, s);
    case OnCandidate(c) => CandidateStepTables(st, c);
    case OnCard(o) => CardStepOperations(st, o);
  }

  /** The same over any number of steps. */
  predicate OperationAdvances(o: Operation, o': Operation) {
    && SameIdentity(o, o')
    && (o'.status == o.status || Rank(o'.status) < Rank(o.status))
    && (o.status != PENDING ==> o'.approved == o.approved)
    && o.trail.finRequests <= o'.trail.finRequests
  }

  /** Over any run an operation never returns to an earlier status: it goes through at most four, a final one
      stays, and the approved amount is fixed once it is past its moment. */
  lemma {:induction false} StatusNeverGoesBack(st: State, steps: seq<Step>, id: Id)
    requires id < |st.operations|
    ensures var later := Run(st, steps);
            id < |later.operations| && OperationAdvances(st.operations[id], later.operations[id])
  {
    if steps != [] {
      var earlier := Run(st, steps[..|steps| - 1]);
      StatusNeverGoesBack(st, steps[..|steps| - 1], id);
      StatusOnlyAdvances(earlier, steps[|steps| - 1]);
      assert OperationSteps(earlier.operations[id], Run(st, steps).operations[id]);
    }
  }

  lemma CardStepOperations(st: State, step: CardStep)
    ensures OperationsStep(st.operations, NextCard(st, step).operations)
  {
    match step
    case DoStartAutomaticCard(org, id, session, amount) => StartOperations(st, org, id, session, "", amount);
    case DoStartManualCard(org, plate, amount) => StartOperations(st, org, 0, 0, plate, amount);
    case DoRetryCard(id) => RetryOperations(st, id);
    case DoRun(id, vrp, fin, at) => RunStepOperations(st, id, vrp, fin, at);
    case DoChooseAbort(_) =>
    case DoApplyAbort(id) => AbortOperations(st, id);
    case DoRestart => RestartOperations(st, 0, PENDING);
    case DoMarkOrphaned(id, selected) => RestartOperations(st, id, selected);
  }

  lemma AbortOperations(st: State, id: Id)
    ensures AbortChosen(id) in st.intents ==> OperationsStep(st.operations, ApplyAbort(st, id).operations)
  {
  }

  lemma RestartOperations(st: State, id: Id, selected: OperationStatus)
    ensures OperationsStep(st.operations, Restart(st).operations)
    ensures OperationsStep(st.operations, MarkOrphaned(st, id, selected).operations)
  {
  }

  lemma StepKeepsPayments(st: State, step: Step)
    ensures PaymentsGrow(st.payments, Next(st, step).payments)
    ensures CandidatesAdvance(st.candidates, Next(st, step).candidates)
  {
    match step
    case OnSession(s) => SessionStepTables(st, s);
    case OnCandidate(c) => CandidateStepTables(st, c); CandidateStepAdvances(st, c);
    case OnCard(o) => CardStepTables(st, o);
  }

  // ----- sessions and payments -----

  /** No car inside has a payment, nobody pays twice, and the payment is what the session records. */
  lemma OnePaymentPerSession(st: State)
    requires Reachable(st)
    ensures forall i :: 0 <= i < |st.sessions| && Inside(st.sessions[i]) ==> !Paid(st.payments, i)
    ensures forall p, q :: 0 <= p < q < |st.payments| ==> st.payments[p].session != st.payments[q].session
    ensures forall p :: 0 <= p < |st.payments| ==>
              && st.payments[p].session < |st.sessions|
              && st.payments[p].amount == Billed(st.sessions[st.payments[p].session])
  {
    ReachableKeepsInv(st);
  }

  lemma {:induction false} PaymentStays(states: seq<State>, i: nat, j: nat, session: Id, amount: Money)
    requires i <= j < |states| && PaidExactly(states[i].payments, session, amount)
    requires forall k {:trigger states[k]} :: i < k <= j ==> PaymentsGrow(states[k - 1].payments, states[k].payments)
    ensures PaidExactly(states[j].payments, session, amount)
  {
    if i < j {
      PaymentStays(states, i, j - 1, session, amount);
      PaidGrows(states[j - 1].payments, states[j].payments, session);
    }
  }

  lemma PaymentsGrowAt(states: seq<State>, steps: seq<Step>, k: nat)
    requires Trace(states, steps) && k < |steps|
    ensures PaymentsGrow(states[k].payments, states[k + 1].payments)
  {
    assert states[k + 1] == Next(states[k], steps[k]);
    StepKeepsPayments(states[k], steps[k]);
  }

  lemma PaidIsCompleted(states: seq<State>, steps: seq<Step>, j: nat, session: Id, amount: Money)
    requires Trace(states, steps) && j <= |steps| && PaidExactly(states[j].payments, session, amount)
    ensures session < |states[j].sessions| && states[j].sessions[session].status.Completed?
    ensures Billed(states[j].sessions[session]) == amount
  {
    TraceKeepsInv(states, steps, j);
  }

  /** Once paid, a session stays completed and its payment keeps its amount, whatever happens after;
      in particular free-exit recovery never reopens it. */
  lemma PaidIsForever(states: seq<State>, steps: seq<Step>, i: nat, j: nat, session: Id, amount: Money)
    requires Trace(states, steps) && i <= j <= |steps| && PaidExactly(states[i].payments, session, amount)
    ensures var later := states[j];
            && PaidExactly(later.payments, session, amount)
            && session < |later.sessions| && later.sessions[session].status.Completed?
            && Billed(later.sessions[session]) == amount
  {
    forall k {:trigger states[k]} | i < k <= j ensures PaymentsGrow(states[k - 1].payments, states[k].payments) {
      PaymentsGrowAt(states, steps, k - 1);
    }
    PaymentStays(states, i, j, session, amount);
    PaidIsCompleted(states, steps, j, session, amount);
  }

  /** Each plate has at most one active session in an organisation, and the branch of the entry webhook
      for a plate still active after the stale close is dead. */
  lemma OneActiveSessionPerPlate(st: State, org: Org, plate: string, at: int)
    requires Reachable(st)
    ensures forall i, j :: 0 <= i < j < |st.sessions| && IsActiveWith(st.sessions[i], org, plate) ==>
              !IsActiveWith(st.sessions[j], org, plate)
    ensures forall i :: 0 <= i < |st.sessions| ==> KeyMatchesStatus(st.sessions[i])
    ensures LatestActive(CloseStaleOnReentry(st, org, plate, at).sessions, org, plate).None?
  {
    ReachableKeepsInv(st);
    CloseStaleKeepsInv(st, org, plate, at);
  }

  // ----- card operations -----

  /** FIN is requested at most three times for an operation, in any run, restarts included. */
  lemma AtMostThreeFins(st: State, id: Id)
    requires Reachable(st) && id < |st.operations|
    ensures st.operations[id].trail.finRequests <= FIN_ATTEMPTS
  {
    ReachableKeepsInv(st);
    assert PhaseOk(st.operations[id], PhaseOf(st.runs, id));
  }

  /** A session has at most one confirmed operation, and its approved amount is the session's payment. */
  lemma OneConfirmedOperation(st: State, i: Id, j: Id)
    requires Reachable(st) && i < |st.operations| && j < |st.operations|
    requires st.operations[i].status == FIN_CONFIRMED
    ensures var o := st.operations[i];
            && (st.operations[j].status == FIN_CONFIRMED && st.operations[j].session == o.session ==> i == j)
            && o.approved.Some? && o.approved.value > 0
            && o.session < |st.sessions| && st.sessions[o.session].status.Completed?
            && (forall p :: 0 <= p < |st.payments| && st.payments[p].session == o.session ==>
                  st.payments[p].amount == o.approved.value)
            && Paid(st.payments, o.session)
  {
    ReachableKeepsInv(st);
    assert PhaseOk(st.operations[i], PhaseOf(st.runs, i));
    assert ConfirmationOk(st.operations[i], st.candidates, st.payments);
  }

  /** Settled: paid and accepted, or set aside with a call for manual reconciliation. */
  ghost predicate Settled(st: State, o: Operation) {
    || (&& o.status == FIN_CONFIRMED && o.session < |st.sessions| && st.sessions[o.session].status.Completed?
        && PaidExactly(st.payments, o.session, ApprovedAmount(o))
        && (o.candidate.Some? ==>
              o.candidate.value < |st.candidates| && st.candidates[o.candidate.value].status.Accepted?))
    || (o.status == STALE_IGNORED && o.trail.reconciliationLogged)
  }

  /** Settled, or reported as a FIN that never came through. */
  ghost predicate Accounted(st: State, o: Operation) {
    Settled(st, o) || (o.status == FIN_FAILED && o.trail.reconciliationLogged)
  }

  /** An operation that got as far as FIN, and whose run is over and was not killed by a restart, is accounted for
      exactly when it was not aborted. So money the terminal took is lost without a word exactly by an abort;
      of candidate operations that hits only those whose confirmation never arrived. */
  lemma FinIsAccountedUnlessAborted(st: State, id: Id)
    requires Reachable(st) && id < |st.operations| && id !in st.runs
    requires st.operations[id].trail.finRequests > 0 && !st.operations[id].trail.lost
    ensures var o := st.operations[id];
            && (Accounted(st, o) <==> o.status != ABORTED)
            && (o.candidate.Some? && o.trail.finConfirmed ==> o.status != ABORTED && Settled(st, o))
            && (o.status == FIN_FAILED ==> !o.trail.finConfirmed)
  {
    ReachableKeepsInv(st);
    FinOutcomeInInv(st, id);
  }

  lemma FinOutcomeInInv(st: State, id: Id)
    requires Inv(st) && id < |st.operations| && id !in st.runs
    requires st.operations[id].trail.finRequests > 0 && !st.operations[id].trail.lost
    ensures var o := st.operations[id];
            && (Accounted(st, o) <==> o.status != ABORTED)
            && (o.candidate.Some? && o.trail.finConfirmed ==> o.status != ABORTED && Settled(st, o))
            && (o.status == FIN_FAILED ==> !o.trail.finConfirmed)
  {
    assert PhaseOk(st.operations[id], PhaseOf(st.runs, id));
    if st.operations[id].status == FIN_CONFIRMED {
      assert ConfirmationOk(st.operations[id], st.candidates, st.payments);
    }
  }

  /** A received confirmation for a candidate is never silently lost: once the run is over,
      and unless a restart killed it, the operation is settled. */
  lemma ConfirmedMoneyIsSettled(st: State, id: Id)
    requires Reachable(st) && id < |st.operations| && id !in st.runs
    requires st.operations[id].candidate.Some?
    requires st.operations[id].trail.finConfirmed && !st.operations[id].trail.lost
    ensures Settled(st, st.operations[id])
  {
    ReachableKeepsInv(st);
    assert PhaseOk(st.operations[id], PhaseOf(st.runs, id));
    FinOutcomeInInv(st, id);
  }

  lemma SessionStepSameProcess(st: State, step: SessionStep)
    ensures NextSession(st, step).preRestart == st.preRestart && NextSession(st, step).runs == st.runs
  {
    match step
    case DoCreateEntry(org, plate, now, at, source, policy) =>
      EntryTables(st, org, plate, now, at, source, false, policy);
    case DoEntryWebhook(org, plate, at, source, setAside, policy) =>
      EntryTables(st, org, plate, at, at, source, setAside, policy);
    case _ =>
  }

  lemma CandidateStepSameProcess(st: State, step: CandidateStep)
    ensures NextCandidate(st, step).preRestart == st.preRestart && NextCandidate(st, step).runs == st.runs
  {
  }

  lemma OnlyRestartLoses(st: State, step: Step)
    requires step != OnCard(DoRestart)
    ensures Next(st, step).preRestart == st.preRestart
  {
    match step
    case OnSession(s) => SessionStepSameProcess(st, s);
    case OnCandidate(c) => CandidateStepSameProcess(st, c);
    case OnCard(_) =>
  }

  lemma {:induction false} NothingLostWithoutRestart(start: State, steps: seq<Step>)
    requires Init(start) && OnCard(DoRestart) !in steps
    ensures var st := Run(start, steps);
            st.preRestart == 0 && forall id :: 0 <= id < |st.operations| ==> !st.operations[id].trail.lost
  {
    InitEstablishesInv(start);
    RunKeepsInv(start, steps);
    if steps != [] {
      NothingLostWithoutRestart(start, steps[..|steps| - 1]);
      OnlyRestartLoses(Run(start, steps[..|steps| - 1]), steps[|steps| - 1]);
    }
  }

  /** What that rests on: an aborted operation has a resolved candidate or a session somebody already paid for. */
  lemma AbortedIsJustified(st: State, id: Id)
    requires Reachable(st) && id < |st.operations| && st.operations[id].status == ABORTED
    ensures var o := st.operations[id];
            (o.candidate.Some? && Resolved(st.candidates, o.candidate.value)) || Paid(st.payments, o.session)
  {
    ReachableKeepsInv(st);
    assert AbortJustified(st.operations[id], st.candidates, st.payments);
  }

  /** How many more resumptions a run can take. */
  function PhaseRank(phase: Phase): nat {
    match phase
    case Queued => 13
    case AwaitVrp => 12
    case BeforeFin(k) => if 1 <= k <= FIN_ATTEMPTS then 14 - 3 * k else 5
    case ReadyForFin(k) => if 1 <= k <= FIN_ATTEMPTS then 13 - 3 * k else 4
    case AwaitFin(k) => if 1 <= k <= FIN_ATTEMPTS then 12 - 3 * k else 3
    case Confirmed => 2
    case StaleFound => 1
    case StaleLogging => 0
    case Exhausted => 1
    case FailureLogging => 0
  }

  lemma CompleteRuns(st: State, id: Id, at: int)
    requires At(st, id, Confirmed)
    ensures var st' := Complete(st, id, at);
            && (st'.runs == st.runs - {id} || st'.runs == st.runs[id := StaleFound])
            && |st'.operations| == |st.operations|
  {
  }

  lemma PhaseAdvances(st: State, id: Id, vrp: VrpResult, fin: bool, at: int)
    requires id in st.runs && id < |st.operations| && PhaseOk(st.operations[id], Some(st.runs[id]))
    ensures var st' := RunStep(st, id, vrp, fin, at);
            id !in st'.runs || PhaseRank(st'.runs[id]) < PhaseRank(st.runs[id])
  {
    if At(st, id, Confirmed) {
      CompleteRuns(st, id, at);
    }
  }

  /** Each resumption of a run ends it or brings it closer to its end. */
  lemma RunsComeToAnEnd(st: State, id: Id, vrp: VrpResult, fin: bool, at: int)
    requires Reachable(st) && id in st.runs
    ensures var st' := RunStep(st, id, vrp, fin, at);
            id !in st'.runs || PhaseRank(st'.runs[id]) < PhaseRank(st.runs[id])
  {
    ReachableKeepsInv(st);
    assert PhaseOk(st.operations[id], PhaseOf(st.runs, id));
    PhaseAdvances(st, id, vrp, fin, at);
  }

  // ----- what others do to a suspended run -----

  /** A step of the run itself. */
  predicate Resuming(step: Step, id: Id) {
    step.OnCard? && step.o.DoRun? && step.o.id == id
  }

  /** A step that neither resumes the run of an operation nor kills the process. */
  predicate Leaves(step: Step, id: Id) {
    step != OnCard(DoRestart) && !Resuming(step, id)
  }

  /** All that others can do to the row: an abort may catch it while it is open. */
  predicate RowKept(o: Operation, o': Operation) {
    o' == o || (AbortOpen(o) && o' == o.(status := ABORTED))
  }

  /** The same operation, at most with a new status and a log row. */
  predicate SameRun(o: Operation, o': Operation) {
    && SameIdentity(o, o') && o'.approved == o.approved
    && o'.trail.(reconciliationLogged := o.trail.reconciliationLogged) == o.trail
  }

  lemma CompletionWritesOwnRow(st: State, other: Id, id: Id, at: int)
    requires NumbersOk(st.operations) && At(st, other, Confirmed) && other != id && id < |st.operations|
    ensures Complete(st, other, at).operations[id] == st.operations[id]
  {
    NumberFindsRow(st.operations, other);
  }

  lemma OtherRowsStay(st: State, other: Id, id: Id, vrp: VrpResult, fin: bool, at: int)
    requires NumbersOk(st.operations) && other != id && id < |st.operations|
    ensures id < |RunStep(st, other, vrp, fin, at).operations|
    ensures RunStep(st, other, vrp, fin, at).operations[id] == st.operations[id]
  {
    if At(st, other, Confirmed) {
      CompletionWritesOwnRow(st, other, id, at);
    }
  }

  /** The run of an operation is where it was, and its row was kept. */
  predicate RunKept(st: State, st': State, id: Id) {
    && id in st.runs && id in st'.runs && st'.runs[id] == st.runs[id]
    && id < |st.operations| && id < |st'.operations| && RowKept(st.operations[id], st'.operations[id])
  }

  lemma StartsLeaveRows(st: State, step: CardStep, id: Id)
    requires (step.DoStartAutomaticCard? || step.DoStartManualCard? || step.DoRetryCard?) && id < |st.operations|
    ensures id < |NextCard(st, step).operations| && NextCard(st, step).operations[id] == st.operations[id]
  {
  }

  lemma StartsLeaveRun(st: State, step: CardStep, id: Id)
    requires Inv(st) && id in st.runs && (step.DoStartAutomaticCard? || step.DoStartManualCard? || step.DoRetryCard?)
    ensures RunKept(st, NextCard(st, step), id)
  {
  }

  lemma OtherCardsLeaveRun(st: State, step: CardStep, id: Id)
    requires Inv(st) && id in st.runs && Leaves(OnCard(step), id)
    ensures RunKept(st, NextCard(st, step), id)
  {
    match step
    case DoRun(other, vrp, fin, at) =>
      OtherRunsStay(st, other, id, vrp, fin, at);
      OtherRowsStay(st, other, id, vrp, fin, at);
    case DoChooseAbort(_) =>
    case DoApplyAbort(_) =>
    case DoMarkOrphaned(_, _) =>
    case _ => StartsLeaveRun(st, step, id);
  }

  lemma OthersLeaveRun(st: State, step: Step, id: Id)
    requires Inv(st) && id in st.runs && Leaves(step, id)
    ensures RunKept(st, Next(st, step), id)
  {
    match step
    case OnSession(s) => SessionStepSameProcess(st, s); SessionStepTables(st, s);
    case OnCandidate(c) => CandidateStepSameProcess(st, c); CandidateStepTables(st, c);
    case OnCard(o) => OtherCardsLeaveRun(st, o, id);
  }

  /** While a run is suspended, any number of steps of others leave it where it is; at most they abort its row. */
  lemma {:induction false} SuspendedRunWaits(st: State, steps: seq<Step>, id: Id)
    requires Reachable(st) && id in st.runs && forall k :: 0 <= k < |steps| ==> Leaves(steps[k], id)
    ensures var st' := Run(st, steps);
            RunKept(st, st', id)
  {
    ReachableKeepsInv(st);
    if steps != [] {
      var earlier := steps[..|steps| - 1];
      SuspendedRunWaits(st, earlier, id);
      RunsStayReachable(st, earlier);
      ReachableKeepsInv(Run(st, earlier));
      OthersLeaveRun(Run(st, earlier), steps[|steps| - 1], id);
    }
  }

  // ----- what others do to the rows of an earlier process -----

  /** A step of others while the startup loop runs: it neither kills the process nor marks orphans. */
  predicate DuringStartup(step: Step) {
    step != OnCard(DoRestart) && !(step.OnCard? && step.o.DoMarkOrphaned?)
  }

  lemma OldRowCardStep(st: State, step: CardStep, id: Id)
    requires NumbersOk(st.operations) && id < |st.operations| && id !in st.runs && DuringStartup(OnCard(step))
    ensures id < |NextCard(st, step).operations| && RowKept(st.operations[id], NextCard(st, step).operations[id])
    ensures NextCard(st, step).preRestart == st.preRestart
  {
    match step
    case DoRun(other, vrp, fin, at) => if other != id { OtherRowsStay(st, other, id, vrp, fin, at); }
    case DoChooseAbort(_) =>
    case DoApplyAbort(_) =>
    case DoMarkOrphaned(_, _) =>
    case _ => StartsLeaveRows(st, step, id);
  }

  lemma OldRowStep(st: State, step: Step, id: Id)
    requires Inv(st) && id < st.preRestart && DuringStartup(step)
    ensures id < |st.operations| && id < |Next(st, step).operations|
    ensures RowKept(st.operations[id], Next(st, step).operations[id]) && Next(st, step).preRestart == st.preRestart
  {
    match step
    case OnSession(s) => SessionStepSameProcess(st, s); SessionStepTables(st, s);
    case OnCandidate(c) => CandidateStepSameProcess(st, c); CandidateStepTables(st, c);
    case OnCard(o) => OldRowCardStep(st, o, id);
  }

  /** A row of an earlier process has no run left: all that others can do to it is abort it. */
  lemma {:induction false} OldRowsWait(st: State, steps: seq<Step>, id: Id)
    requires Reachable(st) && id < st.preRestart && forall k :: 0 <= k < |steps| ==> DuringStartup(steps[k])
    ensures var st' := Run(st, steps);
            && id < |st.operations| && id < |st'.operations| && RowKept(st.operations[id], st'.operations[id])
            && st'.preRestart == st.preRestart
  {
    ReachableKeepsInv(st);
    if steps != [] {
      var earlier := steps[..|steps| - 1];
      OldRowsWait(st, earlier, id);
      RunsStayReachable(st, earlier);
      ReachableKeepsInv(Run(st, earlier));
      OldRowStep(Run(st, earlier), steps[|steps| - 1], id);
    }
  }

  lemma OldRowsExist(st: State)
    requires Reachable(st)
    ensures st.preRestart <= |st.operations|
  {
    ReachableKeepsInv(st);
  }

  lemma OldRowsWaitTogether(st: State, steps: seq<Step>)
    requires Reachable(st) && forall k :: 0 <= k < |steps| ==> DuringStartup(steps[k])
    ensures var st' := Run(st, steps);
            && st'.preRestart == st.preRestart <= |st.operations| && st.preRestart <= |st'.operations|
            && forall id :: 0 <= id < st.preRestart ==> RowKept(st.operations[id], st'.operations[id])
  {
    RunsStayReachable(st, steps);
    OldRowsExist(st);
    OldRowsExist(Run(st, steps));
    NoRestartKeepsProcess(st, steps);
    forall id | 0 <= id < st.preRestart ensures RowKept(st.operations[id], Run(st, steps).operations[id]) {
      OldRowsWait(st, steps, id);
    }
  }

  lemma {:induction false} NoRestartKeepsProcess(st: State, steps: seq<Step>)
    requires forall k :: 0 <= k < |steps| ==> DuringStartup(steps[k])
    ensures Run(st, steps).preRestart == st.preRestart
  {
    if steps != [] {
      NoRestartKeepsProcess(st, steps[..|steps| - 1]);
      OnlyRestartLoses(Run(st, steps[..|steps| - 1]), steps[|steps| - 1]);
    }
  }

  /** A row of the startup loop: marked and logged, or kept from being marked by an abort that came before its turn. */
  predicate AfterTurn(o: Operation, o': Operation, done: bool, logged: bool) {
    if logged then AbortOpen(o) && o' == o.(status := ORPHANED)
    else RowKept(o, o') && (done && AbortOpen(o) ==> o'.status == ABORTED)
  }

  /** The first n rows when the startup loop has gone through `done`. */
  ghost predicate TurnsTaken(os: seq<Operation>, os': seq<Operation>, n: nat, done: seq<Id>, logged: seq<Id>) {
    && n <= |os| && n <= |os'|
    && forall id: Id :: id < n ==> AfterTurn(os[id], os'[id], id in done, id in logged)
  }

  lemma TurnsStayTaken(os: seq<Operation>, os': seq<Operation>, later: seq<Operation>, n: nat, done: seq<Id>,
                       logged: seq<Id>)
    requires TurnsTaken(os, os', n, done, logged) && n <= |later|
    requires forall id :: 0 <= id < n ==> RowKept(os'[id], later[id])
    ensures TurnsTaken(os, later, n, done, logged)
  {
    forall id: Id | id < n ensures AfterTurn(os[id], later[id], id in done, id in logged) {
      assert AfterTurn(os[id], os'[id], id in done, id in logged) && RowKept(os'[id], later[id]);
    }
  }

  lemma OneMoreTurn(os: seq<Operation>, os': seq<Operation>, n: nat, done: seq<Id>, logged: seq<Id>, id: Id)
    requires TurnsTaken(os, os', n, done, logged) && id < n && id !in done && id !in logged && AbortOpen(os[id])
    ensures os'[id].status == os[id].status ==>
              TurnsTaken(os, os'[id := os'[id].(status := ORPHANED)], n, done + [id], logged + [id])
    ensures os'[id].status != os[id].status ==> TurnsTaken(os, os', n, done + [id], logged)
  {
    assert AfterTurn(os[id], os'[id], false, false);
    forall other: Id | other < n && other != id
      ensures other in done + [id] <==> other in done
      ensures other in logged + [id] <==> other in logged
      ensures AfterTurn(os[other], os'[other], other in done, other in logged)
    {
    }
  }

  // ----- when FIN leaves -----

  /** The run reads its row, and the row reads APPROVED. */
  predicate ReadsApproved(st: State, step: Step, id: Id, attempt: nat) {
    At(st, id, BeforeFin(attempt)) && Resuming(step, id) && st.operations[id].status == APPROVED
  }

  /** A chosen abort of the operation gets to its guarded update. */
  predicate Aborts(st: State, step: Step, id: Id) {
    step == OnCard(DoApplyAbort(id)) && AbortChosen(id) in st.intents
  }

  lemma OnlyAbortsChangeCardRow(st: State, step: CardStep, id: Id)
    requires Inv(st) && id in st.runs && Leaves(OnCard(step), id) && !Aborts(st, OnCard(step), id)
    ensures id < |NextCard(st, step).operations| && NextCard(st, step).operations[id] == st.operations[id]
  {
    match step
    case DoRun(other, vrp, fin, at) => OtherRowsStay(st, other, id, vrp, fin, at);
    case DoChooseAbort(_) =>
    case DoApplyAbort(_) =>
    case DoMarkOrphaned(_, _) =>
    case _ => StartsLeaveRows(st, step, id);
  }

  lemma OnlyAbortsChangeRow(st: State, step: Step, id: Id)
    requires Inv(st) && id in st.runs && Leaves(step, id)
    ensures RunKept(st, Next(st, step), id)
    ensures !Aborts(st, step, id) ==> Next(st, step).operations[id] == st.operations[id]
  {
    OthersLeaveRun(st, step, id);
    match step
    case OnSession(s) => SessionStepTables(st, s);
    case OnCandidate(c) => CandidateStepTables(st, c);
    case OnCard(o) => if !Aborts(st, step, id) { OnlyAbortsChangeCardRow(st, o, id); }
  }

  lemma NewRunsAreQueued(st: State, step: CardStep, id: Id)
    requires id !in st.runs && id in NextCard(st, step).runs
    ensures NextCard(st, step).runs[id] == Queued
  {
    if step.DoRun? {
      OtherRunsStay(st, step.id, id, step.vrp, step.fin, step.at);
    }
  }

  lemma OwnReadyComesFromRead(st: State, id: Id, vrp: VrpResult, fin: bool, at: int, attempt: nat)
    requires id in st.runs && id < |st.operations|
    requires At(RunStep(st, id, vrp, fin, at), id, ReadyForFin(attempt))
    ensures At(st, id, BeforeFin(attempt)) && st.operations[id].status == APPROVED
  {
    if At(st, id, Confirmed) {
      CompleteRuns(st, id, at);
    }
  }

  lemma ReadyComesFromRead(st: State, step: Step, id: Id, attempt: nat)
    requires id in st.runs ==> id < |st.operations|
    requires At(Next(st, step), id, ReadyForFin(attempt))
    ensures ReadsApproved(st, step, id, attempt) || (id in st.runs && Leaves(step, id))
  {
    match step
    case OnSession(s) => SessionStepSameProcess(st, s);
    case OnCandidate(c) => CandidateStepSameProcess(st, c);
    case OnCard(o) =>
      if id !in st.runs {
        NewRunsAreQueued(st, o, id);
      } else if Resuming(step, id) {
        OwnReadyComesFromRead(st, id, o.vrp, o.fin, o.at, attempt);
      }
  }

  /** An abort caught the operation between two moments. */
  ghost predicate AbortFell(states: seq<State>, steps: seq<Step>, i: nat, k: nat, id: Id)
    requires |states| == |steps| + 1 && k <= |steps|
  {
    exists j {:trigger steps[j]} :: i < j < k && Aborts(states[j], steps[j], id)
  }

  /** The step before a ready run: its read, or a step of others, of which only an abort changes the row. */
  predicate BeforeReady(st: State, step: Step, st': State, id: Id, attempt: nat)
    requires id < |st'.operations|
  {
    || (ReadsApproved(st, step, id, attempt) && st'.operations[id].status == APPROVED)
    || (&& At(st, id, ReadyForFin(attempt)) && Leaves(step, id)
        && st'.operations[id].status == if Aborts(st, step, id) then ABORTED else st.operations[id].status)
  }

  lemma ReadyStep(st: State, step: Step, st': State, id: Id, attempt: nat)
    requires Reachable(st) && st' == Next(st, step) && At(st', id, ReadyForFin(attempt))
    ensures BeforeReady(st, step, st', id, attempt)
  {
    ReachableKeepsInv(st);
    ReadyComesFromRead(st, step, id, attempt);
    if !ReadsApproved(st, step, id, attempt) {
      OnlyAbortsChangeRow(st, step, id);
      assert PhaseOk(st.operations[id], PhaseOf(st.runs, id));
    }
  }

  lemma AbortFellBefore(states: seq<State>, steps: seq<Step>, i: nat, k: nat, id: Id)
    requires |states| == |steps| + 1 && i < k < |steps|
    ensures AbortFell(states, steps, i, k + 1, id) <==>
              AbortFell(states, steps, i, k, id) || Aborts(states[k], steps[k], id)
    ensures !AbortFell(states, steps, k, k + 1, id)
  {
    assert steps[k] == steps[k];
  }

  /** The read that made a run ready, and what became of its row since. */
  lemma {:induction false} ReadyRun(states: seq<State>, steps: seq<Step>, k: nat, id: Id, attempt: nat) returns (i: nat)
    requires |states| == |steps| + 1 && k <= |steps| && At(states[k], id, ReadyForFin(attempt))
    requires !At(states[0], id, ReadyForFin(attempt))
    requires forall j {:trigger steps[j]} :: 0 <= j < k && At(states[j + 1], id, ReadyForFin(attempt)) ==>
               BeforeReady(states[j], steps[j], states[j + 1], id, attempt)
    ensures i < k && ReadsApproved(states[i], steps[i], id, attempt)
    ensures forall j {:trigger steps[j]} :: i < j < k ==> Leaves(steps[j], id)
    ensures states[k].operations[id].status == if AbortFell(states, steps, i, k, id) then ABORTED else APPROVED
  {
    if ReadsApproved(states[k - 1], steps[k - 1], id, attempt) {
      i := k - 1;
    } else {
      i := ReadyRun(states, steps, k - 1, id, attempt);
      AbortFellBefore(states, steps, i, k - 1, id);
    }
  }

  // The count of FIN requests goes up only when a ready run sends.

  lemma OtherStepsSendNothing(st: State, step: CardStep, id: Id)
    requires !step.DoRun? && id < |st.operations|
    ensures id < |NextCard(st, step).operations|
    ensures NextCard(st, step).operations[id].trail.finRequests == st.operations[id].trail.finRequests
  {
    match step
    case DoChooseAbort(_) =>
    case DoApplyAbort(_) =>
    case DoRestart =>
    case DoMarkOrphaned(_, _) =>
    case _ => StartsLeaveRows(st, step, id);
  }

  lemma CompletionSendsNothing(st: State, id: Id, at: int)
    requires NumbersOk(st.operations) && At(st, id, Confirmed)
    ensures |Complete(st, id, at).operations| == |st.operations|
    ensures Complete(st, id, at).operations[id].trail.finRequests == st.operations[id].trail.finRequests
  {
    NumberFindsRow(st.operations, id);
  }

  lemma OwnStepSends(st: State, id: Id, vrp: VrpResult, fin: bool, at: int)
    requires NumbersOk(st.operations) && id < |st.operations|
    requires !(id in st.runs && st.runs[id].ReadyForFin?)
    ensures id < |RunStep(st, id, vrp, fin, at).operations|
    ensures RunStep(st, id, vrp, fin, at).operations[id].trail.finRequests == st.operations[id].trail.finRequests
  {
    if At(st, id, Confirmed) {
      CompletionSendsNothing(st, id, at);
    }
  }

  predicate Sends(st: State, step: Step, id: Id) {
    id in st.runs && st.runs[id].ReadyForFin? && Resuming(step, id)
  }

  lemma OnlyReadyRunsSend(st: State, step: Step, id: Id)
    requires NumbersOk(st.operations) && id < |st.operations| && !Sends(st, step, id)
    ensures id < |Next(st, step).operations|
    ensures Next(st, step).operations[id].trail.finRequests == st.operations[id].trail.finRequests
  {
    match step
    case OnSession(s) => SessionStepTables(st, s);
    case OnCandidate(c) => CandidateStepTables(st, c);
    case OnCard(o) =>
      if !o.DoRun? {
        OtherStepsSendNothing(st, o, id);
      } else if o.id == id {
        OwnStepSends(st, id, o.vrp, o.fin, o.at);
      } else {
        OtherRowsStay(st, o.id, id, o.vrp, o.fin, o.at);
      }
  }

  lemma SendingIsReady(st: State, step: Step, st': State, id: Id)
    requires Reachable(st) && st' == Next(st, step) && id < |st.operations| && id < |st'.operations|
    requires st'.operations[id].trail.finRequests > st.operations[id].trail.finRequests
    ensures Sends(st, step, id) && st'.operations[id].status == st.operations[id].status
  {
    ReachableKeepsInv(st);
    if !Sends(st, step, id) {
      OnlyReadyRunsSend(st, step, id);
    }
  }

  lemma ReadyBefore(states: seq<State>, steps: seq<Step>, j: nat, id: Id, attempt: nat)
    requires Trace(states, steps) && j < |steps| && At(states[j + 1], id, ReadyForFin(attempt))
    ensures BeforeReady(states[j], steps[j], states[j + 1], id, attempt)
  {
    TraceReaches(states, steps, j);
    ReadyStep(states[j], steps[j], states[j + 1], id, attempt);
  }

  /** Whenever FIN is requested, the row had read APPROVED earlier in the same turn of the loop; when the request leaves
      it is ABORTED if an abort fell between the read and the request, and APPROVED if none did. */
  lemma FinFollowsItsRead(states: seq<State>, steps: seq<Step>, k: nat, id: Id) returns (i: nat, attempt: nat)
    requires Trace(states, steps) && k < |steps|
    requires id < |states[k].operations| && id < |states[k + 1].operations|
    requires states[k + 1].operations[id].trail.finRequests > states[k].operations[id].trail.finRequests
    ensures Resuming(steps[k], id) && At(states[k], id, ReadyForFin(attempt))
    ensures i < k && ReadsApproved(states[i], steps[i], id, attempt)
    ensures forall j {:trigger steps[j]} :: i < j < k ==> Leaves(steps[j], id)
    ensures states[k].operations[id].status == if AbortFell(states, steps, i, k, id) then ABORTED else APPROVED
    ensures states[k + 1].operations[id].status == states[k].operations[id].status
  {
    TraceReaches(states, steps, k);
    SendingIsReady(states[k], steps[k], states[k + 1], id);
    attempt := states[k].runs[id].attempt;
    forall j {:trigger steps[j]} | 0 <= j < k && At(states[j + 1], id, ReadyForFin(attempt))
      ensures BeforeReady(states[j], steps[j], states[j + 1], id, attempt)
    {
      ReadyBefore(states, steps, j, id, attempt);
    }
    i := ReadyRun(states, steps, k, id, attempt);
  }

  lemma FinalRowSendsNothing(st: State, step: Step, id: Id)
    requires Reachable(st) && id < |st.operations| && Rank(st.operations[id].status) == 0
    ensures id < |Next(st, step).operations| && Next(st, step).operations[id].status == st.operations[id].status
    ensures Next(st, step).operations[id].trail.finRequests == st.operations[id].trail.finRequests
  {
    ReachableKeepsInv(st);
    StatusOnlyAdvances(st, step);
    assert OperationSteps(st.operations[id], Next(st, step).operations[id]);
    assert PhaseOk(st.operations[id], PhaseOf(st.runs, id));
    OnlyReadyRunsSend(st, step, id);
  }

  /** Once the status of an operation is final, no FIN is requested for it any more. */
  lemma {:induction false} FinalMeansNoMoreFins(st: State, steps: seq<Step>, id: Id)
    requires Reachable(st) && id < |st.operations| && Rank(st.operations[id].status) == 0
    ensures var later := Run(st, steps);
            && id < |later.operations| && later.operations[id].status == st.operations[id].status
            && later.operations[id].trail.finRequests == st.operations[id].trail.finRequests
  {
    if steps != [] {
      var earlier := steps[..|steps| - 1];
      FinalMeansNoMoreFins(st, earlier, id);
      RunsStayReachable(st, earlier);
      FinalRowSendsNothing(Run(st, earlier), steps[|steps| - 1], id);
    }
  }

  // ----- card payments come to an end -----

  /** How often the run of an operation is still going to be resumed, at most. */
  function Budget(st: State, id: Id): nat {
    if id >= |st.operations| then 14 else if id in st.runs then PhaseRank(st.runs[id]) + 1 else 0
  }

  predicate Resumes(st: State, step: Step, id: Id) {
    id in st.runs && Resuming(step, id)
  }

  lemma OtherRunsStay(st: State, other: Id, id: Id, vrp: VrpResult, fin: bool, at: int)
    requires other != id || id !in st.runs
    ensures var st' := RunStep(st, other, vrp, fin, at);
            && (id in st'.runs <==> id in st.runs) && (id in st.runs ==> st'.runs[id] == st.runs[id])
            && |st'.operations| == |st.operations|
  {
    if At(st, other, Confirmed) {
      CompleteRuns(st, other, at);
    }
  }

  lemma EndedStaysEnded(st: State, step: CardStep, id: Id)
    requires id < |st.operations| && id !in st.runs
    ensures id !in NextCard(st, step).runs
  {
    if step.DoRun? {
      OtherRunsStay(st, step.id, id, step.vrp, step.fin, step.at);
    }
  }

  lemma BudgetFollows(st: State, st': State, id: Id)
    requires |st.operations| <= |st'.operations|
    requires id in st'.runs && id < |st.operations| ==> RunKept(st, st', id)
    ensures Budget(st', id) <= Budget(st, id)
  {
  }

  lemma CardStepBudget(st: State, step: CardStep, id: Id)
    requires Inv(st) && !Resumes(st, OnCard(step), id)
    ensures Budget(NextCard(st, step), id) <= Budget(st, id)
  {
    CardStepOperations(st, step);
    var st' := NextCard(st, step);
    if id < |st.operations| {
      if id !in st.runs {
        EndedStaysEnded(st, step, id);
      } else if step.DoRestart? {
        assert st'.runs == map[];
      } else {
        OtherCardsLeaveRun(st, step, id);
      }
    }
    BudgetFollows(st, st', id);
  }

  lemma BudgetShrinks(st: State, step: Step, id: Id)
    requires Inv(st)
    ensures Budget(Next(st, step), id) + (if Resumes(st, step, id) then 1 else 0) <= Budget(st, id)
  {
    StatusOnlyAdvances(st, step);
    match step
    case OnSession(s) => SessionStepSameProcess(st, s); SessionStepTables(st, s);
    case OnCandidate(c) => CandidateStepSameProcess(st, c); CandidateStepTables(st, c);
    case OnCard(o) =>
      if Resumes(st, step, id) {
        assert PhaseOk(st.operations[id], PhaseOf(st.runs, id));
        PhaseAdvances(st, id, o.vrp, o.fin, o.at);
        RunStepOperations(st, id, o.vrp, o.fin, o.at);
      } else {
        CardStepBudget(st, o, id);
      }
  }

  /** How often the run of an operation was resumed in the first k steps. */
  function Resumptions(states: seq<State>, steps: seq<Step>, id: Id, k: nat): nat
    requires |states| == |steps| + 1 && k <= |steps|
  {
    if k == 0 then 0
    else Resumptions(states, steps, id, k - 1) + if Resumes(states[k - 1], steps[k - 1], id) then 1 else 0
  }

  /** Whatever the terminal answers and whatever else happens, a card payment is over after at most fourteen
      resumptions of its run. */
  lemma {:induction false} CardPaymentsFinish(states: seq<State>, steps: seq<Step>, id: Id, k: nat)
    requires Trace(states, steps) && k <= |steps|
    ensures Resumptions(states, steps, id, k) + Budget(states[k], id) <= 14
  {
    if k > 0 {
      CardPaymentsFinish(states, steps, id, k - 1);
      TraceKeepsInv(states, steps, k - 1);
      BudgetShrinks(states[k - 1], steps[k - 1], id);
    }
  }

  // ----- the manual path -----

  /** Without a candidate the promise has a hole: the completion settles or logs the payment exactly when
      the row still reads APPROVED. An aborted row is left as it is, although the terminal took the money
      and the session has another payment. */
  lemma ManualCompletionOutcome(st: State, id: Id, at: int)
    requires Reachable(st) && At(st, id, Confirmed) && st.operations[id].candidate.None?
    ensures var st' := CompleteManual(st, id, at);
            && id !in st'.runs && id < |st'.operations|
            && (Settled(st', st'.operations[id]) <==> st.operations[id].status == APPROVED)
            && (st.operations[id].status != APPROVED ==>
                  && st'.operations == st.operations && st'.operations[id].status == ABORTED
                  && Paid(st'.payments, st'.operations[id].session))
  {
    ReachableKeepsInv(st);
    var o, st' := st.operations[id], CompleteManual(st, id, at);
    assert PhaseOk(o, PhaseOf(st.runs, id));
    CompleteManualKeepsInv(st, id, at);
    if o.status == ABORTED {
      assert AbortJustified(o, st.candidates, st.payments);
    }
    if st'.operations[id].status == FIN_CONFIRMED {
      assert ConfirmationOk(st'.operations[id], st'.candidates, st'.payments);
    }
  }

  const Empty := State([], [], [], [], map[], multiset{}, 0)

  /** A car of organisation 1 is inside. */
  const OneInside := Empty.(sessions := [NewSession(1, "01A777AA", 0, Regular)])

  lemma ReachInside()
    ensures Reachable(OneInside)
  {
    InitIsReachable(Empty);
    NextIsReachable(Empty, OnSession(DoInsertActive(1, "01A777AA", 0, Regular)), OneInside);
  }

  /** The run of operation 0 is resumed. */
  function Resume(fin: bool): Step {
    OnCard(DoRun(0, VrpApproved(100), fin, 9))
  }

  /** The one operation of a scenario; taken: the terminal has the money. */
  function Charge(candidate: Option<Id>, approved: Option<Money>, status: OperationStatus, trail: Trail): Operation {
    Operation(1, 0, candidate, 1, 100, approved, status, trail)
  }

  const Taken := Trail(1, true, false, false, false)

  function Charging(st: State, candidate: Option<Id>, approved: Option<Money>, status: OperationStatus, trail: Trail,
                    phase: Phase): State
  {
    st.(operations := [Charge(candidate, approved, status, trail)], runs := map[0 := phase])
  }

  /** From a started operation to the point where its row has read APPROVED for the first FIN. */
  lemma ReachReady(st: State, candidate: Option<Id>)
    requires Reachable(Charging(st, candidate, None, PENDING, NoTrail, Queued))
    ensures Reachable(Charging(st, candidate, Some(100), APPROVED, NoTrail, ReadyForFin(1)))
  {
    var asked := Charging(st, candidate, None, PENDING, NoTrail, AwaitVrp);
    var approved := Charging(st, candidate, Some(100), APPROVED, NoTrail, BeforeFin(1));
    NextIsReachable(Charging(st, candidate, None, PENDING, NoTrail, Queued), Resume(false), asked);
    NextIsReachable(asked, Resume(false), approved);
    NextIsReachable(approved, Resume(false), Charging(st, candidate, Some(100), APPROVED, NoTrail, ReadyForFin(1)));
  }

  /** And on to where the terminal has taken the money. */
  lemma ReachTaken(st: State, candidate: Option<Id>)
    requires Reachable(Charging(st, candidate, None, PENDING, NoTrail, Queued))
    ensures Reachable(Charging(st, candidate, Some(100), APPROVED, Taken, AwaitFin(1)))
  {
    ReachReady(st, candidate);
    NextIsReachable(Charging(st, candidate, Some(100), APPROVED, NoTrail, ReadyForFin(1)), Resume(true),
                    Charging(st, candidate, Some(100), APPROVED, Taken, AwaitFin(1)));
  }

  /** A queued abort takes its two steps. */
  lemma ReachAborted(st: State, candidate: Option<Id>, intent: Intent, trail: Trail, phase: Phase)
    requires !intent.AbortChosen? && st.intents == multiset{}
    requires AbortTargets(intent, Charge(candidate, Some(100), APPROVED, trail))
    requires Reachable(Queue(Charging(st, candidate, Some(100), APPROVED, trail, phase), intent))
    ensures Reachable(Charging(st, candidate, Some(100), ABORTED, trail, phase))
  {
    var open := Charging(st, candidate, Some(100), APPROVED, trail, phase);
    assert open.operations[..0] == [];
    assert LatestTarget(open.operations, intent) == Some(0);
    NextIsReachable(Queue(open, intent), OnCard(DoChooseAbort(intent)), Queue(open, AbortChosen(0)));
    NextIsReachable(Queue(open, AbortChosen(0)), OnCard(DoApplyAbort(0)),
                    Charging(st, candidate, Some(100), ABORTED, trail, phase));
  }

  lemma ReachManualStart()
    ensures Reachable(Charging(OneInside, None, None, PENDING, NoTrail, Queued))
  {
    ReachInside();
    NextIsReachable(OneInside, OnCard(DoStartManualCard(1, "01A777AA", 100)),
                    Charging(OneInside, None, None, PENDING, NoTrail, Queued));
  }

  /** Cash is taken before the confirmation comes back. */
  const PaidCash := OneInside.(sessions := [CloseSession(NewSession(1, "01A777AA", 0, Regular), 5, 100, Manual)],
                               payments := [Payment(1, 0, 100, Cash)])

  lemma ReachCash()
    ensures Reachable(Queue(Charging(PaidCash, None, Some(100), APPROVED, Taken, AwaitFin(1)),
                            AbortSession(1, 0, None)))
  {
    ReachManualStart();
    ReachTaken(OneInside, None);
    NextIsReachable(Charging(OneInside, None, Some(100), APPROVED, Taken, AwaitFin(1)),
                    OnSession(DoCompleteSession(1, "01A777AA", Manual, 5, Cash, 100)),
                    Queue(Charging(PaidCash, None, Some(100), APPROVED, Taken, AwaitFin(1)), AbortSession(1, 0, None)));
  }

  /** The hole is reachable: cash is taken between the FIN request and its confirmation. */
  lemma ManualSilenceIsReachable() returns (st: State)
    ensures Reachable(st) && |st.operations| == 1 && st.operations[0].candidate.None?
    ensures st.operations[0].trail == Trail(1, true, true, false, false)
    ensures 0 !in st.runs && st.operations[0].status == ABORTED && !Accounted(st, st.operations[0])
  {
    ReachCash();
    ReachAborted(PaidCash, None, AbortSession(1, 0, None), Taken, AwaitFin(1));
    var confirmed := Trail(1, true, true, false, false);
    var received := Charging(PaidCash, None, Some(100), ABORTED, confirmed, Phase.Confirmed);
    NextIsReachable(Charging(PaidCash, None, Some(100), ABORTED, Taken, AwaitFin(1)), Resume(true), received);
    st := received.(runs := map[]);
    NextIsReachable(received, Resume(false), st);
  }

  // ----- a lost reply -----

  /** A camera at the gate sees a car but no plate. */
  const Gate := ExitEvent(1, 0, None, None, None, false, None, 4)

  function AtGate(status: CandidateStatus, resolution: Option<Resolution>): State {
    OneInside.(candidates := [Candidate(1, 0, None, None, None, 4, status, resolution)])
  }

  /** A card payment runs for the unmatched candidate and a chosen session. */
  lemma ReachGate()
    ensures Reachable(Charging(AtGate(Pending, None), Some(0), None, PENDING, NoTrail, Queued))
  {
    ReachInside();
    NextIsReachable(OneInside, OnCandidate(DoCreateExitCandidate(Gate)), AtGate(Pending, None));
    NextIsReachable(AtGate(Pending, None), OnCard(DoStartAutomaticCard(1, 0, 0, 100)),
                    Charging(AtGate(Pending, None), Some(0), None, PENDING, NoTrail, Queued));
  }

  const Cancelled := AtGate(Dismissed, Some(ExitCancelled))

  /** An operator cancels the candidate, and its abort gets through. */
  lemma ReachCancelled(trail: Trail, phase: Phase)
    requires Reachable(Charging(AtGate(Pending, None), Some(0), Some(100), APPROVED, trail, phase))
    ensures Reachable(Charging(Cancelled, Some(0), Some(100), ABORTED, trail, phase))
  {
    NextIsReachable(Charging(AtGate(Pending, None), Some(0), Some(100), APPROVED, trail, phase),
                    OnCandidate(DoCancel(1, 0)),
                    Queue(Charging(Cancelled, Some(0), Some(100), APPROVED, trail, phase), AbortCandidate(1, 0)));
    ReachAborted(Cancelled, Some(0), AbortCandidate(1, 0), trail, phase);
  }

  /** An abort between two FIN attempts is silent for a candidate too: the money is taken, its confirmation lost,
      the car still inside, and neither a payment nor a call for reconciliation says so. */
  lemma LostReplyIsSilent() returns (st: State)
    ensures Reachable(st) && |st.operations| == 1 && st.operations[0].candidate.Some?
    ensures st.operations[0].trail == Trail(1, true, false, false, false)
    ensures 0 !in st.runs && st.operations[0].status == ABORTED && !Accounted(st, st.operations[0])
    ensures st.payments == [] && |st.sessions| == 1 && st.sessions[0].status.Active?
  {
    ReachGate();
    ReachTaken(AtGate(Pending, None), Some(0));
    ReachCancelled(Taken, AwaitFin(1));
    var silent := Charging(Cancelled, Some(0), Some(100), ABORTED, Taken, BeforeFin(2));
    NextIsReachable(Charging(Cancelled, Some(0), Some(100), ABORTED, Taken, AwaitFin(1)), Resume(false), silent);
    st := silent.(runs := map[]);
    NextIsReachable(silent, Resume(false), st);
  }

  /** FIN can leave, and the money be taken, after the row was aborted: the abort came while the run was connecting. */
  lemma LateFinIsReachable() returns (st: State, st': State)
    ensures Reachable(st) && st' == Next(st, Resume(true))
    ensures |st.operations| == 1 && st.operations[0].status == ABORTED && st.operations[0].trail == NoTrail
    ensures |st'.operations| == 1 && st'.operations[0].status == ABORTED
    ensures st'.operations[0].trail.finRequests == 1 && st'.operations[0].trail.finTaken
  {
    ReachGate();
    ReachReady(AtGate(Pending, None), Some(0));
    ReachCancelled(NoTrail, ReadyForFin(1));
    st := Charging(Cancelled, Some(0), Some(100), ABORTED, NoTrail, ReadyForFin(1));
    st' := Next(st, Resume(true));
  }

  // ----- the books -----

  function Total(ps: seq<Payment>): nat {
    if ps == [] then 0 else Total(ps[..|ps| - 1]) + ps[|ps| - 1].amount
  }

  function PaidBy(ps: seq<Payment>, session: Id): nat {
    if ps == [] then 0
    else
      var last := ps[|ps| - 1];
      PaidBy(ps[..|ps| - 1], session) + if last.session == session then last.amount else 0
  }

  /** What the completed sessions among the first n record. */
  function BilledTotal(ss: seq<Session>, n: nat): nat
    requires n <= |ss|
  {
    if n == 0 then 0
    else BilledTotal(ss, n - 1) + if ss[n - 1].status.Completed? then Billed(ss[n - 1]) else 0
  }

  function PaidTotal(ps: seq<Payment>, n: nat): nat {
    if n == 0 then 0 else PaidTotal(ps, n - 1) + PaidBy(ps, n - 1)
  }

  lemma {:induction false} PaidTotalOfLast(ps: seq<Payment>, n: nat)
    requires ps != []
    ensures PaidTotal(ps, n) == PaidTotal(ps[..|ps| - 1], n) +
              if ps[|ps| - 1].session < n then ps[|ps| - 1].amount else 0
  {
    if n > 0 {
      PaidTotalOfLast(ps, n - 1);
    }
  }

  lemma {:induction false} NothingPaid(n: nat)
    ensures PaidTotal([], n) == 0
  {
    if n > 0 {
      NothingPaid(n - 1);
    }
  }

  lemma {:induction false} TotalBySession(ps: seq<Payment>, n: nat)
    requires forall p :: 0 <= p < |ps| ==> ps[p].session < n
    ensures PaidTotal(ps, n) == Total(ps)
  {
    if ps == [] {
      NothingPaid(n);
    } else {
      PaidTotalOfLast(ps, n);
      TotalBySession(ps[..|ps| - 1], n);
    }
  }

  lemma {:induction false} PaidByIsUnique(ps: seq<Payment>, session: Id)
    requires forall p, q :: 0 <= p < q < |ps| ==> ps[p].session != ps[q].session
    ensures !Paid(ps, session) ==> PaidBy(ps, session) == 0
    ensures forall p :: 0 <= p < |ps| && ps[p].session == session ==> PaidBy(ps, session) == ps[p].amount
  {
    if ps != [] {
      var front := ps[..|ps| - 1];
      PaidByIsUnique(front, session);
      if Paid(front, session) {
        var p :| 0 <= p < |front| && front[p].session == session;
        assert ps[p].session == session;
      }
    }
  }

  lemma {:induction false} BooksAgree(ss: seq<Session>, ps: seq<Payment>, n: nat)
    requires LedgerOk(ss, ps) && n <= |ss|
    ensures PaidTotal(ps, n) == BilledTotal(ss, n)
  {
    if n > 0 {
      BooksAgree(ss, ps, n - 1);
      PaidByIsUnique(ps, n - 1);
      if Paid(ps, n - 1) {
        var p :| 0 <= p < |ps| && ps[p].session == n - 1;
        assert PaidBy(ps, n - 1) == ps[p].amount;
      }
    }
  }

  /** In every reachable state the ledger adds up to what the completed sessions record. */
  lemma LedgerBalances(st: State)
    requires Reachable(st)
    ensures Total(st.payments) == BilledTotal(st.sessions, |st.sessions|)
  {
    ReachableKeepsInv(st);
    TotalBySession(st.payments, |st.sessions|);
    BooksAgree(st.sessions, st.payments, |st.sessions|);
  }
}
