/** What the transactions around a card payment mean: starts and retries, the answer to VRP, completion, aborts and
    restarts; and that the amount on record is the one the terminal approved. */
module CardOutcomes {
  import opened Wrappers
  import opened Protocol
  import opened ProtocolInvariants
  import opened ProtocolOutcomes
  import opened ProtocolTheorems

  // ----- starting card operations -----

  /** One more than the greatest number the organisation has used, beginning at 1. */
  ghost predicate IsNextNumber(os: seq<Operation>, org: Org, number: nat) {
    && (forall o :: o in os && o.org == org ==> o.number < number)
    && (number == 1 || exists o :: o in os && o.org == org && o.number + 1 == number)
  }

  /** A new operation waits for its run; nothing else changes. */
  ghost predicate OperationStarted(st: State, st': State, org: Org, session: Id, candidate: Option<Id>, amount: Money) {
    && |st'.operations| == |st.operations| + 1 && st'.operations[..|st.operations|] == st.operations
    && var o := st'.operations[|st.operations|];
    && o == Operation(org, session, candidate, o.number, amount, None, PENDING, Trail(0, false, false, false, false))
    && IsNextNumber(st.operations, org, o.number) && o.number <= 99_999_999
    && st' == st.(operations := st'.operations, runs := st.runs[|st.operations| := Queued])
  }

  ghost predicate NumbersUsedUp(os: seq<Operation>, org: Org) {
    exists o :: o in os && o.org == org && o.number == 99_999_999
  }

  lemma LatestHasGreatestNumber(st: State, org: Org)
    requires Reachable(st)
    ensures var latest := LatestOperation(st.operations, org);
            && (latest.None? ==> forall o :: o in st.operations ==> o.org != org)
            && (latest.Some? ==>
                  && st.operations[latest.value] in st.operations && st.operations[latest.value].org == org
                  && st.operations[latest.value].number <= 99_999_999
                  && forall o :: o in st.operations && o.org == org ==> o.number <= st.operations[latest.value].number)
  {
    ReachableKeepsInv(st);
    var latest := LatestOperation(st.operations, org);
    forall o | o in st.operations && o.org == org
      ensures latest.Some? && o.number <= st.operations[latest.value].number
    {
      var i :| 0 <= i < |st.operations| && st.operations[i] == o;
    }
  }

  /** A new operation has the next number; the numbers run out exactly at the maximum. */
  lemma StartOutcome(st: State, org: Org, session: Id, candidate: Option<Id>, amount: Money)
    requires Reachable(st)
    ensures var r := StartOperation(st, org, session, candidate, amount);
            if NumbersUsedUp(st.operations, org) then r == Err(Conflict)
            else r.Ok? && OperationStarted(st, r.value, org, session, candidate, amount)
  {
    LatestHasGreatestNumber(st, org);
  }

  /** An automatic payment needs a pending candidate, an active regular session, an amount and that neither of the two
      has an operation. */
  ghost predicate MayStart(st: State, org: Org, candidate: Id, session: Id) {
    && CandidateOpen(st, org, candidate) && ActiveSession(st, org, session) && st.sessions[session].source == Regular
    && forall o :: o in st.operations && o.org == org ==> o.candidate != Some(candidate) && o.session != session
  }

  lemma AutomaticStartOutcome(st: State, org: Org, candidate: Id, session: Id, amount: Money)
    requires Reachable(st)
    ensures var r := StartAutomaticCard(st, org, candidate, session, amount);
            if MayStart(st, org, candidate, session) && amount > 0 && !NumbersUsedUp(st.operations, org)
            then r.Ok? && OperationStarted(st, r.value, org, session, Some(candidate), amount)
            else r.Err?
  {
    StartOutcome(st, org, session, Some(candidate), amount);
  }

  /** A manual card payment is for the only active session of the plate. */
  lemma ManualStartOutcome(st: State, org: Org, plate: string, amount: Money)
    requires Reachable(st)
    ensures var r := StartManualCard(st, org, plate, amount);
            && (!KeyTakenByActive(st.sessions, org, plate) ==> r == Err(NotFound))
            && forall id: Id :: id < |st.sessions| && IsActiveWith(st.sessions[id], org, plate) ==>
                 if NumbersUsedUp(st.operations, org) then r == Err(Conflict)
                 else r.Ok? && OperationStarted(st, r.value, org, id, None, amount)
  {
    NobodyActive(st.sessions, org, plate);
    forall id: Id | id < |st.sessions| && IsActiveWith(st.sessions[id], org, plate)
      ensures var r := StartManualCard(st, org, plate, amount);
              if NumbersUsedUp(st.operations, org) then r == Err(Conflict)
              else r.Ok? && OperationStarted(st, r.value, org, id, None, amount)
    {
      OnlyActiveOfPlate(st, org, plate, id);
      StartOutcome(st, org, id, None, amount);
    }
  }

  /** The automatic start happens at most once for a candidate and at most once for a session. */
  lemma AutomaticCardStartsOnce(st: State, org: Org, candidate: Id, session: Id, amount: Money, other: Id, again: Money)
    requires StartAutomaticCard(st, org, candidate, session, amount).Ok?
    ensures var st' := StartAutomaticCard(st, org, candidate, session, amount).value;
            && StartAutomaticCard(st', org, candidate, other, again).Err?
            && StartAutomaticCard(st', org, other, session, again).Err?
  {
    var st' := StartAutomaticCard(st, org, candidate, session, amount).value;
    assert st'.operations[|st.operations|] in st'.operations;
  }

  /** The last operation of a session. */
  ghost predicate IsLastOf(os: seq<Operation>, session: Id, org: Org, last: Id) {
    && last < |os| && os[last].session == session && os[last].org == org
    && forall i :: last < i < |os| ==> !(os[i].session == session && os[i].org == org)
  }

  /** A retry follows a refusal by the terminal, and its candidate must still be pending. */
  predicate MayRetry(st: State, org: Org, o: Operation) {
    (o.status == DECLINED || o.status == TIMEOUT)
    && (o.candidate.Some? ==> CandidateOpen(st, org, o.candidate.value))
  }

  /** A retry repeats the last attempt: same candidate, same amount, and only after a refusal by the terminal. */
  lemma RetryOutcome(st: State, session: Id)
    requires Reachable(st)
    ensures var r := RetryCard(st, session);
            if session >= |st.sessions| then r == Err(NotFound)
            else if st.sessions[session].status != Active then r == Err(Conflict)
            else
              var org := st.sessions[session].org;
              && ((forall last: Id :: !IsLastOf(st.operations, session, org, last)) ==> r == Err(NotFound))
              && forall last: Id :: IsLastOf(st.operations, session, org, last) ==>
                   var o := st.operations[last];
                   if MayRetry(st, org, o) && !NumbersUsedUp(st.operations, org)
                   then r.Ok? && OperationStarted(st, r.value, org, session, o.candidate, o.requested)
                   else r == Err(Conflict)
  {
    if session < |st.sessions| && st.sessions[session].status == Active {
      var org := st.sessions[session].org;
      LatestIsLast(st.operations, session, org);
      var found := LatestOfSession(st.operations, session, org);
      if found.Some? {
        var o := st.operations[found.value];
        StartOutcome(st, org, session, o.candidate, o.requested);
      }
    }
  }

  lemma LatestIsLast(os: seq<Operation>, session: Id, org: Org)
    ensures forall last: Id :: IsLastOf(os, session, org, last) <==> LatestOfSession(os, session, org) == Some(last)
  {
  }

  /** When a session may be retried. */
  ghost predicate CanRetry(st: State, session: Id) {
    && session < |st.sessions| && st.sessions[session].status == Active
    && !NumbersUsedUp(st.operations, st.sessions[session].org)
    && exists last: Id :: IsLastOf(st.operations, session, st.sessions[session].org, last)
                          && MayRetry(st, st.sessions[session].org, st.operations[last])
  }

  lemma CanRetryExactly(st: State, session: Id)
    requires Reachable(st)
    ensures RetryCard(st, session).Ok? <==> CanRetry(st, session)
  {
    RetryOutcome(st, session);
    if session < |st.sessions| {
      var found := LatestOfSession(st.operations, session, st.sessions[session].org);
      assert found.Some? ==> IsLastOf(st.operations, session, st.sessions[session].org, found.value);
    }
  }

  /** Once retried, a session cannot be retried again before the terminal has answered. */
  lemma RetryOnce(st: State, session: Id)
    requires Reachable(st) && RetryCard(st, session).Ok?
    ensures RetryCard(RetryCard(st, session).value, session).Err?
  {
    ReachableKeepsInv(st);
  }

  // ----- the answer to VRP -----

  /** What the row of a refused payment reads. */
  function RefusedStatus(result: VrpResult): OperationStatus {
    match result
    case VrpApproved(_) => DECLINED // for nothing
    case VrpDeclined => DECLINED
    case VrpTimeout => TIMEOUT
    case VrpError => ERROR
  }

  /** The terminal's answer is recorded as it is, on a row that is still pending: the amount it approved, if that is
      not nothing, and the run goes on to FIN; or its refusal, and the run ends. */
  lemma VrpOutcome(st: State, id: Id, result: VrpResult)
    requires At(st, id, AwaitVrp)
    ensures var o, st' := st.operations[id], VrpAnswered(st, id, result);
            if o.status != PENDING then st' == st.(runs := st.runs - {id})
            else
              && OnlyRow(st.operations, st'.operations, id)
              && if result.VrpApproved? && result.amount > 0 then
                   && st'.operations[id] == Operation(o.org, o.session, o.candidate, o.number, o.requested,
                                                      Some(result.amount), APPROVED, o.trail)
                   && st' == st.(operations := st'.operations, runs := st.runs[id := BeforeFin(1)])
                 else
                   && st'.operations[id] == Operation(o.org, o.session, o.candidate, o.number, o.requested,
                                                      o.approved, RefusedStatus(result), o.trail)
                   && st' == st.(operations := st'.operations, runs := st.runs - {id})
  {
  }

  lemma OthersKeepApproved(st: State, step: CardStep, id: Id)
    requires !step.DoRun? && id < |st.operations|
    ensures id < |NextCard(st, step).operations|
    ensures NextCard(st, step).operations[id].approved == st.operations[id].approved
  {
    match step
    case DoChooseAbort(_) =>
    case DoApplyAbort(_) =>
    case DoRestart =>
    case DoMarkOrphaned(_, _) =>
    case _ => StartsLeaveRows(st, step, id);
  }

  lemma CompletionKeepsApproved(st: State, id: Id, at: int)
    requires NumbersOk(st.operations) && At(st, id, Confirmed)
    ensures |Complete(st, id, at).operations| == |st.operations|
    ensures Complete(st, id, at).operations[id].approved == st.operations[id].approved
  {
    NumberFindsRow(st.operations, id);
  }

  /** A step of the run that takes the terminal's answer to VRP. */
  predicate Answers(st: State, step: Step, id: Id) {
    At(st, id, AwaitVrp) && Resuming(step, id)
  }

  lemma OwnStepKeepsApproved(st: State, id: Id, vrp: VrpResult, fin: bool, at: int)
    requires NumbersOk(st.operations) && id < |st.operations| && !At(st, id, AwaitVrp)
    ensures id < |RunStep(st, id, vrp, fin, at).operations|
    ensures RunStep(st, id, vrp, fin, at).operations[id].approved == st.operations[id].approved
  {
    if At(st, id, Confirmed) {
      CompletionKeepsApproved(st, id, at);
    }
  }

  lemma OnlyAnswersApprove(st: State, step: Step, id: Id)
    requires NumbersOk(st.operations) && id < |st.operations| && !Answers(st, step, id)
    ensures id < |Next(st, step).operations|
    ensures Next(st, step).operations[id].approved == st.operations[id].approved
  {
    match step
    case OnSession(s) => SessionStepTables(st, s);
    case OnCandidate(c) => CandidateStepTables(st, c);
    case OnCard(o) =>
      if !o.DoRun? {
        OthersKeepApproved(st, o, id);
      } else if o.id == id {
        OwnStepKeepsApproved(st, id, o.vrp, o.fin, o.at);
      } else {
        OtherRowsStay(st, o.id, id, o.vrp, o.fin, o.at);
      }
  }

  lemma NewRowsAreUnapproved(st: State, step: CardStep, id: Id)
    requires |st.operations| <= id < |NextCard(st, step).operations|
    ensures NextCard(st, step).operations[id].approved == None
  {
    if step.DoRun? && At(st, step.id, Confirmed) {
      CompleteRuns(st, step.id, step.at);
    }
  }

  /** The step before an approved row: its approval by the terminal, or a step that leaves the amount as it is. */
  predicate BeforeApproved(st: State, step: Step, id: Id, amount: Money) {
    || (id < |st.operations| && st.operations[id].approved == Some(amount))
    || Approves(st, step, id, amount)
  }

  /** The terminal answers a pending operation that it approves this amount, which is not nothing. */
  predicate Approves(st: State, step: Step, id: Id, amount: Money) {
    Answers(st, step, id) && st.operations[id].status == PENDING && step.o.vrp == VrpApproved(amount) && amount > 0
  }

  lemma ApprovedStep(st: State, step: Step, st': State, id: Id)
    requires Reachable(st) && st' == Next(st, step) && id < |st'.operations| && st'.operations[id].approved.Some?
    ensures BeforeApproved(st, step, id, st'.operations[id].approved.value)
  {
    ReachableKeepsInv(st);
    if id < |st.operations| {
      if Answers(st, step, id) {
        VrpOutcome(st, id, step.o.vrp);
      } else {
        OnlyAnswersApprove(st, step, id);
      }
    } else {
      match step
      case OnSession(s) => SessionStepTables(st, s);
      case OnCandidate(c) => CandidateStepTables(st, c);
      case OnCard(o) => NewRowsAreUnapproved(st, o, id);
    }
  }

  lemma {:induction false} ApprovedBack(states: seq<State>, steps: seq<Step>, k: nat, id: Id, amount: Money)
    returns (i: nat)
    requires |states| == |steps| + 1 && k <= |steps|
    requires id < |states[k].operations| && states[k].operations[id].approved == Some(amount)
    requires states[0].operations == []
    requires forall j {:trigger steps[j]} :: 0 <= j < k && id < |states[j + 1].operations|
                                             && states[j + 1].operations[id].approved == Some(amount) ==>
               BeforeApproved(states[j], steps[j], id, amount)
    ensures i < k && Approves(states[i], steps[i], id, amount)
  {
    if Approves(states[k - 1], steps[k - 1], id, amount) {
      i := k - 1;
    } else {
      i := ApprovedBack(states, steps, k - 1, id, amount);
    }
  }

  lemma ApprovedBefore(states: seq<State>, steps: seq<Step>, j: nat, id: Id)
    requires Trace(states, steps) && j < |steps|
    requires id < |states[j + 1].operations| && states[j + 1].operations[id].approved.Some?
    ensures BeforeApproved(states[j], steps[j], id, states[j + 1].operations[id].approved.value)
  {
    TraceReaches(states, steps, j);
    ApprovedStep(states[j], steps[j], states[j + 1], id);
  }

  /** In every run the amount on record for an operation is the one the terminal approved when it was asked. */
  lemma ApprovedByTerminal(states: seq<State>, steps: seq<Step>, k: nat, id: Id) returns (i: nat)
    requires Trace(states, steps) && k <= |steps|
    requires id < |states[k].operations| && states[k].operations[id].approved.Some?
    ensures i < k && Approves(states[i], steps[i], id, states[k].operations[id].approved.value)
  {
    var amount := states[k].operations[id].approved.value;
    forall j {:trigger steps[j]} | 0 <= j < k && id < |states[j + 1].operations|
                                   && states[j + 1].operations[id].approved == Some(amount)
      ensures BeforeApproved(states[j], steps[j], id, amount)
    {
      ApprovedBefore(states, steps, j, id);
    }
    i := ApprovedBack(states, steps, k, id, amount);
  }

  /** The session has one payment, of that amount. */
  ghost predicate OnlyPayment(ps: seq<Payment>, session: Id, amount: Money) {
    && (exists p :: 0 <= p < |ps| && ps[p].session == session)
    && (forall p :: 0 <= p < |ps| && ps[p].session == session ==> ps[p].amount == amount)
    && (forall p, q :: 0 <= p < q < |ps| && ps[p].session == session ==> ps[q].session != session)
  }

  /** So what a confirmed card operation put into the ledger, and into its session, is what the terminal approved. */
  lemma LedgerHasApprovedAmount(states: seq<State>, steps: seq<Step>, k: nat, id: Id) returns (i: nat, amount: Money)
    requires Trace(states, steps) && k <= |steps|
    requires id < |states[k].operations| && states[k].operations[id].status == FIN_CONFIRMED
    ensures i < k && Approves(states[i], steps[i], id, amount)
    ensures var st, session := states[k], states[k].operations[id].session;
            && session < |st.sessions| && st.sessions[session].status == Completed
            && st.sessions[session].amount == Some(amount) && OnlyPayment(st.payments, session, amount)
  {
    TraceReaches(states, steps, k);
    amount := ConfirmedAmount(states[k], id);
    i := ApprovedByTerminal(states, steps, k, id);
  }

  lemma ConfirmedAmount(st: State, id: Id) returns (amount: Money)
    requires Reachable(st) && id < |st.operations| && st.operations[id].status == FIN_CONFIRMED
    ensures st.operations[id].approved == Some(amount)
    ensures var session := st.operations[id].session;
            && session < |st.sessions| && st.sessions[session].status == Completed
            && st.sessions[session].amount == Some(amount) && OnlyPayment(st.payments, session, amount)
  {
    OneConfirmedOperation(st, id, id);
    OnePaymentPerSession(st);
    amount := st.operations[id].approved.value;
    assert Billed(st.sessions[st.operations[id].session]) == amount > 0;
  }

  // ----- completion -----

  /** The session is closed with one card payment of the approved amount, and the operation is confirmed. */
  ghost predicate SettledByCard(st: State, st': State, id: Id, amount: Money, at: int, how: ExitMethod) {
    && OnlyRow(st.operations, st'.operations, id)
    && var o := st.operations[id];
    && o.approved == Some(amount) && ClosedAndPaid(st, st', o.session, at, amount, how, Card, Card)
    && st'.operations[id] == Operation(o.org, o.session, o.candidate, o.number, o.requested, o.approved,
                                       FIN_CONFIRMED, o.trail)
  }

  /** The candidate is accepted with the session paid for. */
  ghost predicate AcceptedFor(st: State, st': State, candidate: Id, session: Id) {
    && candidate < |st.candidates|
    && Decided(st, st', candidate, Accepted,
               Some(if st.candidates[candidate].matchedSession == Some(session) then Exact else Reassigned),
               Some(session))
  }

  /** A payment with a candidate settles while the candidate is pending and the car inside, and is stale otherwise. */
  lemma CandidateCompletionOutcome(st: State, id: Id, at: int)
    requires Reachable(st) && At(st, id, Confirmed) && st.operations[id].candidate.Some?
    ensures var o, st' := st.operations[id], CompleteForCandidate(st, id, at);
            && o.approved.Some? && o.candidate.value < |st.candidates| && o.session < |st.sessions|
            && if st.candidates[o.candidate.value].status == Pending && st.sessions[o.session].status == Active then
                 && SettledByCard(st, st', id, o.approved.value, at, Auto)
                 && AcceptedFor(st, st', o.candidate.value, o.session)
                 && st' == st.(sessions := st'.sessions, payments := st'.payments, operations := st'.operations,
                               candidates := st'.candidates, runs := st.runs - {id})
               else st' == st.(runs := st.runs[id := StaleFound])
  {
    CompletionFindsRows(st, id);
    var o := st.operations[id];
    CompletionCases(st, id, at);
    if st.sessions[o.session].status == Active {
      InsideIsUnpaid(st, o.session);
    }
  }

  /** A payment without one settles while the row reads APPROVED and the car is inside; it is set aside and logged if
      only the car has left, and otherwise nothing but the run ends. */
  lemma ManualCompletionRows(st: State, id: Id, at: int)
    requires Reachable(st) && At(st, id, Confirmed) && st.operations[id].candidate.None?
    ensures var o, st' := st.operations[id], CompleteManual(st, id, at);
            && o.approved.Some? && o.session < |st.sessions|
            && if o.status != APPROVED then st' == st.(runs := st.runs - {id})
               else if st.sessions[o.session].status == Active then
                 && SettledByCard(st, st', id, o.approved.value, at, Manual)
                 && st' == st.(sessions := st'.sessions, payments := st'.payments, operations := st'.operations,
                               runs := st.runs - {id})
               else
                 && OnlyRow(st.operations, st'.operations, id)
                 && st'.operations[id] == o.(status := STALE_IGNORED, trail := o.trail.(reconciliationLogged := true))
                 && st' == st.(operations := st'.operations, runs := st.runs - {id})
  {
    CompletionFindsSession(st, id);
    ConfirmedIsApproved(st, id);
    if st.sessions[st.operations[id].session].status == Active {
      InsideIsUnpaid(st, st.operations[id].session);
    }
  }

  lemma ConfirmedIsApproved(st: State, id: Id)
    requires Reachable(st) && At(st, id, Confirmed)
    ensures st.operations[id].approved.Some?
  {
    ReachableKeepsInv(st);
    assert PhaseOk(st.operations[id], PhaseOf(st.runs, id));
  }

  /** A card payment as it stands once it is confirmed: operation, session, ledger and candidate all say so. */
  ghost predicate PaidByCard(st: State, id: Id, amount: Money, at: int) {
    && id < |st.operations|
    && var o := st.operations[id];
    && o.status == FIN_CONFIRMED && o.approved == Some(amount) && o.session < |st.sessions|
    && var s := st.sessions[o.session];
    && s == Session(s.org, s.plate, s.enteredAt, Some(at), Completed, s.source, Some(amount), Card,
                    Some(if o.candidate == None then Manual else Auto), None)
    && Payment(s.org, o.session, amount, Card) in st.payments
    && match o.candidate
       case None => true
       case Some(cid) =>
         && cid < |st.candidates|
         && var c := st.candidates[cid];
         && c.status == Accepted && c.resolvedSession == Some(o.session)
         && c.resolution == Some(if c.matchedSession == Some(o.session) then Exact else Reassigned)
  }

  lemma SettledIsPaid(st: State, st': State, id: Id, amount: Money, at: int)
    requires id < |st.operations|
    requires SettledByCard(st, st', id, amount, at, if st.operations[id].candidate == None then Manual else Auto)
    requires st.operations[id].candidate.Some? ==>
               AcceptedFor(st, st', st.operations[id].candidate.value, st.operations[id].session)
    ensures PaidByCard(st', id, amount, at)
  {
    var o := st.operations[id];
    assert st'.payments[|st.payments|] == Payment(st.sessions[o.session].org, o.session, amount, Card);
  }

  lemma CompletedForCandidate(st: State, id: Id, at: int)
    requires Reachable(st) && At(st, id, Confirmed) && st.operations[id].candidate.Some?
    ensures var st' := CompleteForCandidate(st, id, at);
            && id < |st'.operations|
            && (st'.operations[id].status == FIN_CONFIRMED ==>
                  st'.operations[id].approved.Some? && PaidByCard(st', id, st'.operations[id].approved.value, at))
  {
    CandidateCompletionOutcome(st, id, at);
    var o, st' := st.operations[id], CompleteForCandidate(st, id, at);
    ConfirmedIsOpen(st, id);
    if st'.operations[id].status == FIN_CONFIRMED {
      SettledIsPaid(st, st', id, o.approved.value, at);
    }
  }

  lemma CompletedManually(st: State, id: Id, at: int)
    requires Reachable(st) && At(st, id, Confirmed) && st.operations[id].candidate.None?
    ensures var st' := CompleteManual(st, id, at);
            && id < |st'.operations|
            && (st'.operations[id].status == FIN_CONFIRMED ==>
                  st'.operations[id].approved.Some? && PaidByCard(st', id, st'.operations[id].approved.value, at))
  {
    ManualCompletionRows(st, id, at);
    var o, st' := st.operations[id], CompleteManual(st, id, at);
    ConfirmedIsOpen(st, id);
    if st'.operations[id].status == FIN_CONFIRMED {
      SettledIsPaid(st, st', id, o.approved.value, at);
    }
  }

  lemma ConfirmedIsOpen(st: State, id: Id)
    requires Reachable(st) && At(st, id, Confirmed)
    ensures st.operations[id].status != FIN_CONFIRMED
  {
    ReachableKeepsInv(st);
    assert PhaseOk(st.operations[id], PhaseOf(st.runs, id));
  }

  /** The same operation for the same money. */
  predicate SameCharge(o: Operation, o': Operation) {
    SameIdentity(o, o') && o'.approved == o.approved
  }

  // ----- the other turns of a run -----

  /** A run begins by asking the terminal, unless its row is no longer pending; a turn of the FIN loop goes ahead only
      while the row reads APPROVED. Neither writes anything. */
  lemma GoAheadOutcome(st: State, id: Id, attempt: nat)
    ensures At(st, id, Queued) ==>
              RunBegins(st, id) == st.(runs := if st.operations[id].status == PENDING then st.runs[id := AwaitVrp]
                                               else st.runs - {id})
    ensures At(st, id, BeforeFin(attempt)) ==>
              FinChecked(st, id, attempt) ==
              st.(runs := if st.operations[id].status == APPROVED then st.runs[id := ReadyForFin(attempt)]
                          else st.runs - {id})
  {
  }

  /** A request for FIN is counted and changes the row in no other way; a confirmed one leads to completion, and the
      third one without a confirmation is the last. */
  lemma FinOutcome(st: State, id: Id, attempt: nat, taken: bool)
    requires id < |st.operations|
    ensures var o, t := st.operations[id], st.operations[id].trail;
            && (At(st, id, ReadyForFin(attempt)) ==>
                  FinSent(st, id, attempt, taken) ==
                  st.(operations := st.operations[id := o.(trail := t.(finRequests := t.finRequests + 1,
                                                                       finTaken := t.finTaken || taken))],
                      runs := st.runs[id := AwaitFin(attempt)]))
            && (At(st, id, AwaitFin(attempt)) ==>
                  && FinAnswered(st, id, attempt, true) ==
                     st.(operations := st.operations[id := o.(trail := t.(finTaken := true, finConfirmed := true))],
                         runs := st.runs[id := Confirmed])
                  && FinAnswered(st, id, attempt, false) ==
                     st.(runs := st.runs[id := if attempt < 3 then BeforeFin(attempt + 1) else Exhausted]))
  {
  }

  /** What a run does last: a stale row is marked if it reads APPROVED or ABORTED, an unconfirmed one if it reads
      APPROVED; a marked row is logged for reconciliation, and with that the run ends. */
  lemma LastTurnOutcome(st: State, id: Id)
    requires id < |st.operations|
    ensures var o := st.operations[id];
            && (At(st, id, StaleFound) ==>
                  MarkStale(st, id) ==
                  if o.status == APPROVED || o.status == ABORTED
                  then st.(operations := st.operations[id := o.(status := STALE_IGNORED)],
                           runs := st.runs[id := StaleLogging])
                  else st.(runs := st.runs - {id}))
            && (At(st, id, Exhausted) ==>
                  MarkFinFailed(st, id) ==
                  if o.status == APPROVED
                  then st.(operations := st.operations[id := o.(status := FIN_FAILED)],
                           runs := st.runs[id := FailureLogging])
                  else st.(runs := st.runs - {id}))
            && (At(st, id, StaleLogging) || At(st, id, FailureLogging) ==>
                  LogReconciliation(st, id) ==
                  st.(operations := st.operations[id := o.(trail := o.trail.(reconciliationLogged := true))],
                      runs := st.runs - {id}))
  {
  }

  // ----- aborts and restarts -----

  /** Startup marks exactly an operation of an earlier process that is open and still reads as it was selected. */
  lemma OrphanOutcome(st: State, id: Id, selected: OperationStatus)
    requires id < |st.operations|
    ensures MarkOrphaned(st, id, selected) ==
            if id < st.preRestart && st.operations[id].status == selected
               && (st.operations[id].status == PENDING || st.operations[id].status == APPROVED)
            then st.(operations := st.operations[id := st.operations[id].(status := ORPHANED)])
            else st
  {
  }

  /** The open operations an abort is meant for. */
  predicate IsMeant(intent: Intent, o: Operation) {
    && (o.status == PENDING || o.status == APPROVED)
    && match intent
       case AbortSession(org, session, None) => o.org == org && o.session == session
       case AbortSession(org, session, Some(c)) => o.org == org && o.session == session && o.candidate == Some(c)
       case AbortCandidate(org, c) => o.org == org && o.candidate == Some(c)
       case AbortChosen(_) => false
  }

  ghost predicate IsLastMeant(os: seq<Operation>, intent: Intent, id: Id) {
    id < |os| && IsMeant(intent, os[id]) && forall j :: id < j < |os| ==> !IsMeant(intent, os[j])
  }

  lemma TargetIsLastMeant(os: seq<Operation>, intent: Intent)
    ensures match LatestTarget(os, intent)
            case Some(id) => IsLastMeant(os, intent, id)
            case None => forall id: Id :: !IsLastMeant(os, intent, id)
  {
    forall o ensures IsMeant(intent, o) <==> AbortTargets(intent, o) {
    }
  }

  /** A queued abort chooses the last open operation it is meant for, if there is one. */
  lemma AbortChoice(st: State, intent: Intent)
    requires intent in st.intents && !intent.AbortChosen?
    ensures var st', left := ChooseAbort(st, intent), st.intents - multiset{intent};
            && ((forall id: Id :: !IsLastMeant(st.operations, intent, id)) ==> st' == st.(intents := left))
            && forall id: Id :: IsLastMeant(st.operations, intent, id) ==>
                 st' == st.(intents := left + multiset{AbortChosen(id)})
  {
    TargetIsLastMeant(st.operations, intent);
  }

  /** The chosen operation is aborted if it is still open; nothing else about it changes. */
  lemma AbortOutcome(st: State, id: Id)
    requires AbortChosen(id) in st.intents
    ensures var st', left := ApplyAbort(st, id), st.intents - multiset{AbortChosen(id)};
            if && id < |st.operations|
               && (st.operations[id].status == PENDING || st.operations[id].status == APPROVED)
            then
              && OnlyRow(st.operations, st'.operations, id)
              && var o := st.operations[id];
              && st'.operations[id] == Operation(o.org, o.session, o.candidate, o.number, o.requested, o.approved,
                                                 ABORTED, o.trail)
              && st' == st.(operations := st'.operations, intents := left)
            else st' == st.(intents := left)
  {
  }

  /** A restart forgets runs and queued aborts; the rows stay, and those whose run it killed are known as lost. */
  lemma RestartOutcome(st: State)
    ensures var st' := Restart(st);
            && |st'.operations| == |st.operations|
            && (forall i :: 0 <= i < |st.operations| ==>
                  var o, t := st.operations[i], st.operations[i].trail;
                  st'.operations[i] ==
                    Operation(o.org, o.session, o.candidate, o.number, o.requested, o.approved, o.status,
                              Trail(t.finRequests, t.finTaken, t.finConfirmed, t.reconciliationLogged,
                                    t.lost || i in st.runs)))
            && st' == State(st.sessions, st.candidates, st'.operations, st.payments, map[], multiset{}, |st.operations|)
  {
  }
}
