/** The tables as an object that the requests update in place. A method with an await lets other requests run there:
    whatever steps they take is a parameter. Every request keeps the invariant and says what its caller can rely on. */
module ParkingStore {
  import opened Wrappers
  import opened Protocol
  import opened ProtocolInvariants
  import opened ProtocolOutcomes
  import opened ProtocolTheorems
  import opened CardOutcomes

  /** Whether the terminal takes the money when a FIN reaches it, and whether its confirmation is received. */
  datatype FinAnswer = FinAnswer(taken: bool, received: bool)

  /** A manual exit either waits for the terminal or is closed. */
  datatype ManualExit = CardStarted(operation: Id) | Closed(session: Id)

  class Store {
    var sessions: seq<Session>
    var candidates: seq<Candidate>
    var operations: seq<Operation>
    var payments: seq<Payment>
    var runs: map<Id, Phase>
    var intents: multiset<Intent>
    var preRestart: Id

    function Tables(): State
      reads this
    {
      State(sessions, candidates, operations, payments, runs, intents, preRestart)
    }

    /** The tables are in a state the protocol can reach. */
    ghost predicate Valid()
      reads this
    {
      Reachable(Tables())
    }

    constructor (legacy: seq<Session>)
      requires SessionsOk(legacy) && forall i :: 0 <= i < |legacy| ==> legacy[i].status.AwaitingPayment?
      ensures Valid() && Init(Tables()) && sessions == legacy
    {
      sessions, candidates, operations, payments := legacy, [], [], [];
      runs, intents, preRestart := map[], multiset{}, 0;
      new;
      InitIsReachable(Tables());
    }

    // ----- awaits -----

    /** Other requests run. */
    method Await(others: seq<Step>)
      requires Valid()
      modifies this
      ensures Valid() && Tables() == Run(old(Tables()), others)
    {
      RunsStayReachable(Tables(), others);
      var st := Run(Tables(), others);
      sessions, candidates, operations, payments := st.sessions, st.candidates, st.operations, st.payments;
      runs, intents, preRestart := st.runs, st.intents, st.preRestart;
    }

    /** The same while the run of an operation is suspended: it stays where it is. */
    method AwaitRun(id: Id, others: seq<Step>)
      requires Valid() && id in runs && forall k :: 0 <= k < |others| ==> Leaves(others[k], id)
      modifies this
      ensures Valid() && RunKept(old(Tables()), Tables(), id)
    {
      SuspendedRunWaits(Tables(), others, id);
      Await(others);
    }

    method AwaitAt(id: Id, phase: Phase, others: seq<Step>)
      requires Valid() && At(Tables(), id, phase) && forall k :: 0 <= k < |others| ==> Leaves(others[k], id)
      modifies this
      ensures Valid() && At(Tables(), id, phase) && SameRun(old(operations)[id], operations[id])
      ensures !AbortOpen(old(operations)[id]) ==> operations[id] == old(operations)[id]
    {
      AwaitRun(id, others);
    }

    /** The same while the startup loop is suspended: of the rows it goes through, others can only abort open ones. */
    method AwaitStartup(others: seq<Step>)
      requires Valid() && forall k :: 0 <= k < |others| ==> DuringStartup(others[k])
      modifies this
      ensures Valid() && preRestart == old(preRestart) <= |old(operations)| && preRestart <= |operations|
      ensures forall id :: 0 <= id < preRestart ==> RowKept(old(operations)[id], operations[id])
    {
      OldRowsWaitTogether(Tables(), others);
      Await(others);
    }

    // ----- entry -----

    method CloseStaleActiveSessionOnReentry(org: Org, plate: string, now: int) returns (closed: bool)
      requires Valid()
      modifies this`sessions
      ensures Valid() && Tables() == CloseStaleOnReentry(old(Tables()), org, plate, now)
      ensures closed == KeyTakenByActive(old(sessions), org, plate) && !KeyTakenByActive(sessions, org, plate)
      ensures |sessions| == |old(sessions)| && StaleClosed(old(sessions), sessions, org, plate, now)
    {
      NextIsReachable(Tables(), OnSession(DoCloseStale(org, plate, now)),
                      CloseStaleOnReentry(Tables(), org, plate, now));
      StaleCloseOutcome(Tables(), org, plate, now);
      var stale := LatestActive(sessions, org, plate);
      if stale.None? {
        return false;
      }
      var row := sessions[stale.value];
      row := row.(status := Completed, exitedAt := Some(now), amount := Some(0));
      row := row.(exitMethod := Some(AutoClosedOnReentry), activePlateKey := None);
      sessions := sessions[stale.value := row];
      closed := true;
    }

    method InsertActiveSession(org: Org, plate: string, enteredAt: int, source: SessionSource)
      returns (inserted: Result<Id, Refusal>)
      requires Valid()
      modifies this`sessions
      ensures Valid()
      ensures Tables() == Committed(old(Tables()), InsertActive(old(Tables()), org, plate, enteredAt, source))
      ensures inserted == if KeyTaken(old(sessions), (org, plate)) then Err(Conflict) else Ok(|old(sessions)|)
      ensures inserted.Err? ==> sessions == old(sessions)
      ensures inserted.Ok? ==>
                && |sessions| == |old(sessions)| + 1 && sessions[..inserted.value] == old(sessions)
                && IsEntered(sessions[inserted.value], org, plate, enteredAt, source)
      ensures inserted.Ok? ==>
                forall i :: 0 <= i < |sessions| ==> (IsActiveWith(sessions[i], org, plate) <==> i == inserted.value)
    {
      NextIsReachable(Tables(), OnSession(DoInsertActive(org, plate, enteredAt, source)),
                      Committed(Tables(), InsertActive(Tables(), org, plate, enteredAt, source)));
      InsertedIsOnlyActive(Tables(), org, plate, enteredAt, source);
      if KeyTaken(sessions, (org, plate)) {
        return Err(Conflict);
      }
      inserted := Ok(|sessions|);
      sessions := sessions + [NewSession(org, plate, enteredAt, source)];
    }

    method ReplaceActiveSession(org: Org, plate: string, now: int, enteredAt: int, source: SessionSource)
      returns (created: Result<Id, Refusal>)
      requires Valid() && plate != ""
      modifies this`sessions
      ensures Tables() == Committed(old(Tables()), CreateEntry(old(Tables()), org, plate, now, enteredAt, source, None))
      ensures match CreateEntry(old(Tables()), org, plate, now, enteredAt, source, None)
              case Ok(_) => created == Ok(|old(sessions)|)
              case Err(e) => created == Err(e)
    {
      var before := sessions;
      var closed := CloseStaleActiveSessionOnReentry(org, plate, now);
      if ExactInside(sessions, org, plate).Some? {
        sessions := before;
        return Err(Conflict);
      }
      created := InsertActiveSession(org, plate, enteredAt, source);
      sessions := if created.Err? then before else sessions;
    }

    /** The part every entry shares; a refusal after the stale close rolls that close back. */
    method CreateEntrySessionInTransaction(org: Org, plate: string, now: int, enteredAt: int, source: SessionSource,
                                           policy: Option<Refusal>) returns (created: Result<Id, Refusal>)
      requires Valid()
      modifies this`sessions
      ensures Valid()
      ensures Tables() == Committed(old(Tables()),
                                    CreateEntry(old(Tables()), org, plate, now, enteredAt, source, policy))
      ensures created == if plate == "" then Err(BadRequest) else if policy.Some? then Err(policy.value)
                         else if AwaitsPayment(old(sessions), org, plate) then Err(Conflict) else Ok(|old(sessions)|)
      ensures created.Err? ==> sessions == old(sessions)
      ensures created.Ok? ==> Entered(old(sessions), sessions, org, plate, now, enteredAt, source)
    {
      NextIsReachable(Tables(), OnSession(DoCreateEntry(org, plate, now, enteredAt, source, policy)),
                      Committed(Tables(), CreateEntry(Tables(), org, plate, now, enteredAt, source, policy)));
      EntryOutcome(Tables(), org, plate, now, enteredAt, source, policy);
      if plate == "" {
        return Err(BadRequest);
      }
      if policy.Some? {
        return Err(policy.value);
      }
      created := ReplaceActiveSession(org, plate, now, enteredAt, source);
    }

    /** The desk entry is not one transaction: others run between its stale close and its insert. A refused insert
        leaves the close in place. */
    method EntryManual(org: Org, plate: string, now: int, source: SessionSource, policy: Option<Refusal>,
                       others: seq<Step>) returns (created: Result<Id, Refusal>)
      requires Valid()
      modifies this
      ensures Valid()
      ensures var met := Run(CloseStaleOnReentry(old(Tables()), org, plate, now), others);
              && (created.Ok? <==> policy.None? && ExactInside(met.sessions, org, plate).None?)
              && (created.Err? ==> Tables() == met)
              && (created.Ok? ==>
                    && created.value == |met.sessions| && |sessions| == |met.sessions| + 1
                    && sessions[..created.value] == met.sessions
                    && IsEntered(sessions[created.value], org, plate, now, source)
                    && Tables() == met.(sessions := sessions))
      ensures created.Ok? ==>
                forall i :: 0 <= i < |sessions| ==> (IsActiveWith(sessions[i], org, plate) <==> i == created.value)
    {
      var closed := CloseStaleActiveSessionOnReentry(org, plate, now);
      Await(others);
      FreePlateHasNoKey(Tables(), org, plate);
      if policy.Some? {
        return Err(policy.value);
      }
      if ExactInside(sessions, org, plate).Some? {
        return Err(Conflict);
      }
      created := InsertActiveSession(org, plate, now, source);
    }

    /** The stale close survives whatever the rest of the event decides. */
    method ProcessEntryWebhook(org: Org, plate: string, now: int, source: SessionSource, setAside: bool,
                               policy: Option<Refusal>) returns (session: Option<Id>)
      requires Valid()
      modifies this`sessions
      ensures Valid() && Tables() == EntryWebhook(old(Tables()), org, plate, now, source, setAside, policy)
      ensures session == if Admitted(old(sessions), org, plate, setAside, policy) then Some(|old(sessions)|) else None
      ensures session.Some? ==> Entered(old(sessions), sessions, org, plate, now, now, source)
      ensures session.None? ==> |sessions| == |old(sessions)| && StaleClosed(old(sessions), sessions, org, plate, now)
    {
      EntryWebhookOutcome(Tables(), org, plate, now, source, setAside, policy);
      StaleCloseOutcome(Tables(), org, plate, now);
      session := None;
      var closed := CloseStaleActiveSessionOnReentry(org, plate, now);
      AwaitingUntouched(old(sessions), sessions, org, plate, now);
      if LatestActive(sessions, org, plate).Some? || setAside {
        return;
      }
      var created := CreateEntrySessionInTransaction(org, plate, now, now, source, policy);
      if created.Ok? {
        session := Some(created.value);
      }
    }

    // ----- closing -----

    method InsertPayment(org: Org, session: Id, amount: Money, means: PaymentMethod)
      modifies this`payments
      ensures payments == old(payments) + [Payment(org, session, amount, means)]
    {
      payments := payments + [Payment(org, session, amount, means)];
    }

    method AbortActiveCardPaymentInBackground(org: Org, session: Id, candidate: Option<Id>)
      modifies this`intents
      ensures intents == old(intents) + multiset{AbortSession(org, session, candidate)}
    {
      intents := intents + multiset{AbortSession(org, session, candidate)};
    }

    method CompleteActiveSession(org: Org, plate: string, how: ExitMethod, exitedAt: int, means: PaymentMethod,
                                 tariff: Money) returns (outcome: Result<Id, Refusal>)
      requires Valid()
      modifies this
      ensures Valid()
      ensures Tables() == Committed(old(Tables()),
                                    CompleteSession(old(Tables()), org, plate, how, exitedAt, means, tariff))
      ensures !KeyTakenByActive(old(sessions), org, plate) ==> outcome == Err(NotFound) && Tables() == old(Tables())
      ensures KeyTakenByActive(old(sessions), org, plate) ==>
                && outcome.Ok?
                && LeavesManually(old(Tables()), Tables(), org, plate, outcome.value, how, exitedAt, means, tariff)
    {
      NobodyActive(sessions, org, plate);
      CompleteSessionOutcome(Tables(), org, plate, how, exitedAt, means, tariff);
      NextIsReachable(Tables(), OnSession(DoCompleteSession(org, plate, how, exitedAt, means, tariff)),
                      Committed(Tables(), CompleteSession(Tables(), org, plate, how, exitedAt, means, tariff)));
      var found := LatestActive(sessions, org, plate);
      if found.None? {
        return Err(NotFound);
      }
      var row := sessions[found.value];
      var amount := tariff;
      if !row.source.Regular? {
        amount := 0;
      }
      row := CloseSession(row, exitedAt, amount, how);
      var persisted := Cash;
      if row.source.Regular? {
        row := row.(paymentMethod := means);
        persisted := means;
      }
      sessions := sessions[found.value := row];
      InsertPayment(row.org, found.value, amount, persisted);
      AbortActiveCardPaymentInBackground(org, found.value, None);
      outcome := Ok(found.value);
    }

    method ConfirmCashPayment(id: Id) returns (outcome: Result<Money, Refusal>)
      requires Valid()
      modifies this
      ensures Valid() && Tables() == Committed(old(Tables()), ConfirmCash(old(Tables()), id))
      ensures outcome.Err? ==> Tables() == old(Tables())
      ensures outcome.Err? <==> id >= |old(sessions)| || !old(sessions)[id].status.AwaitingPayment?
      ensures outcome.Ok? ==>
                && CashTaken(old(Tables()), Tables(), id)
                && payments != [] && payments[|payments| - 1].amount == outcome.value
    {
      ConfirmCashOutcome(Tables(), id);
      NextIsReachable(Tables(), OnSession(DoConfirmCash(id)), Committed(Tables(), ConfirmCash(Tables(), id)));
      if id >= |sessions| {
        return Err(NotFound);
      }
      var row := sessions[id];
      if !row.status.AwaitingPayment? {
        return Err(BadRequest);
      }
      sessions := sessions[id := row.(status := Completed, paymentMethod := Cash, activePlateKey := None)];
      var amount := if row.amount.Some? then row.amount.value else 0;
      InsertPayment(row.org, id, amount, Cash);
      AbortActiveCardPaymentInBackground(row.org, id, None);
      outcome := Ok(amount);
    }

    method ForceCloseSession(id: Id, exitedAt: int, enteredAmount: Option<Money>, means: PaymentMethod, tariff: Money)
      returns (outcome: Result<Money, Refusal>)
      requires Valid()
      modifies this
      ensures Valid()
      ensures Tables() == Committed(old(Tables()),
                                    ForceClose(old(Tables()), id, exitedAt, enteredAmount, means, tariff))
      ensures outcome.Err? ==> Tables() == old(Tables())
      ensures outcome.Ok? <==>
                id < |old(sessions)| && old(sessions)[id].status.Active? && old(sessions)[id].enteredAt <= exitedAt
      ensures outcome.Ok? ==>
                var s := old(sessions)[id];
                && outcome.value == ForcedAmount(s, enteredAmount, tariff)
                && ClosedAndPaid(old(Tables()), Tables(), id, exitedAt, outcome.value, Forced,
                                 if s.source.Regular? then means else s.paymentMethod,
                                 if s.source.Regular? then means else Cash)
    {
      ForceCloseOutcome(Tables(), id, exitedAt, enteredAmount, means, tariff);
      NextIsReachable(Tables(), OnSession(DoForceClose(id, exitedAt, enteredAmount, means, tariff)),
                      Committed(Tables(), ForceClose(Tables(), id, exitedAt, enteredAmount, means, tariff)));
      if id >= |sessions| {
        return Err(NotFound);
      }
      var row := sessions[id];
      if exitedAt < row.enteredAt || !row.status.Active? {
        return Err(BadRequest);
      }
      var amount := 0;
      if enteredAmount.Some? {
        amount := enteredAmount.value;
      } else if row.source.Regular? {
        amount := tariff;
      }
      row := CloseSession(row, exitedAt, amount, Forced);
      var persisted := Cash;
      if row.source.Regular? {
        row := row.(paymentMethod := means);
        persisted := means;
      }
      sessions := sessions[id := row];
      InsertPayment(row.org, id, amount, persisted);
      outcome := Ok(amount);
    }

    /** A card exit of a regular session waits for the terminal; anything else is closed at once, in cash where a
        card was asked for. Others run while the terminal is acquired; lease is its refusal, if any. */
    method ExitManual(org: Org, plate: string, means: Option<PaymentMethod>, exitedAt: int, tariff: Money,
                      others: seq<Step>, lease: Option<Refusal>) returns (outcome: Result<ManualExit, Refusal>)
      requires Valid()
      modifies this
      ensures Valid()
      ensures if means == Some(Card) && ActiveRegular(old(sessions), org, plate)
              then
                var met := Run(old(Tables()), others);
                && (outcome.Ok? <==> lease == None && KeyTakenByActive(met.sessions, org, plate)
                                     && !NumbersUsedUp(met.operations, org))
                && if outcome.Err? then Tables() == met
                else
                  && outcome == Ok(CardStarted(|met.operations|)) && |met.operations| < |operations|
                  && var session := operations[|met.operations|].session;
                  && ActiveSession(met, org, session) && met.sessions[session].plate == Some(plate)
                  && OperationStarted(met, Tables(), org, session, None, tariff)
              else if KeyTakenByActive(old(sessions), org, plate) then
                && outcome.Ok? && outcome.value.Closed?
                && LeavesManually(old(Tables()), Tables(), org, plate, outcome.value.session, Manual, exitedAt,
                              if means == Some(Online) then Online else Cash, tariff)
              else outcome == Err(NotFound) && Tables() == old(Tables())
    {
      var existing := LatestActive(sessions, org, plate);
      if means == Some(Card) && existing.Some? && sessions[existing.value].source.Regular? {
        Await(others);
        if lease.Some? {
          return Err(lease.value);
        }
        var started := ExitManualByCard(org, plate, tariff);
        outcome := if started.Ok? then Ok(CardStarted(started.value)) else Err(started.error);
        return;
      }
      var closed := CompleteActiveSession(org, plate, Manual, exitedAt, InHand(means), tariff);
      outcome := if closed.Ok? then Ok(Closed(closed.value)) else Err(closed.error);
    }

    ghost predicate ActiveRegular(ss: seq<Session>, org: Org, plate: string) {
      exists i :: 0 <= i < |ss| && IsActiveWith(ss[i], org, plate) && ss[i].source.Regular?
    }

    /** What a closing exit is paid with. */
    function InHand(means: Option<PaymentMethod>): PaymentMethod {
      if means.None? || means.value.Card? then Cash else means.value
    }

    method PerformAutoExit(org: Org, id: Id, tariffFree: bool, stillFree: bool, exitedAt: int) returns (closed: bool)
      requires Valid()
      modifies this`sessions
      ensures Valid() && Tables() == AutoExit(old(Tables()), org, id, tariffFree, stillFree, exitedAt)
      ensures closed <==> AutoExitCloses(old(Tables()), org, id, tariffFree, stillFree)
      ensures closed ==>
                && ClosedForNothing(old(Tables()), Tables(), id, exitedAt, Auto, old(sessions)[id].paymentMethod)
                && !Paid(payments, id)
      ensures !closed ==> sessions == old(sessions)
    {
      AutoExitOutcome(Tables(), org, id, tariffFree, stillFree, exitedAt);
      NextIsReachable(Tables(), OnSession(DoAutoExit(org, id, tariffFree, stillFree, exitedAt)),
                      AutoExit(Tables(), org, id, tariffFree, stillFree, exitedAt));
      closed := false;
      if id >= |sessions| || sessions[id].org != org {
        return;
      }
      var row := sessions[id];
      if tariffFree && (!row.status.Active? || !row.source.Regular?) {
        return;
      }
      if !tariffFree && !Inside(row) {
        return;
      }
      if tariffFree && !stillFree {
        return;
      }
      sessions := sessions[id := CloseSession(row, exitedAt, 0, Auto)];
      closed := true;
    }

    // ----- exit candidates -----

    method RecoverFreeExitSession(org: Org, plate: string, since: int) returns (recovered: Option<Id>)
      modifies this`sessions
      ensures (Tables(), recovered) == Recover(old(Tables()), org, plate, since)
      ensures if KeyTaken(old(sessions), (org, plate)) then recovered == None && sessions == old(sessions)
              else Recovered(old(Tables()), Tables(), org, plate, since, recovered)
    {
      RecoverOutcome(Tables(), org, plate, since);
      recovered := RecoveryTarget(Tables(), org, plate, since);
      if recovered.None? {
        return;
      }
      if KeyTaken(sessions, (org, plate)) {
        return None;
      }
      var row := sessions[recovered.value];
      row := row.(status := Active, exitedAt := None, amount := None, exitMethod := None);
      row := row.(activePlateKey := Some((org, plate)));
      sessions := sessions[recovered.value := row];
    }

    /** matchedTo: whom the event is matched to, whether or not it becomes a candidate of its own. */
    method CreateCandidate(e: ExitEvent) returns (created: Option<Id>, ghost matchedTo: Option<Id>)
      requires Valid()
      modifies this
      ensures Valid() && Tables() == CreateExitCandidate(old(Tables()), e)
      ensures SeenAtExit(old(Tables()), Tables(), e, matchedTo)
      ensures created == if NothingToDo(old(Tables()), e) || JoinsAnother(old(Tables()), e, matchedTo) then None
                         else Some(|old(candidates)|)
    {
      matchedTo := CandidateOutcome(Tables(), e);
      NextIsReachable(Tables(), OnCandidate(DoCreateExitCandidate(e)), CreateExitCandidate(Tables(), e));
      created := None;
      if exists c :: c in candidates && c.org == e.org && c.webhookEvent == e.webhookEvent {
        return;
      }
      var matched := MatchExit(Tables(), e);
      if matched.Some? && sessions[matched.value].status.AwaitingPayment? {
        return;
      }
      if e.detectedPlate.Some? && matched.None? && e.recoverSince.Some? {
        matched := RecoverFreeExitSession(e.org, e.detectedPlate.value, e.recoverSince.value);
      }
      created := InsertCandidate(e, matched);
    }

    method InsertCandidate(e: ExitEvent, matched: Option<Id>) returns (created: Option<Id>)
      modifies this`candidates
      ensures Tables() == AddCandidate(old(Tables()), e, matched)
      ensures created == if |candidates| > |old(candidates)| then Some(|old(candidates)|) else None
    {
      if e.detectedPlate.Some? && matched.None? && e.recentlyResolved {
        return None;
      }
      if e.coalesceWith.Some? && e.coalesceWith.value < |candidates|
         && candidates[e.coalesceWith.value].org == e.org && candidates[e.coalesceWith.value].status.Pending? {
        return None;
      }
      created := Some(|candidates|);
      candidates := candidates +
        [Candidate(e.org, e.webhookEvent, e.detectedPlate, matched, None, e.at, Pending, None)];
    }

    method PreviewExitCandidateSession(org: Org, id: Id, session: Id) returns (refused: Option<Refusal>)
      requires Valid()
      modifies this`candidates
      ensures Valid() && Tables() == Committed(old(Tables()), PreviewCandidate(old(Tables()), org, id, session))
      ensures refused.None? <==> CandidateOpen(old(Tables()), org, id) && session < |sessions|
                                 && sessions[session].org == org && sessions[session].status != Completed
      ensures refused.Some? ==> candidates == old(candidates)
      ensures refused.None? ==>
                Decided(old(Tables()), Tables(), id, Pending, old(candidates)[id].resolution, Some(session))
    {
      PreviewOutcome(Tables(), org, id, session);
      NextIsReachable(Tables(), OnCandidate(DoPreview(org, id, session)),
                      Committed(Tables(), PreviewCandidate(Tables(), org, id, session)));
      refused := Openable(org, id);
      if refused.Some? {
        return;
      }
      if session >= |sessions| || sessions[session].org != org || !Inside(sessions[session]) {
        return Some(NotFound);
      }
      candidates := candidates[id := candidates[id].(resolvedSession := Some(session))];
    }

    /** The two checks every operator action starts with. */
    method Openable(org: Org, id: Id) returns (refused: Option<Refusal>)
      ensures match OpenCandidate(Tables(), org, id)
              case Ok(_) => refused.None?
              case Err(e) => refused == Some(e)
    {
      if id >= |candidates| || candidates[id].org != org {
        return Some(NotFound);
      }
      refused := if candidates[id].status.Pending? then None else Some(Conflict);
    }

    /** The checks of a confirmation. */
    method CheckConfirmation(org: Org, id: Id, r: ConfirmRequest) returns (target: Result<Id, Refusal>)
      ensures target == ConfirmTarget(Tables(), org, id, r)
    {
      var refused := Openable(org, id);
      if refused.Some? {
        return Err(refused.value);
      }
      var selected := if r.selected.Some? then r.selected else candidates[id].matchedSession;
      if selected.None? {
        return Err(BadRequest);
      }
      var sid := selected.value;
      if sid >= |sessions| || sessions[sid].org != org || !sessions[sid].status.Active? {
        return Err(Conflict);
      }
      var regular := sessions[sid].source.Regular?;
      if regular && !r.emergency && r.means != Some(Cash) && r.means != Some(Online) {
        return Err(BadRequest);
      }
      if regular && !r.emergency && r.tariff.None? {
        return Err(Conflict);
      }
      target := Ok(sid);
    }

    /** Its writes. */
    method WriteConfirmation(org: Org, id: Id, r: ConfirmRequest, sid: Id)
      requires ConfirmTarget(Tables(), org, id, r) == Ok(sid)
      modifies this
      ensures Tables() == Committed(old(Tables()), ConfirmCandidate(old(Tables()), org, id, r))
    {
      var row := sessions[sid];
      var amount, means := 0, row.paymentMethod;
      if row.source.Regular? && !r.emergency {
        amount, means := r.tariff.value, r.means.value;
        if row.plate.Some? && r.inpatient {
          amount := 0;
        } else {
          payments := payments + [Payment(row.org, sid, amount, means)];
        }
      }
      row := CloseSession(row, r.at, amount, if r.emergency then EmergencyExit else Auto);
      sessions := sessions[sid := row.(paymentMethod := means)];
      var resolution := if r.emergency then EmergencyConfirmed else if r.selected.None? then Exact else Reassigned;
      candidates := candidates[id := candidates[id].(status := Accepted, resolution := Some(resolution),
                                                     resolvedSession := Some(sid))];
      if means.Cash? || means.Online? {
        intents := intents + multiset{AbortSession(org, sid, Some(id))};
      }
    }

    method ConfirmExitCandidate(org: Org, id: Id, r: ConfirmRequest) returns (outcome: Result<Id, Refusal>)
      requires Valid()
      modifies this
      ensures Valid() && Tables() == Committed(old(Tables()), ConfirmCandidate(old(Tables()), org, id, r))
      ensures outcome.Ok? <==>
                && CandidateOpen(old(Tables()), org, id) && Choice(old(Tables()), id, r).Some?
                && ActiveSession(old(Tables()), org, Choice(old(Tables()), id, r).value)
                && CanBeCharged(old(sessions)[Choice(old(Tables()), id, r).value], r)
      ensures outcome.Ok? ==> ConfirmedExit(old(Tables()), Tables(), org, id, r, outcome.value)
      ensures outcome.Err? ==> Tables() == old(Tables())
    {
      ConfirmOutcome(Tables(), org, id, r);
      TargetOutcome(Tables(), org, id, r);
      NextIsReachable(Tables(), OnCandidate(DoConfirmCandidate(org, id, r)),
                      Committed(Tables(), ConfirmCandidate(Tables(), org, id, r)));
      outcome := CheckConfirmation(org, id, r);
      if outcome.Err? {
        return;
      }
      WriteConfirmation(org, id, r, outcome.value);
    }

    method ForceOpenExitCandidate(org: Org, id: Id, emergency: bool, at: int) returns (refused: Option<Refusal>)
      requires Valid()
      modifies this
      ensures Valid() && Tables() == Committed(old(Tables()), ForceOpenCandidate(old(Tables()), org, id, emergency, at))
      ensures refused == if CandidateOpen(old(Tables()), org, id) then None else Some(WhyClosed(old(Tables()), org, id))
      ensures refused.None? ==> ForcedOpenExit(old(Tables()), Tables(), org, id, emergency, at)
      ensures refused.Some? ==> Tables() == old(Tables())
    {
      ForceOpenOutcome(Tables(), org, id, emergency, at);
      NextIsReachable(Tables(), OnCandidate(DoForceOpen(org, id, emergency, at)),
                      Committed(Tables(), ForceOpenCandidate(Tables(), org, id, emergency, at)));
      refused := Openable(org, id);
      if refused.Some? {
        return;
      }
      var candidate := candidates[id];
      if candidate.resolvedSession.Some? && candidate.resolvedSession.value < |sessions| {
        var sid := candidate.resolvedSession.value;
        if sessions[sid].org == org && !sessions[sid].status.Completed? {
          sessions := sessions[sid := CloseSession(sessions[sid], at, 0, if emergency then EmergencyExit else Forced)];
        }
      }
      var resolution := if emergency then EmergencyForcedOpen else ForcedOpen;
      candidates := candidates[id := candidate.(status := Dismissed, resolution := Some(resolution))];
    }

    method CancelExitCandidate(org: Org, id: Id) returns (refused: Option<Refusal>)
      requires Valid()
      modifies this
      ensures Valid() && Tables() == Committed(old(Tables()), CancelCandidate(old(Tables()), org, id))
      ensures refused.None? <==> CandidateOpen(old(Tables()), org, id) && old(candidates)[id].matchedSession == None
      ensures refused.Some? ==> Tables() == old(Tables())
      ensures refused.None? ==>
                && Decided(old(Tables()), Tables(), id, Dismissed, Some(ExitCancelled),
                           old(candidates)[id].resolvedSession)
                && sessions == old(sessions) && payments == old(payments) && operations == old(operations)
                && intents == old(intents) + multiset{AbortCandidate(org, id)}
    {
      CancelOutcome(Tables(), org, id);
      NextIsReachable(Tables(), OnCandidate(DoCancel(org, id)),
                      Committed(Tables(), CancelCandidate(Tables(), org, id)));
      refused := Openable(org, id);
      if refused.Some? {
        return;
      }
      if candidates[id].matchedSession.Some? {
        return Some(Conflict);
      }
      candidates := candidates[id := candidates[id].(status := Dismissed, resolution := Some(ExitCancelled))];
      intents := intents + multiset{AbortCandidate(org, id)};
    }

    method DismissExitCandidate(org: Org, id: Id) returns (refused: Option<Refusal>)
      requires Valid()
      modifies this`candidates
      ensures Valid() && Tables() == Committed(old(Tables()), DismissCandidate(old(Tables()), org, id))
      ensures refused.None? <==> CandidateOpen(old(Tables()), org, id)
      ensures refused.Some? ==> candidates == old(candidates)
      ensures refused.None? ==> Decided(old(Tables()), Tables(), id, Dismissed, Some(DismissedByOperator),
                                        old(candidates)[id].resolvedSession)
    {
      DismissOutcome(Tables(), org, id);
      NextIsReachable(Tables(), OnCandidate(DoDismiss(org, id)),
                      Committed(Tables(), DismissCandidate(Tables(), org, id)));
      refused := Openable(org, id);
      if refused.Some? {
        return;
      }
      candidates := candidates[id := candidates[id].(status := Dismissed, resolution := Some(DismissedByOperator))];
    }

    /** One pass over the candidate table; the ids it expired, in order. */
    method RunExitCandidatesExpiry(scope: ExpiryScope) returns (resolved: seq<Id>)
      requires Valid()
      modifies this`candidates
      ensures Valid() && Tables() == ExpireCandidates(old(Tables()), scope)
      ensures forall id: Id :: id in resolved <==> id < |candidates| && Expires(old(candidates)[id], scope)
      ensures |candidates| == |old(candidates)| && forall id :: 0 <= id < |candidates| ==>
                candidates[id] == if Expires(old(candidates)[id], scope) then old(candidates)[id].(status := Expired)
                                  else old(candidates)[id]
      ensures forall i, j :: 0 <= i < j < |resolved| ==> resolved[i] < resolved[j]
    {
      NextIsReachable(Tables(), OnCandidate(DoExpire(scope)), ExpireCandidates(Tables(), scope));
      resolved := [];
      var i := 0;
      while i < |candidates|
        invariant 0 <= i <= |candidates| == |old(candidates)|
        invariant forall k :: 0 <= k < i ==> candidates[k] == ExpireCandidates(old(Tables()), scope).candidates[k]
        invariant forall k :: i <= k < |candidates| ==> candidates[k] == old(candidates)[k]
        invariant forall id: Id :: id in resolved <==> id < i && InScope(old(candidates)[id], scope)
        invariant forall k :: 0 <= k < |resolved| ==> resolved[k] < i
        invariant forall k, l :: 0 <= k < l < |resolved| ==> resolved[k] < resolved[l]
      {
        if InScope(candidates[i], scope) {
          candidates := candidates[i := candidates[i].(status := Expired)];
          resolved := resolved + [i];
        }
        i := i + 1;
      }
      assert candidates == ExpireCandidates(old(Tables()), scope).candidates;
    }

    // ----- card operations -----

    method CreatePaymentTerminalOperation(org: Org, session: Id, candidate: Option<Id>, amount: Money)
      returns (created: Result<Id, Refusal>)
      requires Valid()
      modifies this`operations, this`runs
      ensures Tables() == Committed(old(Tables()), StartOperation(old(Tables()), org, session, candidate, amount))
      ensures created == if NumbersUsedUp(old(operations), org) then Err(Conflict) else Ok(|old(operations)|)
      ensures created.Err? ==> Tables() == old(Tables())
      ensures created.Ok? ==> OperationStarted(old(Tables()), Tables(), org, session, candidate, amount)
    {
      StartOutcome(Tables(), org, session, candidate, amount);
      var latest := LatestOperation(operations, org);
      var current := 0;
      if latest.Some? {
        current := operations[latest.value].number;
      }
      if current >= MAX_OPERATION_NUMBER {
        return Err(Conflict);
      }
      var id := |operations|;
      operations := operations + [Operation(org, session, candidate, current + 1, amount, None, PENDING,
                                            NoTrail)];
      runs := runs[id := Queued];
      created := Ok(id);
    }

    /** At most one automatic start for a candidate and for a session. */
    method StartAutomaticCardPayment(org: Org, candidate: Id, session: Id, amount: Money)
      returns (started: Result<Id, Refusal>)
      requires Valid()
      modifies this`operations, this`runs
      ensures Valid()
      ensures Tables() == Committed(old(Tables()), StartAutomaticCard(old(Tables()), org, candidate, session, amount))
      ensures started.Ok? <==> MayStart(old(Tables()), org, candidate, session) && amount > 0
                               && !NumbersUsedUp(old(operations), org)
      ensures started.Ok? ==>
                && started.value == |old(operations)|
                && OperationStarted(old(Tables()), Tables(), org, session, Some(candidate), amount)
      ensures started.Err? ==> Tables() == old(Tables())
    {
      AutomaticStartOutcome(Tables(), org, candidate, session, amount);
      NextIsReachable(Tables(), OnCard(DoStartAutomaticCard(org, candidate, session, amount)),
                      Committed(Tables(), StartAutomaticCard(Tables(), org, candidate, session, amount)));
      if candidate >= |candidates| || candidates[candidate].org != org || !candidates[candidate].status.Pending? {
        return Err(Conflict);
      }
      if session >= |sessions| || sessions[session].org != org
         || !sessions[session].status.Active? || !sessions[session].source.Regular? {
        return Err(Conflict);
      }
      if amount == 0 {
        return Err(BadRequest);
      }
      if AlreadyStarted(operations, org, candidate, session) {
        return Err(Conflict);
      }
      started := CreatePaymentTerminalOperation(org, session, Some(candidate), amount);
    }

    method ExitManualByCard(org: Org, plate: string, amount: Money) returns (started: Result<Id, Refusal>)
      requires Valid()
      modifies this`operations, this`runs
      ensures Valid() && Tables() == Committed(old(Tables()), StartManualCard(old(Tables()), org, plate, amount))
      ensures started.Ok? <==> KeyTakenByActive(old(sessions), org, plate) && !NumbersUsedUp(old(operations), org)
      ensures started.Ok? ==>
                && started.value == |old(operations)| && |old(operations)| < |operations|
                && var session := operations[started.value].session;
                && ActiveSession(old(Tables()), org, session) && old(sessions)[session].plate == Some(plate)
                && OperationStarted(old(Tables()), Tables(), org, session, None, amount)
      ensures started.Err? ==> Tables() == old(Tables())
    {
      NextIsReachable(Tables(), OnCard(DoStartManualCard(org, plate, amount)),
                      Committed(Tables(), StartManualCard(Tables(), org, plate, amount)));
      NobodyActive(sessions, org, plate);
      var session := LatestActive(sessions, org, plate);
      if session.None? {
        return Err(NotFound);
      }
      started := CreatePaymentTerminalOperation(org, session.value, None, amount);
    }

    /** Only a refusal of the terminal may be retried, and the retry asks for the same again. */
    method RetryCardPayment(session: Id) returns (started: Result<Id, Refusal>)
      requires Valid()
      modifies this`operations, this`runs
      ensures Valid() && Tables() == Committed(old(Tables()), RetryCard(old(Tables()), session))
      ensures started.Ok? <==> CanRetry(old(Tables()), session)
      ensures started.Ok? ==>
                && started.value == |old(operations)|
                && forall last: Id :: IsLastOf(old(operations), session, sessions[session].org, last) ==>
                     OperationStarted(old(Tables()), Tables(), sessions[session].org, session,
                                      old(operations)[last].candidate, old(operations)[last].requested)
      ensures started.Err? ==> Tables() == old(Tables())
    {
      RetryOutcome(Tables(), session);
      CanRetryExactly(Tables(), session);
      NextIsReachable(Tables(), OnCard(DoRetryCard(session)), Committed(Tables(), RetryCard(Tables(), session)));
      if session >= |sessions| {
        return Err(NotFound);
      }
      if !sessions[session].status.Active? {
        return Err(Conflict);
      }
      var org := sessions[session].org;
      var last := LatestOfSession(operations, session, org);
      if last.None? {
        return Err(NotFound);
      }
      var latest := operations[last.value];
      if latest.status != DECLINED && latest.status != TIMEOUT {
        return Err(Conflict);
      }
      if latest.candidate.Some? {
        var refused := Openable(org, latest.candidate.value);
        if refused.Some? {
          return Err(Conflict);
        }
      }
      started := CreatePaymentTerminalOperation(org, session, latest.candidate, latest.requested);
    }

    // ----- the segments of a card run between its awaits -----

    method UpdateOperationWhileStatus(id: Id, status: OperationStatus, updated: Operation) returns (changed: bool)
      requires id < |operations|
      modifies this`operations
      ensures changed == (old(operations)[id].status == status)
      ensures operations == if changed then old(operations)[id := updated] else old(operations)
    {
      changed := operations[id].status == status;
      if changed {
        operations := operations[id := updated];
      }
    }

    method BeginRun(id: Id) returns (begun: bool)
      requires Valid() && At(Tables(), id, Queued)
      modifies this`runs
      ensures Valid() && Tables() == RunBegins(old(Tables()), id)
      ensures begun == (operations[id].status == PENDING)
    {
      NextIsReachable(Tables(), OnCard(DoRun(id, VrpDeclined, false, 0)), RunBegins(Tables(), id));
      begun := operations[id].status == PENDING;
      runs := if begun then runs[id := AwaitVrp] else runs - {id};
    }

    /** The answer to VRP. */
    method SavePayment(id: Id, result: VrpResult) returns (approved: bool)
      requires Valid() && At(Tables(), id, AwaitVrp)
      modifies this`operations, this`runs
      ensures Valid() && Tables() == VrpAnswered(old(Tables()), id, result)
      ensures approved == (old(operations)[id].status == PENDING && result.VrpApproved? && result.amount > 0)
      ensures approved ==> operations[id].approved == Some(result.amount) && operations[id].status == APPROVED
      ensures !approved ==> operations[id].approved == old(operations)[id].approved
      ensures !approved ==> operations[id].status == if old(operations)[id].status == PENDING
                                                     then RefusedStatus(result) else old(operations)[id].status
      ensures OnlyRow(old(operations), operations, id) && SameIdentity(old(operations)[id], operations[id])
      ensures operations[id].trail == old(operations)[id].trail
    {
      VrpOutcome(Tables(), id, result);
      NextIsReachable(Tables(), OnCard(DoRun(id, result, false, 0)), VrpAnswered(Tables(), id, result));
      var o := operations[id].(status := VrpStatus(result));
      if o.status == APPROVED {
        o := o.(approved := Some(result.amount));
      }
      var saved := UpdateOperationWhileStatus(id, PENDING, o);
      approved := saved && o.status == APPROVED;
      runs := if approved then runs[id := BeforeFin(1)] else runs - {id};
    }

    /** What a FIN that was sent adds to a trail. */
    static function AfterSend(trail: Trail, taken: bool): Trail {
      trail.(finRequests := trail.finRequests + 1, finTaken := trail.finTaken || taken)
    }

    /** A turn of the FIN loop reads the row. */
    method CheckFin(id: Id, attempt: nat) returns (approved: bool)
      requires Valid() && At(Tables(), id, BeforeFin(attempt))
      modifies this`runs
      ensures Valid() && Tables() == FinChecked(old(Tables()), id, attempt)
      ensures approved == (operations[id].status == APPROVED)
    {
      NextIsReachable(Tables(), OnCard(DoRun(id, VrpDeclined, false, 0)), FinChecked(Tables(), id, attempt));
      approved := operations[id].status == APPROVED;
      runs := if approved then runs[id := ReadyForFin(attempt)] else runs - {id};
    }

    /** Connected, it sends, whatever the row reads by now. */
    method SendFin(id: Id, attempt: nat, taken: bool)
      requires Valid() && At(Tables(), id, ReadyForFin(attempt))
      modifies this`operations, this`runs
      ensures Valid() && Tables() == FinSent(old(Tables()), id, attempt, taken)
    {
      NextIsReachable(Tables(), OnCard(DoRun(id, VrpDeclined, taken, 0)), FinSent(Tables(), id, attempt, taken));
      operations := operations[id := operations[id].(trail := AfterSend(operations[id].trail, taken))];
      runs := runs[id := AwaitFin(attempt)];
    }

    method ReceiveFin(id: Id, attempt: nat, confirmed: bool)
      requires Valid() && At(Tables(), id, AwaitFin(attempt))
      modifies this`operations, this`runs
      ensures Valid() && Tables() == FinAnswered(old(Tables()), id, attempt, confirmed)
    {
      NextIsReachable(Tables(), OnCard(DoRun(id, VrpDeclined, confirmed, 0)),
                      FinAnswered(Tables(), id, attempt, confirmed));
      if confirmed {
        operations := operations[id := Confirm(operations[id])];
        runs := runs[id := Confirmed];
      } else if attempt < FIN_ATTEMPTS {
        runs := runs[id := BeforeFin(attempt + 1)];
      } else {
        runs := runs[id := Exhausted];
      }
    }

    method Settle(row: Id, how: ExitMethod, at: int)
      requires row < |operations| && operations[row].session < |sessions|
      modifies this`sessions, this`operations, this`payments
      ensures Tables() == SettleAt(old(Tables()), row, how, at)
    {
      var o := operations[row];
      operations := operations[row := o.(status := FIN_CONFIRMED)];
      var amount := ApprovedAmount(o);
      var session := sessions[o.session];
      sessions := sessions[o.session := CloseSession(session, at, amount, how).(paymentMethod := Card)];
      InsertPayment(session.org, o.session, amount, Card);
    }

    method SettleForCandidate(row: Id, cid: Id, resolution: Resolution, at: int)
      requires row < |operations| && operations[row].session < |sessions| && cid < |candidates|
      modifies this`sessions, this`operations, this`payments, this`candidates
      ensures Tables() == SetCandidate(SettleAt(old(Tables()), row, Auto, at), cid,
                                       old(candidates)[cid].(status := Accepted, resolution := Some(resolution),
                                                             resolvedSession := Some(old(operations)[row].session)))
    {
      var session := operations[row].session;
      Settle(row, Auto, at);
      var accepted := candidates[cid].(status := Accepted, resolution := Some(resolution));
      candidates := candidates[cid := accepted.(resolvedSession := Some(session))];
    }

    /** Either stale, with nothing written yet, or settled. */
    method CompleteCardPaymentForCandidate(id: Id, at: int) returns (stale: bool)
      requires Valid() && At(Tables(), id, Confirmed) && operations[id].candidate.Some?
      modifies this
      ensures Valid() && Tables() == CompleteForCandidate(old(Tables()), id, at)
      ensures if stale then At(Tables(), id, StaleFound) && operations == old(operations)
              else
                && id !in runs && operations[id] == old(operations)[id].(status := FIN_CONFIRMED)
                && operations[id].approved.Some? && PaidByCard(Tables(), id, operations[id].approved.value, at)
    {
      CompletedForCandidate(Tables(), id, at);
      NextIsReachable(Tables(), OnCard(DoRun(id, VrpDeclined, false, at)), CompleteForCandidate(Tables(), id, at));
      CompletionFindsRows(Tables(), id);
      var found := OperationByNumber(operations, operations[id].org, operations[id].number);
      var row := found.value;
      var o := operations[row];
      var cid := o.candidate.value;
      var candidate := candidates[cid];
      if !candidate.status.Pending? || !sessions[o.session].status.Active? {
        runs := runs[id := StaleFound];
        return true;
      }
      if o.status != APPROVED {
        assert false;
      }
      var resolution := if candidate.matchedSession == Some(o.session) then Exact else Reassigned;
      SettleForCandidate(row, cid, resolution, at);
      runs := runs - {id};
      stale := false;
    }

    method CompleteManualCardPayment(id: Id, at: int)
      requires Valid() && At(Tables(), id, Confirmed) && operations[id].candidate.None?
      modifies this
      ensures Valid() && Tables() == CompleteManual(old(Tables()), id, at)
      ensures id !in runs && id < |operations| && SameRun(old(operations)[id], operations[id])
      ensures operations[id].status == FIN_CONFIRMED ==>
                operations[id].approved.Some? && PaidByCard(Tables(), id, operations[id].approved.value, at)
    {
      CompletedManually(Tables(), id, at);
      NextIsReachable(Tables(), OnCard(DoRun(id, VrpDeclined, false, at)), CompleteManual(Tables(), id, at));
      CompletionFindsSession(Tables(), id);
      var o := operations[id];
      runs := runs - {id};
      if o.status != APPROVED {
        return;
      }
      if !sessions[o.session].status.Active? {
        operations := operations[id := o.(status := STALE_IGNORED, trail := o.trail.(reconciliationLogged := true))];
        return;
      }
      Settle(id, Manual, at);
    }

    method MarkOperationStale(id: Id)
      requires Valid() && At(Tables(), id, StaleFound)
      modifies this`operations, this`runs
      ensures Valid() && At(Tables(), id, StaleLogging) && Tables() == MarkStale(old(Tables()), id)
      ensures SameRun(old(operations)[id], operations[id]) && operations[id].status == STALE_IGNORED
    {
      NextIsReachable(Tables(), OnCard(DoRun(id, VrpDeclined, false, 0)), MarkStale(Tables(), id));
      StaleIsMarked(Tables(), id);
      var o := operations[id];
      var updated := o.status == APPROVED || o.status == ABORTED;
      operations := if updated then operations[id := o.(status := STALE_IGNORED)] else operations;
      runs := if updated then runs[id := StaleLogging] else runs - {id};
    }

    method MarkOperationFinFailed(id: Id) returns (failureSaved: bool)
      requires Valid() && At(Tables(), id, Exhausted)
      modifies this`operations, this`runs
      ensures Valid() && Tables() == MarkFinFailed(old(Tables()), id)
      ensures failureSaved == At(Tables(), id, FailureLogging) && SameRun(old(operations)[id], operations[id])
      ensures !failureSaved ==> id !in runs && operations == old(operations)
      ensures failureSaved ==> operations[id].status == FIN_FAILED
    {
      NextIsReachable(Tables(), OnCard(DoRun(id, VrpDeclined, false, 0)), MarkFinFailed(Tables(), id));
      failureSaved := UpdateOperationWhileStatus(id, APPROVED, operations[id].(status := FIN_FAILED));
      runs := if failureSaved then runs[id := FailureLogging] else runs - {id};
    }

    method LogManualReconciliation(id: Id)
      requires Valid() && (At(Tables(), id, StaleLogging) || At(Tables(), id, FailureLogging))
      modifies this`operations, this`runs
      ensures Valid() && Tables() == LogReconciliation(old(Tables()), id)
      ensures id !in runs && SameRun(old(operations)[id], operations[id])
      ensures operations[id].status == old(operations)[id].status
    {
      NextIsReachable(Tables(), OnCard(DoRun(id, VrpDeclined, false, 0)), LogReconciliation(Tables(), id));
      operations := operations[id := operations[id].(trail := operations[id].trail.(reconciliationLogged := true))];
      runs := runs - {id};
    }

    // ----- a whole card run -----

    /** A final status is reported; others run before the log row is written. */
    method AwaitAndLog(id: Id, phase: Phase, others: seq<Step>)
      requires Valid() && At(Tables(), id, phase) && (phase == StaleLogging || phase == FailureLogging)
      requires operations[id].status == STALE_IGNORED || operations[id].status == FIN_FAILED
      requires forall k :: 0 <= k < |others| ==> Leaves(others[k], id)
      modifies this
      ensures Valid() && id !in runs && id < |operations| && SameRun(old(operations)[id], operations[id])
      ensures operations[id].status == old(operations)[id].status
    {
      AwaitAt(id, phase, others);
      LogManualReconciliation(id);
    }

    /** A stale payment is marked and reported; others run between the two. */
    method ReportStale(id: Id, others: nat -> seq<Step>)
      requires Valid() && At(Tables(), id, StaleFound)
      requires forall k: nat, i :: 0 <= i < |others(k)| ==> Leaves(others(k)[i], id)
      modifies this
      ensures Valid() && id !in runs && id < |operations| && SameRun(old(operations)[id], operations[id])
      ensures operations[id].status != FIN_CONFIRMED
    {
      AwaitAt(id, StaleFound, others(13));
      MarkOperationStale(id);
      AwaitAndLog(id, StaleLogging, others(14));
    }

    /** A confirmed payment is completed; others run between the segments. */
    method CompleteRun(id: Id, at: int, others: nat -> seq<Step>)
      requires Valid() && At(Tables(), id, Confirmed)
      requires forall k: nat, i :: 0 <= i < |others(k)| ==> Leaves(others(k)[i], id)
      modifies this
      ensures Valid() && id !in runs && id < |operations| && SameRun(old(operations)[id], operations[id])
      ensures operations[id].status == FIN_CONFIRMED ==>
                operations[id].approved.Some? && PaidByCard(Tables(), id, operations[id].approved.value, at)
    {
      AwaitRun(id, others(12));
      if operations[id].candidate.None? {
        CompleteManualCardPayment(id, at);
        return;
      }
      var stale := CompleteCardPaymentForCandidate(id, at);
      if stale {
        ReportStale(id, others);
      }
    }

    /** Three attempts without a confirmation are reported, unless an abort came first. */
    method FailRun(id: Id, others: nat -> seq<Step>)
      requires Valid() && At(Tables(), id, Exhausted)
      requires forall k: nat, i :: 0 <= i < |others(k)| ==> Leaves(others(k)[i], id)
      modifies this
      ensures Valid() && id !in runs && id < |operations| && SameRun(old(operations)[id], operations[id])
      ensures operations[id].status != FIN_CONFIRMED
    {
      AwaitAt(id, Exhausted, others(12));
      RunFacts(id);
      var failureSaved := MarkOperationFinFailed(id);
      if failureSaved {
        AwaitAndLog(id, FailureLogging, others(13));
      }
    }

    /** What one FIN and its answer add to a trail. */
    static function AfterFin(trail: Trail, fin: FinAnswer): Trail {
      trail.(finRequests := trail.finRequests + 1,
             finTaken := trail.finTaken || fin.taken || fin.received,
             finConfirmed := trail.finConfirmed || fin.received)
    }

    method ConnectAndSendFin(id: Id, attempt: nat, taken: bool, connecting: seq<Step>)
      requires Valid() && At(Tables(), id, ReadyForFin(attempt))
      requires forall k :: 0 <= k < |connecting| ==> Leaves(connecting[k], id)
      modifies this
      ensures Valid() && At(Tables(), id, AwaitFin(attempt)) && SameCharge(old(operations)[id], operations[id])
      ensures operations[id].trail == AfterSend(old(operations)[id].trail, taken)
    {
      AwaitRun(id, connecting);
      SendFin(id, attempt, taken);
    }

    /** The FIN of a ready run and its answer: nothing others do keeps it from being sent. */
    method DeliverFin(id: Id, attempt: nat, fin: FinAnswer, connecting: seq<Step>, during: seq<Step>)
      requires Valid() && At(Tables(), id, ReadyForFin(attempt))
      requires forall k :: 0 <= k < |connecting| ==> Leaves(connecting[k], id)
      requires forall k :: 0 <= k < |during| ==> Leaves(during[k], id)
      modifies this
      ensures Valid() && id < |operations| && SameCharge(old(operations)[id], operations[id])
      ensures operations[id].trail == AfterFin(old(operations)[id].trail, fin)
      ensures id in runs && runs[id] == NextPhase(attempt, fin.received)
    {
      ConnectAndSendFin(id, attempt, fin.taken, connecting);
      AwaitRun(id, during);
      assert At(Tables(), id, AwaitFin(attempt));
      ReceiveFin(id, attempt, fin.received);
    }

    /** Others run, and a turn of the FIN loop reads the row: it goes ahead exactly when that reads APPROVED. */
    method AwaitAndCheckFin(id: Id, attempt: nat, before: seq<Step>) returns (approved: bool)
      requires Valid() && At(Tables(), id, BeforeFin(attempt))
      requires forall k :: 0 <= k < |before| ==> Leaves(before[k], id)
      modifies this
      ensures Valid() && id < |operations| && SameCharge(old(operations)[id], operations[id])
      ensures operations[id].trail == old(operations)[id].trail
      ensures approved <==> ReadsStatus(Run(old(Tables()), before), id, APPROVED)
      ensures if approved then At(Tables(), id, ReadyForFin(attempt))
              else id !in runs && operations[id].status == ABORTED
    {
      SuspendedRunWaits(Tables(), before, id);
      Await(before);
      RunFacts(id);
      approved := CheckFin(id, attempt);
    }

    /** One turn of the FIN loop, awaits included: others run before the row is read, while the run connects, and
        before the answer. After the read nothing stops its FIN. */
    method FinTurn(id: Id, attempt: nat, fin: FinAnswer, before: seq<Step>, connecting: seq<Step>, during: seq<Step>)
      returns (went: bool)
      requires Valid() && At(Tables(), id, BeforeFin(attempt))
      requires forall k :: 0 <= k < |before| ==> Leaves(before[k], id)
      requires forall k :: 0 <= k < |connecting| ==> Leaves(connecting[k], id)
      requires forall k :: 0 <= k < |during| ==> Leaves(during[k], id)
      modifies this
      ensures Valid() && id < |operations| && SameCharge(old(operations)[id], operations[id])
      ensures went ==>
                && operations[id].trail == AfterFin(old(operations)[id].trail, fin)
                && id in runs && runs[id] == NextPhase(attempt, fin.received)
      ensures !went ==>
                && operations[id].trail == old(operations)[id].trail
                && id !in runs && operations[id].status == ABORTED
    {
      went := AwaitAndCheckFin(id, attempt, before);
      if went {
        DeliverFin(id, attempt, fin, connecting, during);
      }
    }

    static predicate ReadsStatus(st: State, id: Id, status: OperationStatus) {
      id < |st.operations| && st.operations[id].status == status
    }

    static function NextPhase(attempt: nat, confirmed: bool): Phase {
      if confirmed then Phase.Confirmed else if attempt < FIN_ATTEMPTS then BeforeFin(attempt + 1) else Exhausted
    }

    /** Before the given attempt of the FIN loop. */
    ghost predicate InFinLoop(first: Operation, id: Id, fins: seq<FinAnswer>, attempt: nat, confirmed: bool)
      requires 1 <= attempt <= |fins| + 1
      reads this
    {
      && Valid() && id < |operations| && SameCharge(first, operations[id]) && id in runs
      && !operations[id].trail.lost && operations[id].trail.finConfirmed == confirmed
      && FinsSent(operations[id].trail, fins, attempt - 1)
      && runs[id] == if attempt == 1 then BeforeFin(1) else NextPhase(attempt - 1, confirmed)
    }

    method FinAttempt(ghost first: Operation, id: Id, fins: seq<FinAnswer>, attempt: nat, others: nat -> seq<Step>)
      returns (went: bool)
      requires 1 <= attempt <= FIN_ATTEMPTS == |fins| && InFinLoop(first, id, fins, attempt, false)
      requires forall k: nat, i :: 0 <= i < |others(k)| ==> Leaves(others(k)[i], id)
      modifies this
      ensures went ==> InFinLoop(first, id, fins, attempt + 1, fins[attempt - 1].received)
      ensures !went ==>
                && Valid() && id < |operations| && SameCharge(first, operations[id]) && id !in runs
                && operations[id].status == ABORTED && FinsSent(operations[id].trail, fins, attempt - 1)
                && !operations[id].trail.finConfirmed && !operations[id].trail.lost
    {
      FinsSentOneMore(operations[id].trail, fins, attempt - 1);
      went := FinTurn(id, attempt, fins[attempt - 1], others(3 * attempt), others(3 * attempt + 1),
                      others(3 * attempt + 2));
    }

    /** The FIN loop of an approved operation. */
    method FinalizePayment(id: Id, fins: seq<FinAnswer>, others: nat -> seq<Step>) returns (sent: nat)
      requires Valid() && At(Tables(), id, BeforeFin(1)) && |fins| == FIN_ATTEMPTS
      requires forall k: nat, i :: 0 <= i < |others(k)| ==> Leaves(others(k)[i], id)
      modifies this
      ensures Valid() && id < |operations| && SameCharge(old(operations)[id], operations[id])
      ensures sent <= FIN_ATTEMPTS && FinsSent(operations[id].trail, fins, sent) && !operations[id].trail.lost
      ensures id !in runs ==> operations[id].status == ABORTED && !operations[id].trail.finConfirmed
      ensures id in runs ==> sent > 0 && runs[id] == NextPhase(FIN_ATTEMPTS, operations[id].trail.finConfirmed)
      ensures id in runs && !operations[id].trail.finConfirmed ==> sent == FIN_ATTEMPTS
    {
      RunFacts(id);
      var attempt := 1;
      var confirmed := false;
      while attempt <= FIN_ATTEMPTS && !confirmed
        invariant 1 <= attempt <= FIN_ATTEMPTS + 1 && (attempt == 1 ==> !confirmed)
        invariant InFinLoop(old(operations)[id], id, fins, attempt, confirmed)
        decreases FIN_ATTEMPTS + 1 - attempt
      {
        var went := FinAttempt(old(operations)[id], id, fins, attempt, others);
        if !went {
          return attempt - 1;
        }
        confirmed := fins[attempt - 1].received;
        attempt := attempt + 1;
      }
      sent := attempt - 1;
    }

    lemma RunFacts(id: Id)
      requires Valid() && id in runs
      ensures id < |operations| && !operations[id].trail.lost
      ensures runs[id] == Queued || runs[id] == AwaitVrp || runs[id] == BeforeFin(1) ==>
                operations[id].trail == NoTrail
      ensures runs[id] == Queued || runs[id] == AwaitVrp ==> operations[id].status in {PENDING, ABORTED}
      ensures runs[id].BeforeFin? || runs[id].Confirmed? || runs[id].Exhausted? ==>
                operations[id].status in {APPROVED, ABORTED} && operations[id].approved.Some?
    {
      ReachableKeepsInv(Tables());
      assert PhaseOk(operations[id], PhaseOf(runs, id));
    }

    /** What the FIN loop leaves behind: it stops at the first confirmation received. */
    static predicate FinsSent(trail: Trail, fins: seq<FinAnswer>, sent: nat)
      requires sent <= |fins|
    {
      && trail.finRequests == sent
      && (forall k :: 0 <= k < sent - 1 ==> !fins[k].received)
      && trail.finConfirmed == (sent > 0 && fins[sent - 1].received)
      && trail.finTaken == exists k :: 0 <= k < sent && (fins[k].taken || fins[k].received)
    }

    static lemma FinsSentOneMore(trail: Trail, fins: seq<FinAnswer>, sent: nat)
      requires sent < |fins| && FinsSent(trail, fins, sent) && !trail.finConfirmed
      ensures FinsSent(AfterFin(trail, fins[sent]), fins, sent + 1)
    {
    }

    /** Up to the saved answer to VRP. */
    method StartPayment(id: Id, vrp: VrpResult, during: seq<Step>) returns (approved: bool)
      requires Valid() && At(Tables(), id, Queued) && forall k :: 0 <= k < |during| ==> Leaves(during[k], id)
      modifies this
      ensures Valid() && id < |operations| && SameIdentity(old(operations)[id], operations[id])
      ensures operations[id].trail == NoTrail
      ensures approved ==> At(Tables(), id, BeforeFin(1)) && vrp.VrpApproved? && vrp.amount > 0
      ensures approved ==> operations[id].approved == Some(vrp.amount)
      ensures !approved ==> id !in runs && VrpRefused(operations[id].status, vrp)
    {
      RunFacts(id);
      approved := BeginRun(id);
      if approved {
        AwaitRun(id, during);
        RunFacts(id);
        approved := SavePayment(id, vrp);
      }
    }

    /** How an operation ends that never got to FIN. */
    static predicate VrpRefused(status: OperationStatus, vrp: VrpResult) {
      status == ABORTED || (!(vrp.VrpApproved? && vrp.amount > 0) && status == RefusedStatus(vrp))
    }

    /** The FIN loop and what follows it. */
    method FinishPayment(id: Id, fins: seq<FinAnswer>, at: int, others: nat -> seq<Step>) returns (sent: nat)
      requires Valid() && At(Tables(), id, BeforeFin(1)) && |fins| == FIN_ATTEMPTS
      requires forall k: nat, i :: 0 <= i < |others(k)| ==> Leaves(others(k)[i], id)
      modifies this
      ensures Valid() && id !in runs && id < |operations| && SameCharge(old(operations)[id], operations[id])
      ensures sent <= FIN_ATTEMPTS && FinsSent(operations[id].trail, fins, sent) && !operations[id].trail.lost
      ensures operations[id].status == ABORTED || operations[id].trail.finConfirmed || sent == FIN_ATTEMPTS
      ensures operations[id].status == FIN_CONFIRMED ==>
                operations[id].approved.Some? && PaidByCard(Tables(), id, operations[id].approved.value, at)
    {
      sent := FinalizePayment(id, fins, others);
      if id !in runs {
        return;
      }
      ghost var trail := operations[id].trail;
      if operations[id].trail.finConfirmed {
        CompleteRun(id, at, others);
      } else {
        FailRun(id, others);
      }
      assert SameFins(trail, operations[id].trail);
    }

    static predicate SameFins(t: Trail, t': Trail) {
      && t'.finRequests == t.finRequests && t'.finTaken == t.finTaken
      && t'.finConfirmed == t.finConfirmed && t'.lost == t.lost
    }

    /** The whole run of a card operation, whatever the terminal answers and whatever others do at its awaits, short of
        a restart. When no FIN was sent, the operation was aborted or holds the answer to VRP; when one was, it is
        accounted for exactly when it was not aborted, and a confirmation received for a candidate always is. */
    method ProcessCardPaymentOperation(id: Id, vrp: VrpResult, fins: seq<FinAnswer>, at: int, others: nat -> seq<Step>)
      returns (sent: nat)
      requires Valid() && At(Tables(), id, Queued) && |fins| == FIN_ATTEMPTS
      requires forall k: nat, i :: 0 <= i < |others(k)| ==> Leaves(others(k)[i], id)
      modifies this
      ensures Valid() && id !in runs && id < |operations| && SameIdentity(old(operations)[id], operations[id])
      ensures sent <= FIN_ATTEMPTS && FinsSent(operations[id].trail, fins, sent)
      ensures sent == 0 ==> VrpRefused(operations[id].status, vrp)
      ensures sent > 0 ==> vrp.VrpApproved? && vrp.amount > 0 && operations[id].approved == Some(vrp.amount)
      ensures operations[id].status == FIN_CONFIRMED ==>
                && sent > 0 && PaidByCard(Tables(), id, vrp.amount, at)
                && OnlyPayment(payments, operations[id].session, vrp.amount)
      ensures sent > 0 ==> (Accounted(Tables(), operations[id]) <==> operations[id].status != ABORTED)
      ensures operations[id].candidate.Some? && operations[id].trail.finConfirmed ==> Settled(Tables(), operations[id])
      ensures operations[id].status == FIN_FAILED ==> sent == 3 && !operations[id].trail.finConfirmed
    {
      var approved := StartPayment(id, vrp, others(0));
      if !approved {
        return 0;
      }
      sent := FinishPayment(id, fins, at, others);
      if sent > 0 {
        FinIsAccountedUnlessAborted(Tables(), id);
      }
      if operations[id].status == FIN_CONFIRMED {
        ghost var amount := ConfirmedAmount(Tables(), id);
      }
    }

    // ----- aborts -----

    method ReadAbortTarget(intent: Intent) returns (chosen: Option<Id>)
      requires Valid() && intent in intents && !intent.AbortChosen?
      modifies this`intents
      ensures Valid() && Tables() == ChooseAbort(old(Tables()), intent)
      ensures match chosen
              case Some(id) =>
                && IsLastMeant(operations, intent, id)
                && intents == old(intents) - multiset{intent} + multiset{AbortChosen(id)}
              case None =>
                && (forall id: Id :: !IsLastMeant(operations, intent, id))
                && intents == old(intents) - multiset{intent}
    {
      AbortChoice(Tables(), intent);
      TargetIsLastMeant(operations, intent);
      NextIsReachable(Tables(), OnCard(DoChooseAbort(intent)), ChooseAbort(Tables(), intent));
      intents := intents - multiset{intent};
      chosen := LatestTarget(operations, intent);
      if chosen.Some? {
        intents := intents + multiset{AbortChosen(chosen.value)};
      }
    }

    method AbortOperation(id: Id) returns (updated: bool)
      requires Valid() && AbortChosen(id) in intents
      modifies this`intents, this`operations
      ensures Valid() && Tables() == ApplyAbort(old(Tables()), id)
      ensures updated <==> id < |operations| && old(operations)[id].status in {PENDING, APPROVED}
      ensures updated ==> OnlyRow(old(operations), operations, id)
                          && operations[id] == old(operations)[id].(status := ABORTED)
      ensures !updated ==> operations == old(operations)
      ensures intents == old(intents) - multiset{AbortChosen(id)}
    {
      NextIsReachable(Tables(), OnCard(DoApplyAbort(id)), ApplyAbort(Tables(), id));
      intents := intents - multiset{AbortChosen(id)};
      updated := id < |operations| && (operations[id].status == PENDING || operations[id].status == APPROVED);
      if updated {
        operations := operations[id := operations[id].(status := ABORTED)];
      }
    }

    /** One row of the startup loop, if it still reads as it was selected. */
    method MarkOperationOrphaned(id: Id, selected: OperationStatus) returns (updated: bool)
      requires Valid() && id < preRestart && id < |operations| && (selected == PENDING || selected == APPROVED)
      modifies this`operations
      ensures Valid() && Tables() == MarkOrphaned(old(Tables()), id, selected)
      ensures updated == (old(operations)[id].status == selected)
      ensures updated ==> operations == old(operations)[id := old(operations)[id].(status := ORPHANED)]
    {
      NextIsReachable(Tables(), OnCard(DoMarkOrphaned(id, selected)), MarkOrphaned(Tables(), id, selected));
      updated := UpdateOperationWhileStatus(id, selected, operations[id].(status := ORPHANED));
    }

    /** One turn: others run before the update, and before the log row of a marked operation. */
    method OrphanTurn(rows: seq<Operation>, id: Id, ghost done: seq<Id>, ghost logged: seq<Id>, before: seq<Step>,
                      logging: seq<Step>) returns (updated: bool)
      requires Valid() && TurnsTaken(rows, operations, preRestart, done, logged)
      requires id < preRestart && id !in done && id !in logged && AbortOpen(rows[id])
      requires forall k :: 0 <= k < |before| ==> DuringStartup(before[k])
      requires forall k :: 0 <= k < |logging| ==> DuringStartup(logging[k])
      modifies this
      ensures Valid() && preRestart == old(preRestart)
      ensures TurnsTaken(rows, operations, preRestart, done + [id], if updated then logged + [id] else logged)
    {
      ghost var first := operations;
      AwaitStartup(before);
      TurnsStayTaken(rows, first, operations, preRestart, done, logged);
      OneMoreTurn(rows, operations, preRestart, done, logged, id);
      updated := MarkOperationOrphaned(id, rows[id].status);
      if updated {
        ghost var marked := operations;
        AwaitStartup(logging);
        TurnsStayTaken(rows, marked, operations, preRestart, done + [id], logged + [id]);
      }
    }

    /** The startup loop over the operations of earlier processes that are old enough, those below `aged`. The open ones
        are selected once; others run at every await. A selected row ends marked and logged if it still reads as
        selected at its turn, and ABORTED otherwise. Others' rows change at most by an abort. */
    method MarkOrphanedOperations(aged: Id, others: nat -> seq<Step>) returns (logged: seq<Id>)
      requires Valid() && aged <= preRestart
      requires forall k: nat, i :: 0 <= i < |others(k)| ==> DuringStartup(others(k)[i])
      modifies this
      ensures Valid() && preRestart == old(preRestart)
      ensures TurnsTaken(old(operations), operations, preRestart, OpenBelow(old(operations), aged), logged)
      ensures SelectedFrom(logged, OpenBelow(old(operations), aged))
    {
      OldRowsExist(Tables());
      var selected, rows := OpenBelow(operations, aged), operations;
      var i := 0;
      logged := [];
      while i < |selected|
        invariant Valid() && 0 <= i <= |selected| && preRestart == old(preRestart)
        invariant TurnsTaken(rows, operations, preRestart, selected[..i], logged)
        invariant SelectedFrom(logged, selected[..i])
      {
        SelectedOneMore(rows, aged, i, logged);
        var id := selected[i];
        var updated := OrphanTurn(rows, id, selected[..i], logged, others(2 * i), others(2 * i + 1));
        logged := if updated then logged + [id] else logged;
        i := i + 1;
      }
      assert selected[..i] == selected;
    }
  }
}
