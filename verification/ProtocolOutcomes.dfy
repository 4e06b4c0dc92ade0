/** What single transactions mean to their callers: when they are refused, what they settle, what undoes them. */
module ProtocolOutcomes {
  import opened Wrappers
  import opened Protocol
  import opened ProtocolInvariants

  // ----- rows, field by field -----

  /** Of a table only the given row changes. */
  ghost predicate OnlyRow<T>(rows: seq<T>, rows': seq<T>, id: Id) {
    id < |rows| == |rows'| && forall i :: 0 <= i < |rows| && i != id ==> rows'[i] == rows[i]
  }

  /** The row of a car that has just come in. */
  predicate IsEntered(s: Session, org: Org, plate: string, at: int, source: SessionSource) {
    s == Session(org, Some(plate), at, None, Active, source, None, Cash, None, Some((org, plate)))
  }

  /** The row of a car that has left. */
  predicate IsClosed(s: Session, s': Session, at: int, amount: Money, how: ExitMethod, means: PaymentMethod) {
    s' == Session(s.org, s.plate, s.enteredAt, Some(at), Completed, s.source, Some(amount), means, Some(how), None)
  }

  /** One session is closed for nothing, and the ledger is left alone. */
  ghost predicate ClosedForNothing(st: State, st': State, id: Id, at: int, how: ExitMethod, means: PaymentMethod) {
    && OnlyRow(st.sessions, st'.sessions, id) && IsClosed(st.sessions[id], st'.sessions[id], at, 0, how, means)
    && st'.payments == st.payments
  }

  /** One session is closed with its first and only payment. */
  ghost predicate ClosedAndPaid(st: State, st': State, id: Id, at: int, amount: Money, how: ExitMethod,
                                means: PaymentMethod, paidBy: PaymentMethod) {
    && OnlyRow(st.sessions, st'.sessions, id) && IsClosed(st.sessions[id], st'.sessions[id], at, amount, how, means)
    && st'.payments == st.payments + [Payment(st.sessions[id].org, id, amount, paidBy)]
    && !Paid(st.payments, id)
  }

  lemma InsideIsUnpaid(st: State, session: Id)
    requires Reachable(st) && session < |st.sessions| && Inside(st.sessions[session])
    ensures !Paid(st.payments, session)
  {
    ReachableKeepsInv(st);
    ActiveIsUnpaid(st, session);
  }

  // ----- entry -----

  /** A legacy row of the plate still waits for its payment. */
  ghost predicate AwaitsPayment(ss: seq<Session>, org: Org, plate: string) {
    exists i :: 0 <= i < |ss| && ss[i].org == org && ss[i].plate == Some(plate) && ss[i].status.AwaitingPayment?
  }

  /** A car of the plate that never left is closed for nothing; all other rows stay. */
  ghost predicate StaleClosed(ss: seq<Session>, ss': seq<Session>, org: Org, plate: string, now: int) {
    |ss| <= |ss'| && forall i :: 0 <= i < |ss| ==>
      if IsActiveWith(ss[i], org, plate)
      then IsClosed(ss[i], ss'[i], now, 0, AutoClosedOnReentry, ss[i].paymentMethod)
      else ss'[i] == ss[i]
  }

  /** The car has entered: a new row, and an older one of the plate closed. */
  ghost predicate Entered(ss: seq<Session>, ss': seq<Session>, org: Org, plate: string, now: int, at: int,
                          source: SessionSource) {
    |ss'| == |ss| + 1 && IsEntered(ss'[|ss|], org, plate, at, source) && StaleClosed(ss, ss', org, plate, now)
  }

  lemma StaleCloseOutcome(st: State, org: Org, plate: string, now: int)
    requires Reachable(st)
    ensures var st' := CloseStaleOnReentry(st, org, plate, now);
            && |st'.sessions| == |st.sessions| && StaleClosed(st.sessions, st'.sessions, org, plate, now)
            && !KeyTakenByActive(st'.sessions, org, plate) && st' == st.(sessions := st'.sessions)
  {
    ReachableKeepsInv(st);
    CloseStaleKeepsInv(st, org, plate, now);
    var active := LatestActive(st.sessions, org, plate);
    forall i, j | 0 <= i < |st.sessions| && 0 <= j < |st.sessions| && i != j
                  && IsActiveWith(st.sessions[i], org, plate)
      ensures !IsActiveWith(st.sessions[j], org, plate)
    {
      assert KeyMatchesStatus(st.sessions[i]) && KeyMatchesStatus(st.sessions[j]);
    }
  }

  ghost predicate KeyTakenByActive(ss: seq<Session>, org: Org, plate: string) {
    exists i :: 0 <= i < |ss| && IsActiveWith(ss[i], org, plate)
  }

  /** Once the stale session is closed, a plate is inside or its key taken only by a legacy row. */
  lemma OnlyLegacyIsInside(st: State, org: Org, plate: string, now: int)
    requires Reachable(st)
    ensures var closed := CloseStaleOnReentry(st, org, plate, now);
            && (ExactInside(closed.sessions, org, plate).Some? <==> AwaitsPayment(st.sessions, org, plate))
            && (KeyTaken(closed.sessions, (org, plate)) ==> AwaitsPayment(st.sessions, org, plate))
  {
    var closed := CloseStaleOnReentry(st, org, plate, now);
    StaleCloseOutcome(st, org, plate, now);
    AwaitingUntouched(st.sessions, closed.sessions, org, plate, now);
    NextIsReachable(st, OnSession(DoCloseStale(org, plate, now)), closed);
    FreePlateHasNoKey(closed, org, plate);
  }

  /** Apart from the policy checks, an entry is refused exactly for an empty plate and for a plate with a legacy
      row that waits for its payment; a car that never left is no obstacle. */
  lemma EntryOutcome(st: State, org: Org, plate: string, now: int, at: int, source: SessionSource,
                     policy: Option<Refusal>)
    requires Reachable(st)
    ensures var r := CreateEntry(st, org, plate, now, at, source, policy);
            if plate == "" then r == Err(BadRequest)
            else if policy.Some? then r == Err(policy.value)
            else if AwaitsPayment(st.sessions, org, plate) then r == Err(Conflict)
            else
              && r.Ok? && r.value == st.(sessions := r.value.sessions)
              && Entered(st.sessions, r.value.sessions, org, plate, now, at, source)
  {
    StaleCloseOutcome(st, org, plate, now);
    OnlyLegacyIsInside(st, org, plate, now);
  }

  /** When a camera event lets its car in. */
  ghost predicate Admitted(ss: seq<Session>, org: Org, plate: string, setAside: bool, policy: Option<Refusal>) {
    !setAside && plate != "" && policy.None? && !AwaitsPayment(ss, org, plate)
  }

  /** A camera entry: the car is in from that moment, or only a car of the plate that never left is closed. */
  lemma EntryWebhookOutcome(st: State, org: Org, plate: string, now: int, source: SessionSource, setAside: bool,
                            policy: Option<Refusal>)
    requires Reachable(st)
    ensures var st' := EntryWebhook(st, org, plate, now, source, setAside, policy);
            && st' == st.(sessions := st'.sessions)
            && (if Admitted(st.sessions, org, plate, setAside, policy)
                then Entered(st.sessions, st'.sessions, org, plate, now, now, source)
                else |st'.sessions| == |st.sessions| && StaleClosed(st.sessions, st'.sessions, org, plate, now))
  {
    var closed := CloseStaleOnReentry(st, org, plate, now);
    StaleCloseOutcome(st, org, plate, now);
    NextIsReachable(st, OnSession(DoCloseStale(org, plate, now)), closed);
    NobodyActive(closed.sessions, org, plate);
    AwaitingUntouched(st.sessions, closed.sessions, org, plate, now);
    EntryOutcome(closed, org, plate, now, now, source, policy);
    if Admitted(st.sessions, org, plate, setAside, policy) {
      var entered := CreateEntry(closed, org, plate, now, now, source, policy).value.sessions;
      StaleClosedTwice(st.sessions, closed.sessions, entered, org, plate, now);
    }
  }

  lemma NobodyActive(ss: seq<Session>, org: Org, plate: string)
    ensures LatestActive(ss, org, plate).Some? <==> KeyTakenByActive(ss, org, plate)
  {
    var found := LatestActive(ss, org, plate);
    if found.Some? {
      assert IsActiveWith(ss[found.value], org, plate);
    }
  }

  lemma StaleClosedTwice(ss: seq<Session>, closed: seq<Session>, ss': seq<Session>, org: Org, plate: string, now: int)
    requires |closed| == |ss| && StaleClosed(ss, closed, org, plate, now) && !KeyTakenByActive(closed, org, plate)
    requires StaleClosed(closed, ss', org, plate, now)
    ensures StaleClosed(ss, ss', org, plate, now)
  {
    assert forall i :: 0 <= i < |ss| ==> ss'[i] == closed[i];
  }

  lemma AwaitingUntouched(ss: seq<Session>, ss': seq<Session>, org: Org, plate: string, now: int)
    requires |ss'| == |ss| && StaleClosed(ss, ss', org, plate, now)
    ensures AwaitsPayment(ss, org, plate) <==> AwaitsPayment(ss', org, plate)
  {
    if AwaitsPayment(ss, org, plate) {
      var i :| 0 <= i < |ss| && ss[i].org == org && ss[i].plate == Some(plate) && ss[i].status.AwaitingPayment?;
      assert ss'[i] == ss[i];
    }
    if AwaitsPayment(ss', org, plate) {
      var i :| 0 <= i < |ss| && ss'[i].org == org && ss'[i].plate == Some(plate) && ss'[i].status.AwaitingPayment?;
      assert ss'[i] == ss[i];
    }
  }

  /** A plate nobody is inside with has a free key. */
  lemma FreePlateHasNoKey(st: State, org: Org, plate: string)
    requires Reachable(st)
    ensures ExactInside(st.sessions, org, plate).None? ==> !KeyTaken(st.sessions, (org, plate))
  {
    ReachableKeepsInv(st);
    if KeyTaken(st.sessions, (org, plate)) {
      var i :| 0 <= i < |st.sessions| && st.sessions[i].activePlateKey == Some((org, plate));
      assert KeyMatchesStatus(st.sessions[i]);
    }
  }

  lemma InsertedIsOnlyActive(st: State, org: Org, plate: string, at: int, source: SessionSource)
    requires Reachable(st)
    ensures var r := InsertActive(st, org, plate, at, source);
            if KeyTaken(st.sessions, (org, plate)) then r == Err(Conflict)
            else
              && r.Ok? && r.value == st.(sessions := r.value.sessions)
              && |r.value.sessions| == |st.sessions| + 1 && r.value.sessions[..|st.sessions|] == st.sessions
              && IsEntered(r.value.sessions[|st.sessions|], org, plate, at, source)
              && forall i :: 0 <= i < |r.value.sessions| ==>
                   (IsActiveWith(r.value.sessions[i], org, plate) <==> i == |st.sessions|)
  {
    ReachableKeepsInv(st);
    forall i | 0 <= i < |st.sessions| && IsActiveWith(st.sessions[i], org, plate)
      ensures KeyTaken(st.sessions, (org, plate))
    {
      assert KeyMatchesStatus(st.sessions[i]);
    }
  }

  // ----- closing -----

  /** A manual exit of an active session of the plate: regular cars pay the tariff, the others nothing, and a card
      payment under way is to be aborted. */
  ghost predicate LeavesManually(st: State, st': State, org: Org, plate: string, id: Id, how: ExitMethod, at: int,
                             means: PaymentMethod, tariff: Money) {
    && id < |st.sessions| && IsActiveWith(st.sessions[id], org, plate)
    && (if st.sessions[id].source.Regular? then ClosedAndPaid(st, st', id, at, tariff, how, means, means)
        else ClosedAndPaid(st, st', id, at, 0, how, st.sessions[id].paymentMethod, Cash))
    && st' == st.(sessions := st'.sessions, payments := st'.payments,
                  intents := st.intents + multiset{AbortSession(org, id, None)})
    && !KeyTakenByActive(st'.sessions, org, plate)
  }

  lemma OnlyActiveOfPlate(st: State, org: Org, plate: string, id: Id)
    requires Reachable(st) && id < |st.sessions| && IsActiveWith(st.sessions[id], org, plate)
    ensures LatestActive(st.sessions, org, plate) == Some(id) && !Paid(st.payments, id)
    ensures forall i :: 0 <= i < |st.sessions| && IsActiveWith(st.sessions[i], org, plate) ==> i == id
  {
    ReachableKeepsInv(st);
    ActiveIsUnpaid(st, id);
    forall i | 0 <= i < |st.sessions| && IsActiveWith(st.sessions[i], org, plate) ensures i == id {
      assert KeyMatchesStatus(st.sessions[i]) && KeyMatchesStatus(st.sessions[id]);
    }
    var found := LatestActive(st.sessions, org, plate);
    assert found.Some? ==> IsActiveWith(st.sessions[found.value], org, plate);
  }

  /** A manual exit closes the only active session of the plate with its first and only payment. */
  lemma CompleteSessionOutcome(st: State, org: Org, plate: string, how: ExitMethod, at: int, means: PaymentMethod,
                               tariff: Money)
    requires Reachable(st)
    ensures var r := CompleteSession(st, org, plate, how, at, means, tariff);
            && (if KeyTakenByActive(st.sessions, org, plate) then r.Ok? else r == Err(NotFound))
            && forall id :: 0 <= id < |st.sessions| && IsActiveWith(st.sessions[id], org, plate) ==>
                 LeavesManually(st, r.value, org, plate, id, how, at, means, tariff)
  {
    NobodyActive(st.sessions, org, plate);
    forall id | 0 <= id < |st.sessions| && IsActiveWith(st.sessions[id], org, plate)
      ensures LeavesManually(st, CompleteSession(st, org, plate, how, at, means, tariff).value, org, plate, id, how, at,
                             means, tariff)
    {
      CompletesIt(st, org, plate, how, at, means, tariff, id);
    }
  }

  lemma CompletesIt(st: State, org: Org, plate: string, how: ExitMethod, at: int, means: PaymentMethod, tariff: Money,
                    id: Id)
    requires Reachable(st) && id < |st.sessions| && IsActiveWith(st.sessions[id], org, plate)
    ensures CompleteSession(st, org, plate, how, at, means, tariff).Ok?
    ensures LeavesManually(st, CompleteSession(st, org, plate, how, at, means, tariff).value, org, plate, id, how, at,
                           means, tariff)
  {
    OnlyActiveOfPlate(st, org, plate, id);
    var st' := CompleteSession(st, org, plate, how, at, means, tariff).value;
    assert !st'.sessions[id].status.Active?;
    assert forall i :: 0 <= i < |st.sessions| && i != id ==> st'.sessions[i] == st.sessions[i];
  }

  /** What a forced close charges: what was entered, else the tariff of a regular car. */
  function ForcedAmount(s: Session, enteredAmount: Option<Money>, tariff: Money): Money {
    match enteredAmount
    case Some(amount) => amount
    case None => if s.source.Regular? then tariff else 0
  }

  /** A forced close is refused exactly for a session that is not active or a time before its entry; otherwise
      it pays what was entered, or the tariff of a regular session. */
  lemma ForceCloseOutcome(st: State, id: Id, at: int, enteredAmount: Option<Money>, means: PaymentMethod, tariff: Money)
    requires Reachable(st)
    ensures var r := ForceClose(st, id, at, enteredAmount, means, tariff);
            if id >= |st.sessions| then r == Err(NotFound)
            else if !st.sessions[id].status.Active? || at < st.sessions[id].enteredAt then r == Err(BadRequest)
            else
              && r.Ok? && var s, amount := st.sessions[id], ForcedAmount(st.sessions[id], enteredAmount, tariff);
              && ClosedAndPaid(st, r.value, id, at, amount, Forced,
                               if s.source.Regular? then means else s.paymentMethod,
                               if s.source.Regular? then means else Cash)
              && r.value == st.(sessions := r.value.sessions, payments := r.value.payments)
  {
    ReachableKeepsInv(st);
    if ForceClose(st, id, at, enteredAmount, means, tariff).Ok? {
      ActiveIsUnpaid(st, id);
    }
  }

  /** A session that waited for its payment has it: what it recorded, in cash, and nothing else about it changes. */
  ghost predicate CashTaken(st: State, st': State, id: Id) {
    && OnlyRow(st.sessions, st'.sessions, id)
    && var s := st.sessions[id];
    && s.status.AwaitingPayment? && !Paid(st.payments, id)
    && st'.sessions[id] == Session(s.org, s.plate, s.enteredAt, s.exitedAt, Completed, s.source, s.amount, Cash,
                                   s.exitMethod, None)
    && st'.payments == st.payments + [Payment(s.org, id, if s.amount.Some? then s.amount.value else 0, Cash)]
    && st' == st.(sessions := st'.sessions, payments := st'.payments,
                  intents := st.intents + multiset{AbortSession(s.org, id, None)})
  }

  lemma ConfirmCashOutcome(st: State, id: Id)
    requires Reachable(st)
    ensures var r := ConfirmCash(st, id);
            if id >= |st.sessions| then r == Err(NotFound)
            else if !st.sessions[id].status.AwaitingPayment? then r == Err(BadRequest)
            else r.Ok? && CashTaken(st, r.value, id)
  {
    ReachableKeepsInv(st);
    if ConfirmCash(st, id).Ok? {
      ActiveIsUnpaid(st, id);
    }
  }

  // ----- corrections -----

  /** Only a completed session can have its means corrected, and then all its payments follow. */
  lemma UpdatePaymentMethodOutcome(st: State, id: Id, means: PaymentMethod)
    ensures var r := UpdatePaymentMethod(st, id, means);
            if id >= |st.sessions| then r == Err(NotFound)
            else if !st.sessions[id].status.Completed? then r == Err(BadRequest)
            else
              && r.Ok? && var s := st.sessions[id];
              && OnlyRow(st.sessions, r.value.sessions, id)
              && r.value.sessions[id] == Session(s.org, s.plate, s.enteredAt, s.exitedAt, Completed, s.source, s.amount,
                                                 means, s.exitMethod, s.activePlateKey)
              && |r.value.payments| == |st.payments|
              && (forall p :: 0 <= p < |st.payments| ==>
                    var pay := st.payments[p];
                    r.value.payments[p] == Payment(pay.org, pay.session, pay.amount,
                                                   if pay.session == id then means else pay.means))
              && r.value == st.(sessions := r.value.sessions, payments := r.value.payments)
  {
  }

  // ----- free exits and their recovery -----

  /** An automatic exit closes exactly an active regular car whose stay is still free, or, for the other reasons, a car
      inside; for nothing, from that moment. */
  ghost predicate AutoExitCloses(st: State, org: Org, id: Id, tariffFree: bool, stillFree: bool) {
    && id < |st.sessions| && st.sessions[id].org == org
    && if tariffFree then st.sessions[id].status == Active && st.sessions[id].source == Regular && stillFree
       else st.sessions[id].status == Active || st.sessions[id].status == AwaitingPayment
  }

  lemma AutoExitOutcome(st: State, org: Org, id: Id, tariffFree: bool, stillFree: bool, at: int)
    requires Reachable(st)
    ensures var st' := AutoExit(st, org, id, tariffFree, stillFree, at);
            if AutoExitCloses(st, org, id, tariffFree, stillFree)
            then
              && ClosedForNothing(st, st', id, at, Auto, st.sessions[id].paymentMethod)
              && st' == st.(sessions := st'.sessions) && !Paid(st.payments, id)
            else st' == st
  {
    if AutoExitCloses(st, org, id, tariffFree, stillFree) {
      ReachableKeepsInv(st);
      ActiveIsUnpaid(st, id);
    }
  }

  /** Nothing holds the free exit of a session against it. */
  ghost predicate Undisputed(st: State, id: Id, org: Org, plate: string)
    requires id < |st.sessions|
  {
    && (forall o :: o in st.operations && o.session == id ==>
          o.status != APPROVED && o.status != FIN_FAILED && o.status != ORPHANED)
    && (forall later :: later in st.sessions && later.org == org && later.plate == Some(plate) ==>
          later.enteredAt <= st.sessions[id].enteredAt)
  }

  /** A regular car that left for nothing, by itself and recently, and whose exit nobody holds against it. */
  ghost predicate LeftFree(st: State, id: Id, org: Org, plate: string, since: int) {
    && id < |st.sessions| && st.sessions[id].org == org && st.sessions[id].plate == Some(plate)
    && st.sessions[id].status == Completed && st.sessions[id].source == Regular
    && st.sessions[id].exitMethod == Some(Auto) && st.sessions[id].amount == Some(0)
    && st.sessions[id].exitedAt.Some? && since <= st.sessions[id].exitedAt.value
    && (forall p :: p in st.payments ==> p.session != id) && Undisputed(st, id, org, plate)
  }

  /** Of the cars that left free the last one is brought back inside, with the row it had; if there is none, nothing
      happens. */
  ghost predicate Recovered(st: State, st': State, org: Org, plate: string, since: int, m: Option<Id>) {
    match m
    case None => st' == st && forall id: Id :: !LeftFree(st, id, org, plate, since)
    case Some(id) =>
      && LeftFree(st, id, org, plate, since)
      && (forall other: Id :: LeftFree(st, other, org, plate, since) ==>
            var last, at := st.sessions[id].exitedAt.value, st.sessions[other].exitedAt.value;
            at < last || (at == last && other <= id))
      && OnlyRow(st.sessions, st'.sessions, id)
      && IsReopened(st.sessions[id], st'.sessions[id], org, plate) && st' == st.(sessions := st'.sessions)
  }

  predicate IsReopened(s: Session, s': Session, org: Org, plate: string) {
    s' == Session(s.org, s.plate, s.enteredAt, None, Active, s.source, None, s.paymentMethod, None, Some((org, plate)))
  }

  lemma LeftFreeIsRecoverable(st: State, id: Id, org: Org, plate: string, since: int)
    ensures LeftFree(st, id, org, plate, since) <==> Recoverable(st, id, org, plate, since)
  {
    if id < |st.sessions| {
      assert Paid(st.payments, id) <==> exists p :: p in st.payments && p.session == id;
    }
  }

  /** Recovery of a plate whose key is free. */
  lemma RecoverOutcome(st: State, org: Org, plate: string, since: int)
    ensures var (st', m) := Recover(st, org, plate, since);
            if KeyTaken(st.sessions, (org, plate)) then st' == st && m == None
            else Recovered(st, st', org, plate, since, m)
  {
    forall id: Id ensures LeftFree(st, id, org, plate, since) <==> Recoverable(st, id, org, plate, since) {
      LeftFreeIsRecoverable(st, id, org, plate, since);
    }
    LastRecoverable(st, org, plate, since);
  }

  lemma LastRecoverable(st: State, org: Org, plate: string, since: int)
    ensures var target := RecoveryTarget(st, org, plate, since);
            && (target.None? ==> forall id: Id :: !Recoverable(st, id, org, plate, since))
            && (target.Some? ==> forall other: Id :: Recoverable(st, other, org, plate, since) ==>
                  var last, at := st.sessions[target.value].exitedAt.value, st.sessions[other].exitedAt.value;
                  at < last || (at == last && other <= target.value))
  {
    var rows := seq(|st.sessions|, i requires 0 <= i => i);
    var target := RecoveryTarget(st, org, plate, since);
    forall other: Id | Recoverable(st, other, org, plate, since)
      ensures target.Some?
      ensures var last, at := st.sessions[target.value].exitedAt.value, st.sessions[other].exitedAt.value;
              at < last || (at == last && other <= target.value)
    {
      assert rows[other] == other;
    }
  }

  lemma OneRecoverable(st: State, org: Org, plate: string, since: int, id: Id)
    requires Recoverable(st, id, org, plate, since)
    requires forall j: Id :: Recoverable(st, j, org, plate, since) ==> j == id
    ensures RecoveryTarget(st, org, plate, since) == Some(id)
  {
    var rows := seq(|st.sessions|, i requires 0 <= i => i);
    assert rows[id] == id;
  }

  /** Recovery undoes a free exit, field for field, exactly when the exit is recent enough and nothing holds it
      against the session: no operation with money, no later visit. */
  lemma RecoveryUndoesFreeExit(st: State, org: Org, plate: string, id: Id, at: int, since: int)
    requires Reachable(st) && id < |st.sessions| && IsActiveWith(st.sessions[id], org, plate)
    requires st.sessions[id].source.Regular?
    requires forall j :: 0 <= j < |st.sessions| && j != id && st.sessions[j].org == org
                         && st.sessions[j].plate == Some(plate) ==>
               st.sessions[j].enteredAt != st.sessions[id].enteredAt
    ensures var exited := AutoExit(st, org, id, true, true, at);
            Recover(exited, org, plate, since) == (st, Some(id)) <==> since <= at && Undisputed(st, id, org, plate)
  {
    ReachableKeepsInv(st);
    var exited := AutoExit(st, org, id, true, true, at);
    ActiveIsUnpaid(st, id);
    assert KeyMatchesStatus(st.sessions[id]);
    FreeExitRecoverable(st, org, plate, id, at, since);
    if since <= at && Undisputed(st, id, org, plate) {
      assert Recoverable(exited, id, org, plate, since);
      OneRecoverable(exited, org, plate, since, id);
      assert !KeyTaken(exited.sessions, (org, plate));
      assert exited.sessions[id := st.sessions[id]] == st.sessions;
    }
  }

  lemma FreeExitRecoverable(st: State, org: Org, plate: string, id: Id, at: int, since: int)
    requires Reachable(st) && id < |st.sessions| && IsActiveWith(st.sessions[id], org, plate)
    requires st.sessions[id].source.Regular? && !Paid(st.payments, id)
    requires forall j :: 0 <= j < |st.sessions| && j != id && st.sessions[j].org == org
                         && st.sessions[j].plate == Some(plate) ==>
               st.sessions[j].enteredAt != st.sessions[id].enteredAt
    ensures var exited := AutoExit(st, org, id, true, true, at);
            && (Recoverable(exited, id, org, plate, since) <==> since <= at && Undisputed(st, id, org, plate))
            && (Undisputed(st, id, org, plate) ==>
                  forall j: Id :: Recoverable(exited, j, org, plate, since) ==> j == id)
  {
    ReachableKeepsInv(st);
    var exited := AutoExit(st, org, id, true, true, at);
    assert forall j :: 0 <= j < |st.sessions| ==>
        && exited.sessions[j].enteredAt == st.sessions[j].enteredAt
        && exited.sessions[j].plate == st.sessions[j].plate && exited.sessions[j].org == st.sessions[j].org;
    assert exited.sessions[id] in exited.sessions && st.sessions[id] in st.sessions;
    if Recoverable(exited, id, org, plate, since) {
      forall later | later in st.sessions && later.org == org && later.plate == Some(plate)
        ensures later.enteredAt <= st.sessions[id].enteredAt
      {
        var j :| 0 <= j < |st.sessions| && st.sessions[j] == later;
        assert exited.sessions[j] in exited.sessions;
      }
    }
    if Undisputed(st, id, org, plate) {
      forall later | later in exited.sessions && later.org == org && later.plate == Some(plate)
        ensures later.enteredAt <= exited.sessions[id].enteredAt
      {
        var j :| 0 <= j < |exited.sessions| && exited.sessions[j] == later;
        assert st.sessions[j] in st.sessions;
      }
    }
  }

  // ----- candidates -----

  /** An operator's decision is final: whatever was decided, every later decision is refused. */
  lemma DecidedOnce(st: State, org: Org, id: Id)
    requires id < |st.candidates| && !st.candidates[id].status.Pending?
    ensures forall session :: PreviewCandidate(st, org, id, session).Err?
    ensures forall r :: ConfirmCandidate(st, org, id, r).Err?
    ensures forall emergency, at :: ForceOpenCandidate(st, org, id, emergency, at).Err?
    ensures CancelCandidate(st, org, id).Err? && DismissCandidate(st, org, id).Err?
    ensures forall session, amount :: StartAutomaticCard(st, org, id, session, amount).Err?
  {
  }

  /** A candidate an operator may act on. */
  predicate CandidateOpen(st: State, org: Org, id: Id) {
    id < |st.candidates| && st.candidates[id].org == org && st.candidates[id].status == Pending
  }

  /** Why an operator may not act on it. */
  function WhyClosed(st: State, org: Org, id: Id): Refusal {
    if id < |st.candidates| && st.candidates[id].org == org then Conflict else NotFound
  }

  /** A candidate is decided; apart from the decision its row stays, and so do all others. */
  ghost predicate Decided(st: State, st': State, id: Id, status: CandidateStatus, resolution: Option<Resolution>,
                          resolvedSession: Option<Id>) {
    && OnlyRow(st.candidates, st'.candidates, id)
    && var c := st.candidates[id];
    && st'.candidates[id] == Candidate(c.org, c.webhookEvent, c.detectedPlate, c.matchedSession, resolvedSession,
                                       c.createdAt, status, resolution)
  }

  /** The car the operator means: his own choice before the match. */
  function Choice(st: State, id: Id, r: ConfirmRequest): Option<Id>
    requires id < |st.candidates|
  {
    match r.selected
    case Some(sid) => Some(sid)
    case None => st.candidates[id].matchedSession
  }

  predicate ActiveSession(st: State, org: Org, sid: Id) {
    sid < |st.sessions| && st.sessions[sid].org == org && st.sessions[sid].status == Active
  }

  /** Regular cars need a means of payment and a tariff, unless the exit is an emergency. */
  predicate CanBeCharged(s: Session, r: ConfirmRequest) {
    s.source == Regular && !r.emergency ==> (r.means == Some(Cash) || r.means == Some(Online)) && r.tariff.Some?
  }

  /** How the chosen car leaves: non-regular cars, emergencies and inpatients for nothing, the others at the tariff. */
  ghost predicate LeavesConfirmed(st: State, st': State, sid: Id, r: ConfirmRequest)
    requires sid < |st.sessions| && CanBeCharged(st.sessions[sid], r)
  {
    var s := st.sessions[sid];
    if r.emergency then ClosedForNothing(st, st', sid, r.at, EmergencyExit, s.paymentMethod)
    else if s.source != Regular then ClosedForNothing(st, st', sid, r.at, Auto, s.paymentMethod)
    else if r.inpatient && s.plate.Some? then ClosedForNothing(st, st', sid, r.at, Auto, r.means.value)
    else ClosedAndPaid(st, st', sid, r.at, r.tariff.value, Auto, r.means.value, r.means.value)
  }

  /** A confirmation: the chosen car leaves, the candidate names it, and a card payment under way is to be aborted when
      the car leaves on other means. */
  ghost predicate ConfirmedExit(st: State, st': State, org: Org, id: Id, r: ConfirmRequest, sid: Id) {
    && CandidateOpen(st, org, id) && Choice(st, id, r) == Some(sid) && ActiveSession(st, org, sid)
    && CanBeCharged(st.sessions[sid], r) && LeavesConfirmed(st, st', sid, r)
    && Decided(st, st', id, Accepted,
               Some(if r.emergency then EmergencyConfirmed else if r.selected == None then Exact else Reassigned),
               Some(sid))
    && st' == st.(sessions := st'.sessions, payments := st'.payments, candidates := st'.candidates,
                  intents := st.intents + if st'.sessions[sid].paymentMethod == Card then multiset{}
                                          else multiset{AbortSession(org, sid, Some(id))})
  }

  /** Confirming is refused exactly when the candidate is closed, no active session is chosen or a regular car cannot
      be charged; otherwise it does the above to the session of the operator's choice, or else the matched one. */
  lemma ConfirmOutcome(st: State, org: Org, id: Id, r: ConfirmRequest)
    requires Reachable(st)
    ensures var result := ConfirmCandidate(st, org, id, r);
            if !CandidateOpen(st, org, id) then result == Err(WhyClosed(st, org, id))
            else
              match Choice(st, id, r)
              case None => result == Err(BadRequest)
              case Some(sid) =>
                if !ActiveSession(st, org, sid) then result == Err(Conflict)
                else if CanBeCharged(st.sessions[sid], r)
                then result.Ok? && ConfirmedExit(st, result.value, org, id, r, sid)
                else result == Err(if r.means == Some(Cash) || r.means == Some(Online) then Conflict else BadRequest)
  {
    if CandidateOpen(st, org, id) && Choice(st, id, r).Some? && ActiveSession(st, org, Choice(st, id, r).value)
       && CanBeCharged(st.sessions[Choice(st, id, r).value], r) {
      ConfirmationWrites(st, org, id, r, Choice(st, id, r).value);
    }
  }

  lemma ConfirmedLeaves(st: State, org: Org, id: Id, r: ConfirmRequest, sid: Id)
    requires CandidateOpen(st, org, id) && Choice(st, id, r) == Some(sid)
    requires ActiveSession(st, org, sid) && CanBeCharged(st.sessions[sid], r) && !Paid(st.payments, sid)
    ensures var result := ConfirmCandidate(st, org, id, r); result.Ok? && LeavesConfirmed(st, result.value, sid, r)
  {
  }

  lemma ConfirmedDecides(st: State, org: Org, id: Id, r: ConfirmRequest, sid: Id)
    requires CandidateOpen(st, org, id) && Choice(st, id, r) == Some(sid)
    requires ActiveSession(st, org, sid) && CanBeCharged(st.sessions[sid], r)
    ensures var st' := ConfirmCandidate(st, org, id, r).value;
            && Decided(st, st', id, Accepted,
                       Some(if r.emergency then EmergencyConfirmed else if r.selected == None then Exact
                            else Reassigned), Some(sid))
            && sid < |st'.sessions|
            && st' == st.(sessions := st'.sessions, payments := st'.payments, candidates := st'.candidates,
                          intents := st.intents + if st'.sessions[sid].paymentMethod == Card then multiset{}
                                                  else multiset{AbortSession(org, sid, Some(id))})
  {
  }

  lemma ConfirmationWrites(st: State, org: Org, id: Id, r: ConfirmRequest, sid: Id)
    requires Reachable(st) && CandidateOpen(st, org, id) && Choice(st, id, r) == Some(sid)
    requires ActiveSession(st, org, sid) && CanBeCharged(st.sessions[sid], r)
    ensures var result := ConfirmCandidate(st, org, id, r);
            result.Ok? && ConfirmedExit(st, result.value, org, id, r, sid)
  {
    InsideIsUnpaid(st, sid);
    ConfirmedLeaves(st, org, id, r, sid);
    ConfirmedDecides(st, org, id, r, sid);
  }

  /** The checks of a confirmation alone. */
  lemma TargetOutcome(st: State, org: Org, id: Id, r: ConfirmRequest)
    ensures var target := ConfirmTarget(st, org, id, r);
            if target.Ok? then ConfirmCandidate(st, org, id, r).Ok?
            else ConfirmCandidate(st, org, id, r) == Err(target.error)
    ensures ConfirmTarget(st, org, id, r).Ok? ==>
              id < |st.candidates| && Choice(st, id, r) == Some(ConfirmTarget(st, org, id, r).value)
  {
  }

  /** Forcing the barrier lets the chosen car out for nothing, if there is one inside, and leaves the ledger alone. */
  ghost predicate ForcedOpenExit(st: State, st': State, org: Org, id: Id, emergency: bool, at: int) {
    && CandidateOpen(st, org, id)
    && var chosen := st.candidates[id].resolvedSession;
    && Decided(st, st', id, Dismissed, Some(if emergency then EmergencyForcedOpen else ForcedOpen), chosen)
    && (if chosen.Some? && chosen.value < |st.sessions| && st.sessions[chosen.value].org == org
           && st.sessions[chosen.value].status != Completed
        then ClosedForNothing(st, st', chosen.value, at, if emergency then EmergencyExit else Forced,
                              st.sessions[chosen.value].paymentMethod)
        else st'.sessions == st.sessions)
    && st' == st.(sessions := st'.sessions, candidates := st'.candidates)
  }

  lemma ForceOpenOutcome(st: State, org: Org, id: Id, emergency: bool, at: int)
    ensures var r := ForceOpenCandidate(st, org, id, emergency, at);
            if CandidateOpen(st, org, id) then r.Ok? && ForcedOpenExit(st, r.value, org, id, emergency, at)
            else r == Err(WhyClosed(st, org, id))
  {
  }

  /** The exit did not happen: only an unmatched candidate is cancelled, and its card payment is to be aborted. */
  lemma CancelOutcome(st: State, org: Org, id: Id)
    ensures var r := CancelCandidate(st, org, id);
            if !CandidateOpen(st, org, id) then r == Err(WhyClosed(st, org, id))
            else if st.candidates[id].matchedSession != None then r == Err(Conflict)
            else
              && r.Ok?
              && Decided(st, r.value, id, Dismissed, Some(ExitCancelled), st.candidates[id].resolvedSession)
              && r.value == st.(candidates := r.value.candidates,
                                intents := st.intents + multiset{AbortCandidate(org, id)})
  {
  }

  lemma DismissOutcome(st: State, org: Org, id: Id)
    ensures var r := DismissCandidate(st, org, id);
            if !CandidateOpen(st, org, id) then r == Err(WhyClosed(st, org, id))
            else
              && r.Ok?
              && Decided(st, r.value, id, Dismissed, Some(DismissedByOperator), st.candidates[id].resolvedSession)
              && r.value == st.(candidates := r.value.candidates)
  {
  }

  /** The operator looks at a car inside: the candidate remembers it and stays pending. */
  lemma PreviewOutcome(st: State, org: Org, id: Id, session: Id)
    ensures var r := PreviewCandidate(st, org, id, session);
            if !CandidateOpen(st, org, id) then r == Err(WhyClosed(st, org, id))
            else if session >= |st.sessions| || st.sessions[session].org != org
                    || st.sessions[session].status == Completed then r == Err(NotFound)
            else
              && r.Ok? && Decided(st, r.value, id, Pending, st.candidates[id].resolution, Some(session))
              && r.value == st.(candidates := r.value.candidates)
  {
  }

  /** The pending candidates that are too old, or those of the organisation. */
  predicate Expires(c: Candidate, scope: ExpiryScope) {
    c.status == Pending && match scope
                           case OlderThan(cutoff) => c.createdAt < cutoff
                           case WholeOrganization(org) => c.org == org
  }

  /** An expiry pass expires those candidates and touches nothing else. */
  lemma ExpiryOutcome(st: State, scope: ExpiryScope)
    ensures var st' := ExpireCandidates(st, scope);
            && st' == st.(candidates := st'.candidates) && |st'.candidates| == |st.candidates|
            && forall i :: 0 <= i < |st.candidates| ==>
                 var c := st.candidates[i];
                 st'.candidates[i] ==
                   if Expires(c, scope)
                   then Candidate(c.org, c.webhookEvent, c.detectedPlate, c.matchedSession, c.resolvedSession,
                                  c.createdAt, Expired, c.resolution)
                   else c
  {
  }

  /** An expiry pass leaves nothing in its scope, and a second pass does nothing. */
  lemma ExpiryIsComplete(st: State, scope: ExpiryScope)
    ensures forall c :: c in ExpireCandidates(st, scope).candidates ==> !InScope(c, scope)
    ensures ExpireCandidates(ExpireCandidates(st, scope), scope) == ExpireCandidates(st, scope)
  {
    var once := ExpireCandidates(st, scope);
    assert ExpireCandidates(once, scope).candidates == once.candidates;
  }

  // ----- a car at the exit -----

  /** The event was seen before, or its car is inside only as one whose payment is awaited. */
  ghost predicate NothingToDo(st: State, e: ExitEvent) {
    || (exists c :: c in st.candidates && c.org == e.org && c.webhookEvent == e.webhookEvent)
    || (&& e.detectedPlate.Some? && !KeyTakenByActive(st.sessions, e.org, e.detectedPlate.value)
        && AwaitsPayment(st.sessions, e.org, e.detectedPlate.value))
  }

  /** Whom the event is matched to: the only active car of the plate, else the near match, else a car that left free and
      is brought back, else nobody. */
  ghost predicate Matched(st: State, st': State, e: ExitEvent, m: Option<Id>) {
    match e.detectedPlate
    case None => m == None && st'.sessions == st.sessions
    case Some(plate) =>
      if KeyTakenByActive(st.sessions, e.org, plate) then
        && m.Some? && m.value < |st.sessions| && IsActiveWith(st.sessions[m.value], e.org, plate)
        && (forall i :: 0 <= i < |st.sessions| && IsActiveWith(st.sessions[i], e.org, plate) ==> i == m.value)
        && st'.sessions == st.sessions
      else if e.nearMatch.Some? && ActiveSession(st, e.org, e.nearMatch.value) then
        m == e.nearMatch && st'.sessions == st.sessions
      else if e.recoverSince.Some? then
        Recovered(st, st.(sessions := st'.sessions), e.org, plate, e.recoverSince.value, m)
      else m == None && st'.sessions == st.sessions
  }

  /** A car just dealt with, or a pending candidate for the same car. */
  predicate JoinsAnother(st: State, e: ExitEvent, m: Option<Id>) {
    || (e.detectedPlate.Some? && m == None && e.recentlyResolved)
    || (e.coalesceWith.Some? && CandidateOpen(st, e.org, e.coalesceWith.value))
  }

  /** What an exit event leaves behind: nothing, or its match and a candidate row unless it joins another. */
  ghost predicate SeenAtExit(st: State, st': State, e: ExitEvent, m: Option<Id>) {
    if NothingToDo(st, e) then st' == st
    else
      && Matched(st, st', e, m)
      && st'.candidates == st.candidates + (if JoinsAnother(st, e, m) then []
           else [Candidate(e.org, e.webhookEvent, e.detectedPlate, m, None, e.at, Pending, None)])
      && st' == st.(sessions := st'.sessions, candidates := st'.candidates)
  }

  /** A plate is inside as active, as awaiting, or not at all. */
  lemma ExactInsideFinds(st: State, org: Org, plate: string)
    requires Reachable(st)
    ensures var found := ExactInside(st.sessions, org, plate);
            if KeyTakenByActive(st.sessions, org, plate) then
              && found.Some? && IsActiveWith(st.sessions[found.value], org, plate)
              && forall i :: 0 <= i < |st.sessions| && IsActiveWith(st.sessions[i], org, plate) ==> i == found.value
            else if AwaitsPayment(st.sessions, org, plate) then
              found.Some? && st.sessions[found.value].status.AwaitingPayment?
            else found.None?
  {
    NobodyActive(st.sessions, org, plate);
    var active := LatestActive(st.sessions, org, plate);
    if active.Some? {
      OnlyActiveOfPlate(st, org, plate, active.value);
    }
  }

  lemma MatchOutcome(st: State, e: ExitEvent)
    requires Reachable(st)
    ensures var m := MatchExit(st, e);
            match e.detectedPlate
            case None => m == None
            case Some(plate) =>
              if KeyTakenByActive(st.sessions, e.org, plate) then
                && m.Some? && m.value < |st.sessions| && IsActiveWith(st.sessions[m.value], e.org, plate)
                && (forall i :: 0 <= i < |st.sessions| && IsActiveWith(st.sessions[i], e.org, plate) ==> i == m.value)
              else if AwaitsPayment(st.sessions, e.org, plate) then
                m.Some? && m.value < |st.sessions| && st.sessions[m.value].status.AwaitingPayment?
              else if e.nearMatch.Some? && ActiveSession(st, e.org, e.nearMatch.value) then m == e.nearMatch
              else m == None && !KeyTaken(st.sessions, (e.org, plate))
  {
    if e.detectedPlate.Some? {
      ExactInsideFinds(st, e.org, e.detectedPlate.value);
      FreePlateHasNoKey(st, e.org, e.detectedPlate.value);
    }
  }

  /** The candidate row alone. */
  lemma AddOutcome(st: State, e: ExitEvent, m: Option<Id>)
    ensures var st' := AddCandidate(st, e, m);
            && st' == st.(candidates := st'.candidates)
            && st'.candidates == st.candidates + (if JoinsAnother(st, e, m) then []
                 else [Candidate(e.org, e.webhookEvent, e.detectedPlate, m, None, e.at, Pending, None)])
  {
  }

  /** Whom the event is matched to when there is something to do, recovery included. */
  lemma SettledMatch(st: State, e: ExitEvent) returns (met: State, m: Option<Id>)
    requires Reachable(st) && !NothingToDo(st, e)
    ensures Matched(st, met, e, m) && met == st.(sessions := met.sessions)
    ensures CreateExitCandidate(st, e) == AddCandidate(met, e, m)
  {
    MatchOutcome(st, e);
    met, m := st, MatchExit(st, e);
    if m.None? && e.detectedPlate.Some? && e.recoverSince.Some? {
      RecoverOutcome(st, e.org, e.detectedPlate.value, e.recoverSince.value);
      met := Recover(st, e.org, e.detectedPlate.value, e.recoverSince.value).0;
      m := Recover(st, e.org, e.detectedPlate.value, e.recoverSince.value).1;
    }
  }

  /** What becomes of an exit event, and of whose session. */
  lemma CandidateOutcome(st: State, e: ExitEvent) returns (m: Option<Id>)
    requires Reachable(st)
    ensures SeenAtExit(st, CreateExitCandidate(st, e), e, m)
  {
    m := None;
    if NothingToDo(st, e) {
      MatchOutcome(st, e);
    } else {
      var met: State;
      met, m := SettledMatch(st, e);
      AddOutcome(met, e, m);
    }
  }

  // ----- the run of a card operation -----

  /** A confirmed operation is found again by its number, with its candidate and session; while both are open it
      still reads APPROVED. */
  lemma CompletionFindsRows(st: State, id: Id)
    requires Reachable(st) && At(st, id, Confirmed) && st.operations[id].candidate.Some?
    ensures var o := st.operations[id];
            && OperationByNumber(st.operations, o.org, o.number) == Some(id)
            && o.candidate.value < |st.candidates| && st.candidates[o.candidate.value].org == o.org
            && o.session < |st.sessions| && st.sessions[o.session].org == o.org && ApprovedAmount(o) > 0
            && (st.candidates[o.candidate.value].status.Pending? && st.sessions[o.session].status.Active? ==>
                  o.status == APPROVED)
  {
    ReachableKeepsInv(st);
    CompletionRows(st, id);
    assert PhaseOk(st.operations[id], PhaseOf(st.runs, id));
    var o := st.operations[id];
    if st.candidates[o.candidate.value].status.Pending? && st.sessions[o.session].status.Active? {
      OpenIsNotAborted(st, id);
    }
  }

  lemma CompletionFindsSession(st: State, id: Id)
    requires Reachable(st) && At(st, id, Confirmed)
    ensures var o := st.operations[id]; o.session < |st.sessions| && st.sessions[o.session].org == o.org
  {
    ReachableKeepsInv(st);
  }

  lemma StaleIsMarked(st: State, id: Id)
    requires Reachable(st) && At(st, id, StaleFound)
    ensures st.operations[id].status == APPROVED || st.operations[id].status == ABORTED
  {
    ReachableKeepsInv(st);
    StaleIsAlwaysMarked(st, id);
  }

  // ----- restarts -----

  /** The open rows among the first n. */
  function OpenBelow(os: seq<Operation>, n: nat): (r: seq<Id>)
    ensures forall id: Id :: id in r <==> id < n && id < |os| && AbortOpen(os[id])
    ensures forall k :: 0 <= k < |r| ==> r[k] < n
    ensures forall i, j :: 0 <= i < j < |r| ==> r[i] < r[j]
  {
    if n == 0 then []
    else if n <= |os| && AbortOpen(os[n - 1]) then OpenBelow(os, n - 1) + [n - 1]
    else OpenBelow(os, n - 1)
  }

  /** A selection of the given ids, in their order. */
  ghost predicate SelectedFrom(logged: seq<Id>, ids: seq<Id>) {
    && (forall id: Id :: id in logged ==> id in ids)
    && (forall i, j :: 0 <= i < j < |logged| ==> logged[i] < logged[j])
  }

  lemma SelectedOneMore(os: seq<Operation>, n: nat, i: nat, logged: seq<Id>)
    requires i < |OpenBelow(os, n)| && SelectedFrom(logged, OpenBelow(os, n)[..i])
    ensures var ids := OpenBelow(os, n);
            && ids[..i + 1] == ids[..i] + [ids[i]] && ids[i] < n && ids[i] < |os| && AbortOpen(os[ids[i]])
            && ids[i] !in ids[..i] && ids[i] !in logged
            && SelectedFrom(logged, ids[..i + 1]) && SelectedFrom(logged + [ids[i]], ids[..i + 1])
  {
    var ids := OpenBelow(os, n);
    assert ids[i] in ids;
    forall k | 0 <= k < |logged| ensures logged[k] < ids[i] {
      assert logged[k] in ids[..i];
    }
  }
}
