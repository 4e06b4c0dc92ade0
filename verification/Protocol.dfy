/** Sessions, exit candidates, card operations and the payment ledger, and every transaction that
    changes them. A transaction, and a guarded update outside one, is one step; work that waits
    between steps (card runs, queued aborts) is part of the state. Money is in hundredths. */
module Protocol {
  import opened Wrappers

  type Id = nat
  type Org = nat
  type Money = nat

  datatype SessionStatus = Active | AwaitingPayment | Completed
  datatype SessionSource = Regular | Subscription | Vip
  datatype PaymentMethod = Cash | Online | Card
  datatype ExitMethod = Auto | Manual | Forced | AutoClosedOnReentry | EmergencyExit

  datatype Session = Session(
    org: Org,
    plate: Option<string>,
    enteredAt: int,
    exitedAt: Option<int>,
    status: SessionStatus,
    source: SessionSource,
    amount: Option<Money>,
    paymentMethod: PaymentMethod,
    exitMethod: Option<ExitMethod>,
    activePlateKey: Option<(Org, string)>)

  datatype CandidateStatus = Pending | Accepted | Dismissed | Expired
  datatype Resolution =
    | Exact | Reassigned | DismissedByOperator | ForcedOpen | EmergencyForcedOpen | EmergencyConfirmed | ExitCancelled

  datatype Candidate = Candidate(
    org: Org,
    webhookEvent: Id,
    detectedPlate: Option<string>,
    matchedSession: Option<Id>,
    resolvedSession: Option<Id>,
    createdAt: int,
    status: CandidateStatus,
    resolution: Option<Resolution>)

  datatype OperationStatus =
    | PENDING | APPROVED | DECLINED | TIMEOUT | ERROR | FIN_CONFIRMED | FIN_FAILED | ABORTED | STALE_IGNORED | ORPHANED

  /** What happened to an operation outside its row. */
  datatype Trail = Trail(
    finRequests: nat,           // FIN messages sent
    finTaken: bool,             // the terminal confirmed one of them: the money is taken
    finConfirmed: bool,         // and its confirmation was received
    reconciliationLogged: bool, // a log row calls for manual reconciliation
    lost: bool)                 // a restart killed the run

  const NoTrail := Trail(0, false, false, false, false)

  datatype Operation = Operation(
    org: Org,
    session: Id,
    candidate: Option<Id>,
    number: nat,
    requested: Money,
    approved: Option<Money>,
    status: OperationStatus,
    trail: Trail)

  datatype Payment = Payment(org: Org, session: Id, amount: Money, means: PaymentMethod)

  /** Where the background run of an operation is suspended. */
  datatype Phase =
    | Queued
    | AwaitVrp
    | BeforeFin(attempt: nat)   // about to read the row
    | ReadyForFin(attempt: nat) // the row read APPROVED; connecting to the terminal
    | AwaitFin(attempt: nat)
    | Confirmed
    | StaleFound
    | StaleLogging
    | Exhausted
    | FailureLogging

  datatype Intent =
    | AbortSession(org: Org, session: Id, candidate: Option<Id>)
    | AbortCandidate(org: Org, ofCandidate: Id)
    | AbortChosen(operation: Id)

  /** Rows are indexed by their auto-increment ids and never deleted. */
  datatype State = State(
    sessions: seq<Session>,
    candidates: seq<Candidate>,
    operations: seq<Operation>,
    payments: seq<Payment>,
    runs: map<Id, Phase>,
    intents: multiset<Intent>,
    preRestart: Id) // operations below this id predate the running process

  datatype Refusal = BadRequest | NotFound | Conflict

  const MAX_OPERATION_NUMBER: nat := 99_999_999
  const FIN_ATTEMPTS: nat := 3

  // ----- queries -----

  /** The row satisfying p with the greatest key, the greatest id among equals. */
  function Latest<T>(rows: seq<T>, p: T -> bool, key: T -> int): (r: Option<Id>)
    ensures r.Some? ==> r.value < |rows| && p(rows[r.value])
    ensures r.Some? ==> forall j :: 0 <= j < |rows| && p(rows[j]) ==>
              key(rows[j]) <= key(rows[r.value]) && (key(rows[j]) == key(rows[r.value]) ==> j <= r.value)
    ensures r.None? ==> forall j :: 0 <= j < |rows| ==> !p(rows[j])
  {
    if rows == [] then None
    else
      var n := |rows| - 1;
      var best := Latest(rows[..n], p, key);
      if p(rows[n]) && (best.None? || key(rows[best.value]) <= key(rows[n])) then Some(n) else best
  }

  function LatestActive(sessions: seq<Session>, org: Org, plate: string): Option<Id> {
    Latest(sessions, (s: Session) => s.org == org && s.plate == Some(plate) && s.status.Active?,
           (s: Session) => s.enteredAt)
  }

  predicate Inside(s: Session) {
    s.status.Active? || s.status.AwaitingPayment?
  }

  /** The exact match of a detected plate: an active session if there is one, else an awaiting one. */
  function ExactInside(sessions: seq<Session>, org: Org, plate: string): Option<Id> {
    var active := LatestActive(sessions, org, plate);
    if active.Some? then active
    else Latest(sessions, (s: Session) => s.org == org && s.plate == Some(plate) && Inside(s),
                (s: Session) => s.enteredAt)
  }

  predicate KeyTaken(sessions: seq<Session>, key: (Org, string)) {
    exists i :: 0 <= i < |sessions| && sessions[i].activePlateKey == Some(key)
  }

  predicate Paid(payments: seq<Payment>, session: Id) {
    exists p :: 0 <= p < |payments| && payments[p].session == session
  }

  function LatestOperation(operations: seq<Operation>, org: Org): Option<Id> {
    Latest(operations, (o: Operation) => o.org == org, (o: Operation) => 0)
  }

  function OperationByNumber(operations: seq<Operation>, org: Org, number: nat): Option<Id> {
    Latest(operations, (o: Operation) => o.org == org && o.number == number, (o: Operation) => 0)
  }

  function LatestOfSession(operations: seq<Operation>, session: Id, org: Org): Option<Id> {
    Latest(operations, (o: Operation) => o.session == session && o.org == org, (o: Operation) => 0)
  }

  // ----- entry -----

  function CloseSession(s: Session, at: int, amount: Money, how: ExitMethod): Session {
    s.(status := Completed, exitedAt := Some(at), amount := Some(amount), exitMethod := Some(how),
       activePlateKey := None)
  }

  function CloseStaleOnReentry(st: State, org: Org, plate: string, now: int): State {
    match LatestActive(st.sessions, org, plate)
    case None => st
    case Some(id) => st.(sessions := st.sessions[id := CloseSession(st.sessions[id], now, 0, AutoClosedOnReentry)])
  }

  function NewSession(org: Org, plate: string, enteredAt: int, source: SessionSource): Session {
    Session(org, Some(plate), enteredAt, None, Active, source, None, Cash, None, Some((org, plate)))
  }

  /** The insert alone; the unique key on the active plate may refuse it. */
  function InsertActive(st: State, org: Org, plate: string, enteredAt: int, source: SessionSource)
    : Result<State, Refusal>
  {
    if KeyTaken(st.sessions, (org, plate)) then Err(Conflict)
    else Ok(st.(sessions := st.sessions + [NewSession(org, plate, enteredAt, source)]))
  }

  /** policy stands for the checks on work hours, capacity, look-alike active plates and tariffs. */
  function CreateEntry(st: State, org: Org, plate: string, now: int, enteredAt: int, source: SessionSource,
                       policy: Option<Refusal>): Result<State, Refusal>
  {
    if plate == "" then Err(BadRequest)
    else if policy.Some? then Err(policy.value)
    else
      var closed := CloseStaleOnReentry(st, org, plate, now);
      if ExactInside(closed.sessions, org, plate).Some? then Err(Conflict)
      else InsertActive(closed, org, plate, enteredAt, source)
  }

  /** The camera path: a refusal is recorded in the same transaction, so the stale close stays. */
  function EntryWebhook(st: State, org: Org, plate: string, now: int, source: SessionSource,
                        setAside: bool, policy: Option<Refusal>): State
  {
    var closed := CloseStaleOnReentry(st, org, plate, now);
    if LatestActive(closed.sessions, org, plate).Some? || setAside then closed
    else
      match CreateEntry(closed, org, plate, now, now, source, policy)
      case Ok(entered) => entered
      case Err(_) => closed
  }

  // ----- closing with a payment -----

  function Pay(st: State, id: Id, closed: Session, amount: Money, means: PaymentMethod): State
    requires id < |st.sessions|
  {
    st.(sessions := st.sessions[id := closed],
        payments := st.payments + [Payment(st.sessions[id].org, id, amount, means)])
  }

  function Queue(st: State, intent: Intent): State {
    st.(intents := st.intents + multiset{intent})
  }

  function CompleteSession(st: State, org: Org, plate: string, how: ExitMethod, exitedAt: int,
                           means: PaymentMethod, tariff: Money): Result<State, Refusal>
  {
    match LatestActive(st.sessions, org, plate)
    case None => Err(NotFound)
    case Some(id) =>
      var session := st.sessions[id];
      var regular := session.source.Regular?;
      var amount := if regular then tariff else 0;
      var closed := CloseSession(session, exitedAt, amount, how)
                    .(paymentMethod := if regular then means else session.paymentMethod);
      Ok(Queue(Pay(st, id, closed, amount, if regular then means else Cash), AbortSession(org, id, None)))
  }

  function ConfirmCash(st: State, id: Id): Result<State, Refusal> {
    if id >= |st.sessions| then Err(NotFound)
    else if !st.sessions[id].status.AwaitingPayment? then Err(BadRequest)
    else
      var session := st.sessions[id];
      var closed := session.(status := Completed, paymentMethod := Cash, activePlateKey := None);
      Ok(Queue(Pay(st, id, closed, Billed(session), Cash), AbortSession(session.org, id, None)))
  }

  function Billed(session: Session): Money {
    if session.amount.Some? then session.amount.value else 0
  }

  function ForceClose(st: State, id: Id, exitedAt: int, enteredAmount: Option<Money>, means: PaymentMethod,
                      tariff: Money): Result<State, Refusal>
  {
    if id >= |st.sessions| then Err(NotFound)
    else
      var session := st.sessions[id];
      if exitedAt < session.enteredAt || !session.status.Active? then Err(BadRequest)
      else
        var regular := session.source.Regular?;
        var amount := if enteredAmount.Some? then enteredAmount.value else if regular then tariff else 0;
        var closed := CloseSession(session, exitedAt, amount, Forced)
                      .(paymentMethod := if regular then means else session.paymentMethod);
        Ok(Pay(st, id, closed, amount, if regular then means else Cash))
  }

  // ----- exit candidates -----

  predicate HoldsMoney(o: Operation) {
    o.status == APPROVED || o.status == FIN_FAILED || o.status == ORPHANED
  }

  /** A free automatic exit that no payment, no money-holding operation and no later visit contradicts. */
  predicate Recoverable(st: State, id: Id, org: Org, plate: string, since: int) {
    && id < |st.sessions|
    && var s := st.sessions[id];
    && s.org == org && s.plate == Some(plate) && s.status.Completed? && s.source.Regular?
    && s.exitMethod == Some(Auto) && s.amount == Some(0)
    && s.exitedAt.Some? && s.exitedAt.value >= since
    && !Paid(st.payments, id)
    && (forall o :: o in st.operations && o.session == id ==> !HoldsMoney(o))
    && (forall later :: later in st.sessions && later.org == org && later.plate == Some(plate) ==>
          later.enteredAt <= s.enteredAt)
  }

  function RecoveryTarget(st: State, org: Org, plate: string, since: int): (r: Option<Id>)
    ensures r.Some? ==> Recoverable(st, r.value, org, plate, since)
  {
    Latest<Id>(seq(|st.sessions|, id requires 0 <= id => id),
               (id: Id) => Recoverable(st, id, org, plate, since),
               (id: Id) => if id < |st.sessions| then ExitTime(st.sessions[id]) else 0)
  }

  function ExitTime(s: Session): int {
    if s.exitedAt.Some? then s.exitedAt.value else 0
  }

  /** Free-exit recovery, in its own savepoint: a key clash rolls it back. */
  function Recover(st: State, org: Org, plate: string, since: int): (State, Option<Id>) {
    match RecoveryTarget(st, org, plate, since)
    case None => (st, None)
    case Some(id) =>
      if KeyTaken(st.sessions, (org, plate)) then (st, None)
      else
        (st.(sessions := st.sessions[id := st.sessions[id].(status := Active, exitedAt := None, amount := None,
                                                            exitMethod := None,
                                                            activePlateKey := Some((org, plate)))]),
         Some(id))
  }

  datatype ExitEvent = ExitEvent(
    org: Org,
    webhookEvent: Id,
    detectedPlate: Option<string>,
    nearMatch: Option<Id>,        // the choice of the plate matcher when no plate is equal
    recoverSince: Option<int>,    // None while recovery is switched off
    recentlyResolved: bool,       // a candidate for a like plate was resolved within the cooldown
    coalesceWith: Option<Id>,     // the pending candidate chosen to absorb this event
    at: int)

  /** The session an exit event is matched to, before any recovery. */
  function MatchExit(st: State, e: ExitEvent): Option<Id> {
    if e.detectedPlate.None? then None
    else
      var exact := ExactInside(st.sessions, e.org, e.detectedPlate.value);
      if exact.Some? then exact
      else if e.nearMatch.Some? && e.nearMatch.value < |st.sessions|
              && st.sessions[e.nearMatch.value].org == e.org && st.sessions[e.nearMatch.value].status.Active?
      then e.nearMatch
      else None
  }

  /** With its match settled, the event becomes a candidate unless it repeats or joins another. */
  function AddCandidate(st: State, e: ExitEvent, matched: Option<Id>): State {
    if e.detectedPlate.Some? && matched.None? && e.recentlyResolved then st
    else if e.coalesceWith.Some? && e.coalesceWith.value < |st.candidates|
            && st.candidates[e.coalesceWith.value].org == e.org
            && st.candidates[e.coalesceWith.value].status.Pending?
    then st
    else
      st.(candidates := st.candidates +
            [Candidate(e.org, e.webhookEvent, e.detectedPlate, matched, None, e.at, Pending, None)])
  }

  function CreateExitCandidate(st: State, e: ExitEvent): State {
    if exists c :: c in st.candidates && c.org == e.org && c.webhookEvent == e.webhookEvent then st
    else
      var found := MatchExit(st, e);
      if found.Some? && st.sessions[found.value].status.AwaitingPayment? then st
      else
        var (st', recovered) :=
          if e.detectedPlate.Some? && found.None? && e.recoverSince.Some?
          then Recover(st, e.org, e.detectedPlate.value, e.recoverSince.value) else (st, None);
        AddCandidate(st', e, if found.Some? then found else recovered)
  }

  /** The open candidate an operator acts on. */
  function OpenCandidate(st: State, org: Org, id: Id): Result<Candidate, Refusal> {
    if id >= |st.candidates| || st.candidates[id].org != org then Err(NotFound)
    else if !st.candidates[id].status.Pending? then Err(Conflict)
    else Ok(st.candidates[id])
  }

  function SetCandidate(st: State, id: Id, c: Candidate): State
    requires id < |st.candidates|
  {
    st.(candidates := st.candidates[id := c])
  }

  function PreviewCandidate(st: State, org: Org, id: Id, session: Id): Result<State, Refusal> {
    match OpenCandidate(st, org, id)
    case Err(e) => Err(e)
    case Ok(candidate) =>
      if session >= |st.sessions| || st.sessions[session].org != org || !Inside(st.sessions[session]) then Err(NotFound)
      else Ok(SetCandidate(st, id, candidate.(resolvedSession := Some(session))))
  }

  datatype ConfirmRequest = ConfirmRequest(
    selected: Option<Id>,
    means: Option<PaymentMethod>, // Cash or Online; anything else is refused for regular sessions
    emergency: bool,
    inpatient: bool,
    tariff: Option<Money>,         // the snapshot amount after a clinic discount
    at: int)

  /** The session a confirmation may close, or why it may not. */
  function ConfirmTarget(st: State, org: Org, id: Id, r: ConfirmRequest): (t: Result<Id, Refusal>)
    ensures t.Ok? ==>
              && id < |st.candidates| && st.candidates[id].org == org && st.candidates[id].status.Pending?
              && t.value < |st.sessions| && st.sessions[t.value].org == org && st.sessions[t.value].status.Active?
              && (Billable(st.sessions[t.value], r) ==> r.means.Some? && r.tariff.Some?)
  {
    match OpenCandidate(st, org, id)
    case Err(e) => Err(e)
    case Ok(candidate) =>
      var selected := if r.selected.Some? then r.selected else candidate.matchedSession;
      if selected.None? then Err(BadRequest)
      else if selected.value >= |st.sessions| || st.sessions[selected.value].org != org
              || !st.sessions[selected.value].status.Active? then Err(Conflict)
      else if Billable(st.sessions[selected.value], r) && r.means != Some(Cash) && r.means != Some(Online)
      then Err(BadRequest)
      else if Billable(st.sessions[selected.value], r) && r.tariff.None? then Err(Conflict)
      else Ok(selected.value)
  }

  predicate Billable(session: Session, r: ConfirmRequest) {
    session.source.Regular? && !r.emergency
  }

  predicate InpatientFree(session: Session, r: ConfirmRequest) {
    Billable(session, r) && session.plate.Some? && r.inpatient
  }

  function ConfirmCandidate(st: State, org: Org, id: Id, r: ConfirmRequest): Result<State, Refusal> {
    match ConfirmTarget(st, org, id, r)
    case Err(e) => Err(e)
    case Ok(sid) =>
      var session := st.sessions[sid];
      var charged := Billable(session, r) && !InpatientFree(session, r);
      var amount := if charged then r.tariff.value else 0;
      var means := if Billable(session, r) then r.means.value else session.paymentMethod;
      var closed := CloseSession(session, r.at, amount, if r.emergency then EmergencyExit else Auto)
                    .(paymentMethod := means);
      var settled := if charged then Pay(st, sid, closed, amount, means)
                     else st.(sessions := st.sessions[sid := closed]);
      var resolution := if r.emergency then EmergencyConfirmed else if r.selected.None? then Exact else Reassigned;
      var resolved := SetCandidate(settled, id, st.candidates[id].(status := Accepted, resolution := Some(resolution),
                                                                   resolvedSession := Some(sid)));
      Ok(if means.Cash? || means.Online? then Queue(resolved, AbortSession(org, sid, Some(id))) else resolved)
  }

  function ForceOpenCandidate(st: State, org: Org, id: Id, emergency: bool, at: int): Result<State, Refusal> {
    match OpenCandidate(st, org, id)
    case Err(e) => Err(e)
    case Ok(candidate) =>
      var target := candidate.resolvedSession;
      var released :=
        if target.Some? && target.value < |st.sessions| && st.sessions[target.value].org == org
           && !st.sessions[target.value].status.Completed?
        then st.(sessions := st.sessions[target.value :=
                   CloseSession(st.sessions[target.value], at, 0, if emergency then EmergencyExit else Forced)])
        else st;
      Ok(SetCandidate(released, id,
                      candidate.(status := Dismissed,
                                 resolution := Some(if emergency then EmergencyForcedOpen else ForcedOpen))))
  }

  function CancelCandidate(st: State, org: Org, id: Id): Result<State, Refusal> {
    match OpenCandidate(st, org, id)
    case Err(e) => Err(e)
    case Ok(candidate) =>
      if candidate.matchedSession.Some? then Err(Conflict)
      else
        Ok(Queue(SetCandidate(st, id, candidate.(status := Dismissed, resolution := Some(ExitCancelled))),
                 AbortCandidate(org, id)))
  }

  function DismissCandidate(st: State, org: Org, id: Id): Result<State, Refusal> {
    match OpenCandidate(st, org, id)
    case Err(e) => Err(e)
    case Ok(candidate) =>
      Ok(SetCandidate(st, id, candidate.(status := Dismissed, resolution := Some(DismissedByOperator))))
  }

  /** Which pending candidates an expiry pass takes: the old ones everywhere, or all of one organisation. */
  datatype ExpiryScope = OlderThan(cutoff: int) | WholeOrganization(org: Org)

  predicate InScope(c: Candidate, scope: ExpiryScope) {
    c.status.Pending? && match scope
                         case OlderThan(cutoff) => c.createdAt < cutoff
                         case WholeOrganization(org) => c.org == org
  }

  function ExpireCandidates(st: State, scope: ExpiryScope): State {
    st.(candidates := seq(|st.candidates|, i requires 0 <= i < |st.candidates| =>
                            if InScope(st.candidates[i], scope) then st.candidates[i].(status := Expired)
                            else st.candidates[i]))
  }

  /** stillFree: the tariff recomputed inside the transaction is zero. */
  function AutoExit(st: State, org: Org, id: Id, tariffFree: bool, stillFree: bool, at: int): State {
    if id >= |st.sessions| || st.sessions[id].org != org then st
    else
      var session := st.sessions[id];
      if tariffFree && !(session.status.Active? && session.source.Regular? && stillFree) then st
      else if !Inside(session) then st
      else st.(sessions := st.sessions[id := CloseSession(session, at, 0, Auto)])
  }

  // ----- starting card operations -----

  function NextNumber(operations: seq<Operation>, org: Org): Result<nat, Refusal> {
    var latest := LatestOperation(operations, org);
    var current := if latest.Some? then operations[latest.value].number else 0;
    if current >= MAX_OPERATION_NUMBER then Err(Conflict) else Ok(current + 1)
  }

  /** The insert of an operation and the scheduling of its run. */
  function StartOperation(st: State, org: Org, session: Id, candidate: Option<Id>, amount: Money)
    : Result<State, Refusal>
  {
    match NextNumber(st.operations, org)
    case Err(e) => Err(e)
    case Ok(number) =>
      Ok(st.(operations := st.operations + [Operation(org, session, candidate, number, amount, None, PENDING,
                                                      NoTrail)],
             runs := st.runs[|st.operations| := Queued]))
  }

  /** An operation already started for this candidate, or for this session. */
  predicate AlreadyStarted(operations: seq<Operation>, org: Org, candidate: Id, session: Id) {
    exists o :: o in operations && o.org == org && (o.candidate == Some(candidate) || o.session == session)
  }

  function StartAutomaticCard(st: State, org: Org, candidate: Id, session: Id, amount: Money): Result<State, Refusal> {
    if candidate >= |st.candidates| || st.candidates[candidate].org != org
       || !st.candidates[candidate].status.Pending? then Err(Conflict)
    else if session >= |st.sessions| || st.sessions[session].org != org
            || !st.sessions[session].status.Active? || !st.sessions[session].source.Regular? then Err(Conflict)
    else if amount == 0 then Err(BadRequest)
    else if AlreadyStarted(st.operations, org, candidate, session) then Err(Conflict)
    else StartOperation(st, org, session, Some(candidate), amount)
  }

  function StartManualCard(st: State, org: Org, plate: string, amount: Money): Result<State, Refusal> {
    match LatestActive(st.sessions, org, plate)
    case None => Err(NotFound)
    case Some(session) => StartOperation(st, org, session, None, amount)
  }

  function RetryCard(st: State, session: Id): Result<State, Refusal> {
    if session >= |st.sessions| then Err(NotFound)
    else if !st.sessions[session].status.Active? then Err(Conflict)
    else
      var org := st.sessions[session].org;
      match LatestOfSession(st.operations, session, org)
      case None => Err(NotFound)
      case Some(last) =>
        var latest := st.operations[last];
        if latest.status != DECLINED && latest.status != TIMEOUT then Err(Conflict)
        else if latest.candidate.Some?
                && !(latest.candidate.value < |st.candidates|
                     && st.candidates[latest.candidate.value].org == org
                     && st.candidates[latest.candidate.value].status.Pending?) then Err(Conflict)
        else StartOperation(st, org, session, latest.candidate, latest.requested)
  }

  // ----- the background run of an operation -----

  datatype VrpResult = VrpApproved(amount: Money) | VrpDeclined | VrpTimeout | VrpError

  function SetOperation(st: State, id: Id, o: Operation): State
    requires id < |st.operations|
  {
    st.(operations := st.operations[id := o])
  }

  function MoveRun(st: State, id: Id, phase: Phase): State {
    st.(runs := st.runs[id := phase])
  }

  function EndRun(st: State, id: Id): State {
    st.(runs := st.runs - {id})
  }

  predicate At(st: State, id: Id, phase: Phase) {
    id < |st.operations| && id in st.runs && st.runs[id] == phase
  }

  function RunBegins(st: State, id: Id): State
    requires At(st, id, Queued)
  {
    if st.operations[id].status == PENDING then MoveRun(st, id, AwaitVrp) else EndRun(st, id)
  }

  /** The status an answer to VRP is saved with. */
  function VrpStatus(result: VrpResult): OperationStatus {
    match result
    case VrpApproved(amount) => if amount == 0 then DECLINED else APPROVED
    case VrpDeclined => DECLINED
    case VrpTimeout => TIMEOUT
    case VrpError => ERROR
  }

  /** The guarded update with the answer to VRP; the terminal approves only positive amounts. */
  function VrpAnswered(st: State, id: Id, result: VrpResult): State
    requires At(st, id, AwaitVrp)
  {
    var o := st.operations[id];
    if o.status != PENDING then EndRun(st, id)
    else if VrpStatus(result) == APPROVED
    then MoveRun(SetOperation(st, id, o.(status := APPROVED, approved := Some(result.amount))), id, BeforeFin(1))
    else EndRun(SetOperation(st, id, o.(status := VrpStatus(result))), id)
  }

  /** A turn of the FIN loop goes ahead only if the row still reads APPROVED. */
  function FinChecked(st: State, id: Id, attempt: nat): State
    requires At(st, id, BeforeFin(attempt))
  {
    if st.operations[id].status == APPROVED then MoveRun(st, id, ReadyForFin(attempt)) else EndRun(st, id)
  }

  /** Connected and past the keep-alive, FIN goes out without another look at the row; whether it gets there and the
      terminal takes the money is the terminal's own affair. */
  function FinSent(st: State, id: Id, attempt: nat, taken: bool): State
    requires At(st, id, ReadyForFin(attempt))
  {
    var o := st.operations[id];
    var trail := o.trail.(finRequests := o.trail.finRequests + 1, finTaken := o.trail.finTaken || taken);
    MoveRun(SetOperation(st, id, o.(trail := trail)), id, AwaitFin(attempt))
  }

  function Confirm(o: Operation): Operation {
    o.(trail := o.trail.(finTaken := true, finConfirmed := true))
  }

  /** Without a confirmation, lost replies included, the loop goes on. */
  function FinAnswered(st: State, id: Id, attempt: nat, confirmed: bool): State
    requires At(st, id, AwaitFin(attempt))
  {
    var o := st.operations[id];
    if confirmed then MoveRun(SetOperation(st, id, Confirm(o)), id, Confirmed)
    else if attempt < FIN_ATTEMPTS then MoveRun(st, id, BeforeFin(attempt + 1))
    else MoveRun(st, id, Exhausted)
  }

  function ApprovedAmount(o: Operation): Money {
    if o.approved.Some? then o.approved.value else 0
  }

  /** What both completions write to the session, the ledger and the operation. */
  function SettleAt(st: State, row: Id, how: ExitMethod, at: int): State
    requires row < |st.operations| && st.operations[row].session < |st.sessions|
  {
    var o := st.operations[row];
    var closed := CloseSession(st.sessions[o.session], at, ApprovedAmount(o), how).(paymentMethod := Card);
    SetOperation(Pay(st, o.session, closed, ApprovedAmount(o), Card), row, o.(status := FIN_CONFIRMED))
  }

  /** completeCardPaymentForCandidate, which finds the row again by its number. */
  function CompleteForCandidate(st: State, id: Id, at: int): State
    requires At(st, id, Confirmed)
  {
    match OperationByNumber(st.operations, st.operations[id].org, st.operations[id].number)
    case None => EndRun(st, id)
    case Some(row) =>
      var o := st.operations[row];
      if o.candidate.None? || o.candidate.value >= |st.candidates| || o.session >= |st.sessions|
         || st.candidates[o.candidate.value].org != o.org || st.sessions[o.session].org != o.org then EndRun(st, id)
      else
        var candidate := st.candidates[o.candidate.value];
        if !candidate.status.Pending? || !st.sessions[o.session].status.Active? then MoveRun(st, id, StaleFound)
        else if o.status != APPROVED then EndRun(st, id)
        else if ApprovedAmount(o) == 0 then EndRun(st, id)
        else
          var resolution := if candidate.matchedSession == Some(o.session) then Exact else Reassigned;
          EndRun(SetCandidate(SettleAt(st, row, Auto, at), o.candidate.value,
                              candidate.(status := Accepted, resolution := Some(resolution),
                                         resolvedSession := Some(o.session))), id)
  }

  /** completeManualCardPayment. */
  function CompleteManual(st: State, id: Id, at: int): State
    requires At(st, id, Confirmed)
  {
    var o := st.operations[id];
    if o.session >= |st.sessions| || st.sessions[o.session].org != o.org then EndRun(st, id)
    else if o.status != APPROVED then EndRun(st, id)
    else if !st.sessions[o.session].status.Active? then
      EndRun(SetOperation(st, id, o.(status := STALE_IGNORED, trail := o.trail.(reconciliationLogged := true))), id)
    else EndRun(SettleAt(st, id, Manual, at), id)
  }

  function Complete(st: State, id: Id, at: int): State
    requires At(st, id, Confirmed)
  {
    if st.operations[id].candidate.Some? then CompleteForCandidate(st, id, at) else CompleteManual(st, id, at)
  }

  /** The update after a rolled-back completion. */
  function MarkStale(st: State, id: Id): State
    requires At(st, id, StaleFound)
  {
    var o := st.operations[id];
    if o.status == APPROVED || o.status == ABORTED
    then MoveRun(SetOperation(st, id, o.(status := STALE_IGNORED)), id, StaleLogging)
    else EndRun(st, id)
  }

  function MarkFinFailed(st: State, id: Id): State
    requires At(st, id, Exhausted)
  {
    var o := st.operations[id];
    if o.status == APPROVED then MoveRun(SetOperation(st, id, o.(status := FIN_FAILED)), id, FailureLogging)
    else EndRun(st, id)
  }

  /** The log row that calls for manual reconciliation. */
  function LogReconciliation(st: State, id: Id): State
    requires At(st, id, StaleLogging) || At(st, id, FailureLogging)
  {
    var o := st.operations[id];
    EndRun(SetOperation(st, id, o.(trail := o.trail.(reconciliationLogged := true))), id)
  }

  // ----- aborts -----

  predicate AbortOpen(o: Operation) {
    o.status == PENDING || o.status == APPROVED
  }

  predicate AbortTargets(intent: Intent, o: Operation) {
    AbortOpen(o) && match intent
                    case AbortSession(org, session, candidate) =>
                      o.org == org && o.session == session && (candidate.Some? ==> o.candidate == candidate)
                    case AbortCandidate(org, candidate) => o.org == org && o.candidate == Some(candidate)
                    case AbortChosen(_) => false
  }

  function LatestTarget(operations: seq<Operation>, intent: Intent): Option<Id> {
    Latest(operations, (o: Operation) => AbortTargets(intent, o), (o: Operation) => 0)
  }

  /** A queued abort reads the latest open operation it is meant for. */
  function ChooseAbort(st: State, intent: Intent): State
    requires intent in st.intents && !intent.AbortChosen?
  {
    var taken := st.(intents := st.intents - multiset{intent});
    match LatestTarget(st.operations, intent)
    case None => taken
    case Some(id) => Queue(taken, AbortChosen(id))
  }

  /** Its guarded update. */
  function ApplyAbort(st: State, id: Id): State
    requires AbortChosen(id) in st.intents
  {
    var taken := st.(intents := st.intents - multiset{AbortChosen(id)});
    if id < |st.operations| && AbortOpen(st.operations[id])
    then SetOperation(taken, id, st.operations[id].(status := ABORTED))
    else taken
  }

  // ----- restarts -----

  /** The process dies: runs and queued aborts vanish, rows stay. */
  function Restart(st: State): State {
    st.(operations := LoseRuns(st.operations, st.runs), runs := map[], intents := multiset{},
        preRestart := |st.operations|)
  }

  function LoseRuns(operations: seq<Operation>, runs: map<Id, Phase>): (r: seq<Operation>)
    ensures |r| == |operations|
  {
    seq(|operations|, i requires 0 <= i < |operations| =>
          if i in runs then operations[i].(trail := operations[i].trail.(lost := true)) else operations[i])
  }

  /** Startup marks an open operation left by an earlier process, if it still reads as selected. */
  function MarkOrphaned(st: State, id: Id, selected: OperationStatus): State {
    if id < st.preRestart && id < |st.operations| && (selected == PENDING || selected == APPROVED)
       && st.operations[id].status == selected
    then SetOperation(st, id, st.operations[id].(status := ORPHANED))
    else st
  }

  function UpdatePaymentMethod(st: State, id: Id, means: PaymentMethod): Result<State, Refusal> {
    if id >= |st.sessions| then Err(NotFound)
    else if !st.sessions[id].status.Completed? then Err(BadRequest)
    else
      Ok(st.(sessions := st.sessions[id := st.sessions[id].(paymentMethod := means)],
             payments := seq(|st.payments|, p requires 0 <= p < |st.payments| =>
                               if st.payments[p].session == id then st.payments[p].(means := means)
                               else st.payments[p])))
  }

  // ----- the transition system -----

  datatype SessionStep =
    | DoCloseStale(org: Org, plate: string, at: int)
    | DoInsertActive(org: Org, plate: string, at: int, source: SessionSource)
    | DoCreateEntry(org: Org, plate: string, now: int, at: int, source: SessionSource, policy: Option<Refusal>)
    | DoEntryWebhook(org: Org, plate: string, at: int, source: SessionSource, setAside: bool, policy: Option<Refusal>)
    | DoCompleteSession(org: Org, plate: string, how: ExitMethod, at: int, means: PaymentMethod, tariff: Money)
    | DoConfirmCash(id: Id)
    | DoForceClose(id: Id, at: int, enteredAmount: Option<Money>, means: PaymentMethod, tariff: Money)
    | DoAutoExit(org: Org, id: Id, tariffFree: bool, stillFree: bool, at: int)
    | DoUpdatePaymentMethod(id: Id, means: PaymentMethod)

  datatype CandidateStep =
    | DoCreateExitCandidate(event: ExitEvent)
    | DoPreview(org: Org, id: Id, session: Id)
    | DoConfirmCandidate(org: Org, id: Id, request: ConfirmRequest)
    | DoForceOpen(org: Org, id: Id, emergency: bool, at: int)
    | DoCancel(org: Org, id: Id)
    | DoDismiss(org: Org, id: Id)
    | DoExpire(scope: ExpiryScope)

  datatype CardStep =
    | DoStartAutomaticCard(org: Org, id: Id, session: Id, amount: Money)
    | DoStartManualCard(org: Org, plate: string, amount: Money)
    | DoRetryCard(id: Id)
    | DoRun(id: Id, vrp: VrpResult, fin: bool, at: int)
    | DoChooseAbort(intent: Intent)
    | DoApplyAbort(id: Id)
    | DoRestart
    | DoMarkOrphaned(id: Id, selected: OperationStatus)

  datatype Step = OnSession(s: SessionStep) | OnCandidate(c: CandidateStep) | OnCard(o: CardStep)

  /** A refused transaction rolls back. */
  function Committed(st: State, result: Result<State, Refusal>): State {
    if result.Ok? then result.value else st
  }

  /** One resumption of an operation's run; the terminal is arbitrary: vrp is its answer to VRP, fin whether it
      takes the money when FIN is sent, or whether its confirmation is received when FIN is awaited. */
  function RunStep(st: State, id: Id, vrp: VrpResult, fin: bool, at: int): State {
    if id !in st.runs || id >= |st.operations| then st
    else
      match st.runs[id]
      case Queued => RunBegins(st, id)
      case AwaitVrp => VrpAnswered(st, id, vrp)
      case BeforeFin(attempt) => FinChecked(st, id, attempt)
      case ReadyForFin(attempt) => FinSent(st, id, attempt, fin)
      case AwaitFin(attempt) => FinAnswered(st, id, attempt, fin)
      case Confirmed => Complete(st, id, at)
      case StaleFound => MarkStale(st, id)
      case StaleLogging => LogReconciliation(st, id)
      case Exhausted => MarkFinFailed(st, id)
      case FailureLogging => LogReconciliation(st, id)
  }

  function NextSession(st: State, step: SessionStep): State {
    match step
    case DoCloseStale(org, plate, at) => CloseStaleOnReentry(st, org, plate, at)
    case DoInsertActive(org, plate, at, source) => Committed(st, InsertActive(st, org, plate, at, source))
    case DoCreateEntry(org, plate, now, at, source, policy) =>
      Committed(st, CreateEntry(st, org, plate, now, at, source, policy))
    case DoEntryWebhook(org, plate, at, source, setAside, policy) =>
      EntryWebhook(st, org, plate, at, source, setAside, policy)
    case DoCompleteSession(org, plate, how, at, means, tariff) =>
      Committed(st, CompleteSession(st, org, plate, how, at, means, tariff))
    case DoConfirmCash(id) => Committed(st, ConfirmCash(st, id))
    case DoForceClose(id, at, enteredAmount, means, tariff) =>
      Committed(st, ForceClose(st, id, at, enteredAmount, means, tariff))
    case DoAutoExit(org, id, tariffFree, stillFree, at) => AutoExit(st, org, id, tariffFree, stillFree, at)
    case DoUpdatePaymentMethod(id, means) => Committed(st, UpdatePaymentMethod(st, id, means))
  }

  function NextCandidate(st: State, step: CandidateStep): State {
    match step
    case DoCreateExitCandidate(event) => CreateExitCandidate(st, event)
    case DoPreview(org, id, session) => Committed(st, PreviewCandidate(st, org, id, session))
    case DoConfirmCandidate(org, id, request) => Committed(st, ConfirmCandidate(st, org, id, request))
    case DoForceOpen(org, id, emergency, at) => Committed(st, ForceOpenCandidate(st, org, id, emergency, at))
    case DoCancel(org, id) => Committed(st, CancelCandidate(st, org, id))
    case DoDismiss(org, id) => Committed(st, DismissCandidate(st, org, id))
    case DoExpire(scope) => ExpireCandidates(st, scope)
  }

  function NextCard(st: State, step: CardStep): State {
    match step
    case DoStartAutomaticCard(org, id, session, amount) =>
      Committed(st, StartAutomaticCard(st, org, id, session, amount))
    case DoStartManualCard(org, plate, amount) => Committed(st, StartManualCard(st, org, plate, amount))
    case DoRetryCard(id) => Committed(st, RetryCard(st, id))
    case DoRun(id, vrp, fin, at) => RunStep(st, id, vrp, fin, at)
    case DoChooseAbort(intent) =>
      if intent in st.intents && !intent.AbortChosen? then ChooseAbort(st, intent) else st
    case DoApplyAbort(id) => if AbortChosen(id) in st.intents then ApplyAbort(st, id) else st
    case DoRestart => Restart(st)
    case DoMarkOrphaned(id, selected) => MarkOrphaned(st, id, selected)
  }

  function Next(st: State, step: Step): State {
    match step
    case OnSession(s) => NextSession(st, s)
    case OnCandidate(c) => NextCandidate(st, c)
    case OnCard(o) => NextCard(st, o)
  }

  function Run(st: State, steps: seq<Step>): State {
    if steps == [] then st else Next(Run(st, steps[..|steps| - 1]), steps[|steps| - 1])
  }
}
