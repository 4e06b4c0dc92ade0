/** What every step of the protocol keeps. Each conjunct of the invariant reads only the tables it is
    about, so a step that leaves them alone keeps it for free. */
module ProtocolInvariants {
  import opened Wrappers
  import opened Protocol

  // ----- sessions -----

  /** An active session carries the key of its plate and nothing about an exit, a completed one carries no key. */
  predicate KeyMatchesStatus(s: Session) {
    match s.status
    case Active =>
      && s.plate.Some? && s.activePlateKey == Some((s.org, s.plate.value))
      && s.exitedAt.None? && s.amount.None? && s.exitMethod.None?
    case AwaitingPayment => s.activePlateKey.Some? ==> s.plate.Some? && s.activePlateKey == Some((s.org, s.plate.value))
    case Completed => s.activePlateKey.None?
  }

  ghost predicate SessionsOk(ss: seq<Session>) {
    && (forall i :: 0 <= i < |ss| ==> KeyMatchesStatus(ss[i]))
    && (forall i, j :: 0 <= i < j < |ss| && ss[i].activePlateKey.Some? ==>
          ss[i].activePlateKey != ss[j].activePlateKey)
  }

  // ----- the ledger -----

  /** Payments belong to completed sessions, one each, of the amount the session records;
      a completed session with an amount has its payment. */
  ghost predicate LedgerOk(ss: seq<Session>, ps: seq<Payment>) {
    && (forall p :: 0 <= p < |ps| ==>
          ps[p].session < |ss| && ss[ps[p].session].status.Completed?
          && ps[p].amount == Billed(ss[ps[p].session]) && ps[p].org == ss[ps[p].session].org)
    && (forall p, q :: 0 <= p < q < |ps| ==> ps[p].session != ps[q].session)
    && (forall i :: 0 <= i < |ss| && ss[i].status.Completed? && Billed(ss[i]) > 0 ==> Paid(ps, i))
  }

  // ----- operations -----

  ghost predicate RefsOk(os: seq<Operation>, ss: seq<Session>, cs: seq<Candidate>) {
    forall i :: 0 <= i < |os| ==>
      && os[i].session < |ss| && ss[os[i].session].org == os[i].org
      && (os[i].candidate.Some? ==>
            os[i].candidate.value < |cs| && cs[os[i].candidate.value].org == os[i].org)
  }

  /** Operation numbers grow with the ids of an organisation. */
  ghost predicate NumbersOk(os: seq<Operation>) {
    && (forall i :: 0 <= i < |os| ==> 1 <= os[i].number <= MAX_OPERATION_NUMBER)
    && (forall i, j :: 0 <= i < j < |os| && os[i].org == os[j].org ==> os[i].number < os[j].number)
  }

  predicate HasApproval(o: Operation) {
    o.approved.Some? && o.approved.value > 0
  }

  /** An operation against the phase its run is suspended in, if it still has one. */
  predicate PhaseOk(o: Operation, phase: Option<Phase>) {
    && (o.status == FIN_CONFIRMED ==> HasApproval(o) && o.trail.finConfirmed)
    && (o.trail.finConfirmed ==> o.trail.finTaken) && (o.trail.finTaken ==> o.trail.finRequests > 0)
    && match phase
       case None =>
         && o.trail.finRequests <= FIN_ATTEMPTS
         && (AbortOpen(o) || o.status == ORPHANED ==> o.trail.lost)
         && (!o.trail.lost && (o.status == FIN_FAILED || o.status == STALE_IGNORED) ==> o.trail.reconciliationLogged)
         && (!o.trail.lost && o.trail.finRequests > 0 ==> FinOutcome(o.status))
         && (!o.trail.lost && o.trail.finConfirmed ==>
               || o.status == FIN_CONFIRMED
               || o.status == STALE_IGNORED
               || (o.status == ABORTED && o.candidate.None?))
       case Some(p) => !o.trail.lost && !o.trail.reconciliationLogged && RunPhaseOk(o, p)
  }

  /** How an operation can end that got as far as FIN. */
  predicate FinOutcome(status: OperationStatus) {
    status == FIN_CONFIRMED || status == STALE_IGNORED || status == FIN_FAILED || status == ABORTED
  }

  predicate RunPhaseOk(o: Operation, phase: Phase) {
    var fins, confirmed := o.trail.finRequests, o.trail.finConfirmed;
    match phase
    case Queued => (o.status == PENDING || o.status == ABORTED) && fins == 0
    case AwaitVrp => (o.status == PENDING || o.status == ABORTED) && fins == 0
    case BeforeFin(k) => ApprovedOrAborted(o) && 1 <= k <= FIN_ATTEMPTS && fins == k - 1 && !confirmed
    case ReadyForFin(k) => ApprovedOrAborted(o) && 1 <= k <= FIN_ATTEMPTS && fins == k - 1 && !confirmed
    case AwaitFin(k) => ApprovedOrAborted(o) && 1 <= k <= FIN_ATTEMPTS && fins == k && !confirmed
    case Confirmed => ApprovedOrAborted(o) && fins <= FIN_ATTEMPTS && confirmed
    case StaleFound => ApprovedOrAborted(o) && fins <= FIN_ATTEMPTS && confirmed && o.candidate.Some?
    case StaleLogging => o.status == STALE_IGNORED && fins <= FIN_ATTEMPTS && confirmed
    case Exhausted => ApprovedOrAborted(o) && fins == FIN_ATTEMPTS && !confirmed
    case FailureLogging => o.status == FIN_FAILED && fins == FIN_ATTEMPTS && !confirmed
  }

  predicate ApprovedOrAborted(o: Operation) {
    HasApproval(o) && (o.status == APPROVED || o.status == ABORTED)
  }

  function PhaseOf(runs: map<Id, Phase>, id: Id): Option<Phase> {
    if id in runs then Some(runs[id]) else None
  }

  ghost predicate RunsOk(os: seq<Operation>, runs: map<Id, Phase>, preRestart: Id) {
    && preRestart <= |os|
    && (forall id: Id :: id in runs ==> preRestart <= id < |os|)
    && (forall id :: 0 <= id < |os| ==> PhaseOk(os[id], PhaseOf(runs, id)))
    && (forall id :: 0 <= id < |os| && os[id].trail.lost ==> id < preRestart)
  }

  // ----- aborts and confirmations -----

  predicate Resolved(cs: seq<Candidate>, candidate: Id) {
    candidate < |cs| && !cs[candidate].status.Pending?
  }

  /** Why an operation may be aborted: its candidate is resolved, or its session already has a payment. */
  predicate AbortJustified(o: Operation, cs: seq<Candidate>, ps: seq<Payment>) {
    (o.candidate.Some? && Resolved(cs, o.candidate.value)) || Paid(ps, o.session)
  }

  predicate IntentJustified(intent: Intent, os: seq<Operation>, cs: seq<Candidate>, ps: seq<Payment>) {
    match intent
    case AbortSession(_, session, candidate) =>
      if candidate.Some? then Resolved(cs, candidate.value) else Paid(ps, session)
    case AbortCandidate(_, candidate) => Resolved(cs, candidate)
    case AbortChosen(id) => id < |os| && AbortJustified(os[id], cs, ps)
  }

  ghost predicate AbortsOk(os: seq<Operation>, intents: multiset<Intent>, cs: seq<Candidate>, ps: seq<Payment>) {
    && (forall i :: 0 <= i < |os| && os[i].status == ABORTED ==> AbortJustified(os[i], cs, ps))
    && (forall intent :: intent in intents ==> IntentJustified(intent, os, cs, ps))
  }

  predicate PaidExactly(ps: seq<Payment>, session: Id, amount: Money) {
    exists p :: 0 <= p < |ps| && ps[p].session == session && ps[p].amount == amount
  }

  /** A confirmed operation stands for the payment of its session and the acceptance of its candidate. */
  predicate ConfirmationOk(o: Operation, cs: seq<Candidate>, ps: seq<Payment>) {
    && PaidExactly(ps, o.session, ApprovedAmount(o))
    && (o.candidate.Some? ==>
          && o.candidate.value < |cs|
          && cs[o.candidate.value].status.Accepted?
          && cs[o.candidate.value].resolvedSession == Some(o.session))
  }

  ghost predicate ConfirmationsOk(os: seq<Operation>, cs: seq<Candidate>, ps: seq<Payment>) {
    && (forall i :: 0 <= i < |os| && os[i].status == FIN_CONFIRMED ==> ConfirmationOk(os[i], cs, ps))
    && (forall i, j :: 0 <= i < j < |os| && os[i].status == FIN_CONFIRMED && os[j].status == FIN_CONFIRMED ==>
          os[i].session != os[j].session)
  }

  ghost predicate Inv(st: State) {
    && SessionsOk(st.sessions)
    && LedgerOk(st.sessions, st.payments)
    && RefsOk(st.operations, st.sessions, st.candidates)
    && NumbersOk(st.operations)
    && RunsOk(st.operations, st.runs, st.preRestart)
    && AbortsOk(st.operations, st.intents, st.candidates, st.payments)
    && ConfirmationsOk(st.operations, st.candidates, st.payments)
  }

  /** The system starts with no candidates, operations or payments, and at most some awaiting sessions
      left by an older version. */
  ghost predicate Init(st: State) {
    && st.candidates == [] && st.operations == [] && st.payments == []
    && st.runs == map[] && st.intents == multiset{} && st.preRestart == 0
    && SessionsOk(st.sessions)
    && forall i :: 0 <= i < |st.sessions| ==> st.sessions[i].status.AwaitingPayment?
  }

  lemma InitEstablishesInv(st: State)
    requires Init(st)
    ensures Inv(st)
  {
  }

  // ----- growth of tables -----

  /** Resolved candidates are final; organisations never change. */
  ghost predicate CandidatesAdvance(cs: seq<Candidate>, cs': seq<Candidate>) {
    && |cs| <= |cs'|
    && (forall c :: 0 <= c < |cs| ==> cs'[c].org == cs[c].org && (!cs[c].status.Pending? ==> cs'[c] == cs[c]))
  }

  ghost predicate PaymentsGrow(ps: seq<Payment>, ps': seq<Payment>) {
    && |ps| <= |ps'|
    && (forall p :: 0 <= p < |ps| ==> ps'[p].session == ps[p].session && ps'[p].amount == ps[p].amount)
  }

  ghost predicate SessionsGrow(ss: seq<Session>, ss': seq<Session>) {
    |ss| <= |ss'| && forall i :: 0 <= i < |ss| ==> ss'[i].org == ss[i].org
  }

  lemma PaidGrows(ps: seq<Payment>, ps': seq<Payment>, session: Id)
    requires PaymentsGrow(ps, ps')
    ensures Paid(ps, session) ==> Paid(ps', session)
    ensures forall amount :: PaidExactly(ps, session, amount) ==> PaidExactly(ps', session, amount)
  {
    if Paid(ps, session) {
      var p :| 0 <= p < |ps| && ps[p].session == session;
      assert ps'[p].session == session;
    }
    forall amount | PaidExactly(ps, session, amount) ensures PaidExactly(ps', session, amount) {
      var p :| 0 <= p < |ps| && ps[p].session == session && ps[p].amount == amount;
      assert ps'[p].session == session;
    }
  }

  lemma AbortsGrow(os: seq<Operation>, intents: multiset<Intent>, cs: seq<Candidate>, ps: seq<Payment>,
                   cs': seq<Candidate>, ps': seq<Payment>)
    requires AbortsOk(os, intents, cs, ps) && CandidatesAdvance(cs, cs') && PaymentsGrow(ps, ps')
    ensures AbortsOk(os, intents, cs', ps')
  {
    forall session: Id ensures Paid(ps, session) ==> Paid(ps', session) {
      PaidGrows(ps, ps', session);
    }
    forall i | 0 <= i < |os| && os[i].status == ABORTED ensures AbortJustified(os[i], cs', ps') {
      assert AbortJustified(os[i], cs, ps);
    }
    forall intent | intent in intents ensures IntentJustified(intent, os, cs', ps') {
      assert IntentJustified(intent, os, cs, ps);
    }
  }

  lemma ConfirmationsGrow(os: seq<Operation>, cs: seq<Candidate>, ps: seq<Payment>,
                          cs': seq<Candidate>, ps': seq<Payment>)
    requires ConfirmationsOk(os, cs, ps) && CandidatesAdvance(cs, cs') && PaymentsGrow(ps, ps')
    ensures ConfirmationsOk(os, cs', ps')
  {
    forall i | 0 <= i < |os| && os[i].status == FIN_CONFIRMED ensures ConfirmationOk(os[i], cs', ps') {
      assert ConfirmationOk(os[i], cs, ps);
      PaidGrows(ps, ps', os[i].session);
    }
  }

  lemma RefsGrow(os: seq<Operation>, ss: seq<Session>, cs: seq<Candidate>, ss': seq<Session>, cs': seq<Candidate>)
    requires RefsOk(os, ss, cs) && SessionsGrow(ss, ss') && CandidatesAdvance(cs, cs')
    ensures RefsOk(os, ss', cs')
  {
  }

  /** A step that touches neither operations nor runs keeps the invariant if the tables merely grow. */
  lemma TablesGrow(st: State, st': State)
    requires Inv(st)
    requires st'.operations == st.operations && st'.runs == st.runs && st'.preRestart == st.preRestart
    requires SessionsGrow(st.sessions, st'.sessions) && CandidatesAdvance(st.candidates, st'.candidates)
    requires PaymentsGrow(st.payments, st'.payments)
    requires SessionsOk(st'.sessions) && LedgerOk(st'.sessions, st'.payments)
    requires forall intent :: intent in st'.intents && intent !in st.intents ==>
               IntentJustified(intent, st'.operations, st'.candidates, st'.payments)
    ensures Inv(st')
  {
    RefsGrow(st.operations, st.sessions, st.candidates, st'.sessions, st'.candidates);
    AbortsGrow(st.operations, st.intents, st.candidates, st.payments, st'.candidates, st'.payments);
    ConfirmationsGrow(st.operations, st.candidates, st.payments, st'.candidates, st'.payments);
  }

  // ----- steps on sessions -----

  /** Closing an inside session for nothing. */
  lemma CloseKeepsTables(ss: seq<Session>, ps: seq<Payment>, id: Id, closed: Session)
    requires SessionsOk(ss) && LedgerOk(ss, ps) && id < |ss| && Inside(ss[id])
    requires closed.status.Completed? && closed.activePlateKey.None? && closed.org == ss[id].org && Billed(closed) == 0
    ensures SessionsOk(ss[id := closed]) && LedgerOk(ss[id := closed], ps)
    ensures SessionsGrow(ss, ss[id := closed])
  {
  }

  /** Closing an inside session with one payment of its amount. */
  lemma PayKeepsTables(ss: seq<Session>, ps: seq<Payment>, id: Id, closed: Session, payment: Payment)
    requires SessionsOk(ss) && LedgerOk(ss, ps) && id < |ss| && Inside(ss[id])
    requires closed.status.Completed? && closed.activePlateKey.None? && closed.org == ss[id].org
    requires payment.session == id && payment.amount == Billed(closed) && payment.org == closed.org
    ensures SessionsOk(ss[id := closed]) && LedgerOk(ss[id := closed], ps + [payment])
    ensures SessionsGrow(ss, ss[id := closed]) && PaymentsGrow(ps, ps + [payment])
    ensures Paid(ps + [payment], id) && PaidExactly(ps + [payment], id, payment.amount)
  {
    var ss', ps' := ss[id := closed], ps + [payment];
    assert ps'[|ps|] == payment;
    forall i | 0 <= i < |ss'| && ss'[i].status.Completed? && Billed(ss'[i]) > 0 ensures Paid(ps', i) {
      if i != id {
        PaidGrows(ps, ps', i);
      }
    }
  }

  lemma InsertKeepsTables(ss: seq<Session>, ps: seq<Payment>, org: Org, plate: string, at: int, source: SessionSource)
    requires SessionsOk(ss) && LedgerOk(ss, ps) && !KeyTaken(ss, (org, plate))
    ensures SessionsOk(ss + [NewSession(org, plate, at, source)])
    ensures LedgerOk(ss + [NewSession(org, plate, at, source)], ps)
  {
  }

  /** Free-exit recovery reopens a session that nobody paid for. */
  lemma RecoveryKeepsTables(ss: seq<Session>, ps: seq<Payment>, id: Id, reopened: Session)
    requires SessionsOk(ss) && LedgerOk(ss, ps) && id < |ss| && !Paid(ps, id)
    requires reopened.status.Active? && reopened.org == ss[id].org && KeyMatchesStatus(reopened)
    requires !KeyTaken(ss, reopened.activePlateKey.value)
    ensures SessionsOk(ss[id := reopened]) && LedgerOk(ss[id := reopened], ps)
    ensures SessionsGrow(ss, ss[id := reopened])
  {
    var ss' := ss[id := reopened];
    forall p | 0 <= p < |ps| ensures ps[p].session != id {
      assert !(ps[p].session == id);
    }
  }

  lemma CloseStaleKeepsInv(st: State, org: Org, plate: string, at: int)
    requires Inv(st)
    ensures Inv(CloseStaleOnReentry(st, org, plate, at))
    ensures LatestActive(CloseStaleOnReentry(st, org, plate, at).sessions, org, plate).None?
  {
    var st' := CloseStaleOnReentry(st, org, plate, at);
    var latest := LatestActive(st.sessions, org, plate);
    if latest.Some? {
      var id := latest.value;
      CloseKeepsTables(st.sessions, st.payments, id, st'.sessions[id]);
      TablesGrow(st, st');
      forall i | 0 <= i < |st.sessions| && i != id ensures !IsActiveWith(st.sessions[i], org, plate) {
        assert st.sessions[id].activePlateKey == Some((org, plate));
      }
      assert forall i :: 0 <= i < |st'.sessions| ==> !IsActiveWith(st'.sessions[i], org, plate);
      var again := LatestActive(st'.sessions, org, plate);
      assert again.Some? ==> IsActiveWith(st'.sessions[again.value], org, plate);
    }
  }

  predicate IsActiveWith(s: Session, org: Org, plate: string) {
    s.org == org && s.plate == Some(plate) && s.status.Active?
  }

  lemma InsertActiveKeepsInv(st: State, org: Org, plate: string, at: int, source: SessionSource)
    requires Inv(st)
    ensures Inv(Committed(st, InsertActive(st, org, plate, at, source)))
  {
    var result := InsertActive(st, org, plate, at, source);
    if result.Ok? {
      InsertKeepsTables(st.sessions, st.payments, org, plate, at, source);
      TablesGrow(st, result.value);
    }
  }

  lemma CreateEntryKeepsInv(st: State, org: Org, plate: string, now: int, at: int, source: SessionSource,
                            policy: Option<Refusal>)
    requires Inv(st)
    ensures Inv(Committed(st, CreateEntry(st, org, plate, now, at, source, policy)))
  {
    CloseStaleKeepsInv(st, org, plate, now);
    InsertActiveKeepsInv(CloseStaleOnReentry(st, org, plate, now), org, plate, at, source);
  }

  lemma EntryWebhookKeepsInv(st: State, org: Org, plate: string, at: int, source: SessionSource, setAside: bool,
                             policy: Option<Refusal>)
    requires Inv(st)
    ensures Inv(EntryWebhook(st, org, plate, at, source, setAside, policy))
  {
    CloseStaleKeepsInv(st, org, plate, at);
    CreateEntryKeepsInv(CloseStaleOnReentry(st, org, plate, at), org, plate, at, at, source, policy);
  }

  /** The shape shared by every close that takes money. */
  lemma PayKeepsInv(st: State, id: Id, closed: Session, amount: Money, means: PaymentMethod)
    requires Inv(st) && id < |st.sessions| && Inside(st.sessions[id])
    requires closed.status.Completed? && closed.activePlateKey.None? && closed.org == st.sessions[id].org
    requires Billed(closed) == amount
    ensures Inv(Pay(st, id, closed, amount, means)) && Paid(Pay(st, id, closed, amount, means).payments, id)
  {
    PayKeepsTables(st.sessions, st.payments, id, closed, Payment(st.sessions[id].org, id, amount, means));
    TablesGrow(st, Pay(st, id, closed, amount, means));
  }

  lemma CloseFreeKeepsInv(st: State, id: Id, closed: Session)
    requires Inv(st) && id < |st.sessions| && Inside(st.sessions[id])
    requires closed.status.Completed? && closed.activePlateKey.None? && closed.org == st.sessions[id].org
    requires Billed(closed) == 0
    ensures Inv(st.(sessions := st.sessions[id := closed]))
  {
    CloseKeepsTables(st.sessions, st.payments, id, closed);
    TablesGrow(st, st.(sessions := st.sessions[id := closed]));
  }

  lemma QueueKeepsInv(st: State, intent: Intent)
    requires Inv(st) && IntentJustified(intent, st.operations, st.candidates, st.payments)
    ensures Inv(Queue(st, intent))
  {
    TablesGrow(st, Queue(st, intent));
  }

  lemma CompleteSessionKeepsInv(st: State, org: Org, plate: string, how: ExitMethod, at: int,
                                means: PaymentMethod, tariff: Money)
    requires Inv(st)
    ensures Inv(Committed(st, CompleteSession(st, org, plate, how, at, means, tariff)))
  {
    var latest := LatestActive(st.sessions, org, plate);
    if latest.Some? {
      var id := latest.value;
      var session := st.sessions[id];
      var regular := session.source.Regular?;
      var amount := if regular then tariff else 0;
      var closed := CloseSession(session, at, amount, how)
                    .(paymentMethod := if regular then means else session.paymentMethod);
      PayKeepsInv(st, id, closed, amount, if regular then means else Cash);
      QueueKeepsInv(Pay(st, id, closed, amount, if regular then means else Cash), AbortSession(org, id, None));
    }
  }

  lemma ConfirmCashKeepsInv(st: State, id: Id)
    requires Inv(st)
    ensures Inv(Committed(st, ConfirmCash(st, id)))
  {
    if id < |st.sessions| && st.sessions[id].status.AwaitingPayment? {
      var session := st.sessions[id];
      var closed := session.(status := Completed, paymentMethod := Cash, activePlateKey := None);
      PayKeepsInv(st, id, closed, Billed(session), Cash);
      QueueKeepsInv(Pay(st, id, closed, Billed(session), Cash), AbortSession(session.org, id, None));
    }
  }

  lemma ForceCloseKeepsInv(st: State, id: Id, at: int, enteredAmount: Option<Money>, means: PaymentMethod,
                           tariff: Money)
    requires Inv(st)
    ensures Inv(Committed(st, ForceClose(st, id, at, enteredAmount, means, tariff)))
  {
    if ForceClose(st, id, at, enteredAmount, means, tariff).Ok? {
      var session := st.sessions[id];
      var regular := session.source.Regular?;
      var amount := if enteredAmount.Some? then enteredAmount.value else if regular then tariff else 0;
      PayKeepsInv(st, id, CloseSession(session, at, amount, Forced)
                          .(paymentMethod := if regular then means else session.paymentMethod),
                  amount, if regular then means else Cash);
    }
  }

  lemma AutoExitKeepsInv(st: State, org: Org, id: Id, tariffFree: bool, stillFree: bool, at: int)
    requires Inv(st)
    ensures Inv(AutoExit(st, org, id, tariffFree, stillFree, at))
  {
    if id < |st.sessions| && Inside(st.sessions[id]) {
      CloseFreeKeepsInv(st, id, CloseSession(st.sessions[id], at, 0, Auto));
    }
  }

  // ----- steps on candidates -----

  lemma SetCandidateKeepsInv(st: State, id: Id, c: Candidate)
    requires Inv(st) && id < |st.candidates| && st.candidates[id].status.Pending? && c.org == st.candidates[id].org
    ensures Inv(SetCandidate(st, id, c))
  {
    TablesGrow(st, SetCandidate(st, id, c));
  }

  lemma RecoverKeepsInv(st: State, org: Org, plate: string, since: int)
    requires Inv(st)
    ensures Inv(Recover(st, org, plate, since).0)
    ensures var (st', recovered) := Recover(st, org, plate, since);
            && st'.candidates == st.candidates
            && (recovered.None? ==> st' == st)
            && (recovered.Some? ==>
                  && recovered.value < |st.sessions| && st'.sessions[recovered.value].status.Active?
                  && !Paid(st'.payments, recovered.value)
                  && (forall o :: o in st'.operations && o.session == recovered.value ==> !HoldsMoney(o))
                  && (forall i :: 0 <= i < |st'.sessions| && i != recovered.value ==>
                        st'.sessions[i].activePlateKey != Some((org, plate))))
  {
    var target := RecoveryTarget(st, org, plate, since);
    if target.Some? && !KeyTaken(st.sessions, (org, plate)) {
      var st' := Recover(st, org, plate, since).0;
      RecoveryKeepsTables(st.sessions, st.payments, target.value, st'.sessions[target.value]);
      TablesGrow(st, st');
    }
  }

  lemma AddCandidateKeepsInv(st: State, c: Candidate)
    requires Inv(st)
    ensures Inv(st.(candidates := st.candidates + [c]))
  {
    TablesGrow(st, st.(candidates := st.candidates + [c]));
  }

  lemma CreateExitCandidateKeepsInv(st: State, e: ExitEvent)
    requires Inv(st)
    ensures Inv(CreateExitCandidate(st, e))
  {
    if e.detectedPlate.Some? && e.recoverSince.Some? {
      RecoverKeepsInv(st, e.org, e.detectedPlate.value, e.recoverSince.value);
    }
    var st' := CreateExitCandidate(st, e);
    var base := if e.detectedPlate.Some? && MatchExit(st, e).None? && e.recoverSince.Some?
                then Recover(st, e.org, e.detectedPlate.value, e.recoverSince.value).0 else st;
    if st' != st && st' != base {
      AddCandidateKeepsInv(base, st'.candidates[|base.candidates|]);
    }
  }

  lemma PreviewKeepsInv(st: State, org: Org, id: Id, session: Id)
    requires Inv(st)
    ensures Inv(Committed(st, PreviewCandidate(st, org, id, session)))
  {
    var found := OpenCandidate(st, org, id);
    if found.Ok? {
      SetCandidateKeepsInv(st, id, found.value.(resolvedSession := Some(session)));
    }
  }

  lemma DismissKeepsInv(st: State, org: Org, id: Id)
    requires Inv(st)
    ensures Inv(Committed(st, DismissCandidate(st, org, id)))
  {
    var found := OpenCandidate(st, org, id);
    if found.Ok? {
      SetCandidateKeepsInv(st, id, found.value.(status := Dismissed, resolution := Some(DismissedByOperator)));
    }
  }

  lemma CancelKeepsInv(st: State, org: Org, id: Id)
    requires Inv(st)
    ensures Inv(Committed(st, CancelCandidate(st, org, id)))
  {
    var found := OpenCandidate(st, org, id);
    if found.Ok? {
      var cancelled := found.value.(status := Dismissed, resolution := Some(ExitCancelled));
      SetCandidateKeepsInv(st, id, cancelled);
      QueueKeepsInv(SetCandidate(st, id, cancelled), AbortCandidate(org, id));
    }
  }

  lemma ForceOpenKeepsInv(st: State, org: Org, id: Id, emergency: bool, at: int)
    requires Inv(st)
    ensures Inv(Committed(st, ForceOpenCandidate(st, org, id, emergency, at)))
  {
    var found := OpenCandidate(st, org, id);
    if found.Ok? {
      var target := found.value.resolvedSession;
      var c := found.value.(status := Dismissed,
                             resolution := Some(if emergency then EmergencyForcedOpen else ForcedOpen));
      if target.Some? && target.value < |st.sessions| && st.sessions[target.value].org == org
         && !st.sessions[target.value].status.Completed? {
        var closed := CloseSession(st.sessions[target.value], at, 0, if emergency then EmergencyExit else Forced);
        CloseFreeKeepsInv(st, target.value, closed);
        SetCandidateKeepsInv(st.(sessions := st.sessions[target.value := closed]), id, c);
      } else {
        SetCandidateKeepsInv(st, id, c);
      }
    }
  }

  lemma ConfirmCandidateKeepsInv(st: State, org: Org, id: Id, r: ConfirmRequest)
    requires Inv(st)
    ensures Inv(Committed(st, ConfirmCandidate(st, org, id, r)))
  {
    var target := ConfirmTarget(st, org, id, r);
    if target.Ok? {
      var sid, result := target.value, ConfirmCandidate(st, org, id, r).value;
      var closed, c := result.sessions[sid], result.candidates[id];
      var charged := Billable(st.sessions[sid], r) && !InpatientFree(st.sessions[sid], r);
      var settled := if charged then Pay(st, sid, closed, Billed(closed), closed.paymentMethod)
                     else st.(sessions := st.sessions[sid := closed]);
      if charged {
        PayKeepsInv(st, sid, closed, Billed(closed), closed.paymentMethod);
      } else {
        CloseFreeKeepsInv(st, sid, closed);
      }
      SetCandidateKeepsInv(settled, id, c);
      QueueKeepsInv(SetCandidate(settled, id, c), AbortSession(org, sid, Some(id)));
    }
  }

  lemma ExpireKeepsInv(st: State, scope: ExpiryScope)
    requires Inv(st)
    ensures Inv(ExpireCandidates(st, scope))
  {
    TablesGrow(st, ExpireCandidates(st, scope));
  }

  // ----- steps on operations -----

  predicate SameIdentity(o: Operation, o': Operation) {
    o'.org == o.org && o'.session == o.session && o'.candidate == o.candidate && o'.number == o.number
  }

  lemma RunsFollow(os: seq<Operation>, runs: map<Id, Phase>, preRestart: Id, id: Id, o: Operation,
                   runs': map<Id, Phase>)
    requires RunsOk(os, runs, preRestart) && id < |os| && PhaseOk(o, PhaseOf(runs', id))
    requires runs' - {id} == runs - {id} && (id in runs' ==> id in runs)
    requires o.trail.lost == os[id].trail.lost
    ensures RunsOk(os[id := o], runs', preRestart)
  {
    forall other: Id | other != id ensures PhaseOf(runs', other) == PhaseOf(runs, other) {
      assert other in runs' - {id} <==> other in runs - {id};
      assert other in runs' ==> (runs' - {id})[other] == (runs - {id})[other];
    }
    forall other: Id | other in runs' ensures preRestart <= other < |os| {
      assert other == id || PhaseOf(runs', other) == PhaseOf(runs, other);
    }
    forall other | 0 <= other < |os| ensures PhaseOk(os[id := o][other], PhaseOf(runs', other)) {
      assert PhaseOk(os[other], PhaseOf(runs, other));
    }
  }

  lemma AbortsFollow(os: seq<Operation>, intents: multiset<Intent>, cs: seq<Candidate>, ps: seq<Payment>,
                     id: Id, o: Operation)
    requires AbortsOk(os, intents, cs, ps) && id < |os| && SameIdentity(os[id], o)
    requires o.status == ABORTED ==> AbortJustified(o, cs, ps)
    ensures AbortsOk(os[id := o], intents, cs, ps)
  {
    forall intent | intent in intents ensures IntentJustified(intent, os[id := o], cs, ps) {
      assert IntentJustified(intent, os, cs, ps);
    }
  }

  lemma ConfirmationsFollow(os: seq<Operation>, cs: seq<Candidate>, ps: seq<Payment>, id: Id, o: Operation)
    requires ConfirmationsOk(os, cs, ps) && id < |os|
    requires o.status == FIN_CONFIRMED ==>
               && ConfirmationOk(o, cs, ps)
               && forall j :: 0 <= j < |os| && j != id && os[j].status == FIN_CONFIRMED ==> os[j].session != o.session
    ensures ConfirmationsOk(os[id := o], cs, ps)
  {
  }

  /** One operation row and its run change; its identity does not. */
  lemma OperationKeepsInv(st: State, id: Id, o: Operation, runs: map<Id, Phase>)
    requires Inv(st) && id < |st.operations| && SameIdentity(st.operations[id], o)
    requires runs - {id} == st.runs - {id} && (id in runs ==> id in st.runs)
    requires o.trail.lost == st.operations[id].trail.lost
    requires PhaseOk(o, PhaseOf(runs, id))
    requires o.status == ABORTED ==> AbortJustified(o, st.candidates, st.payments)
    requires o.status == FIN_CONFIRMED ==>
               && ConfirmationOk(o, st.candidates, st.payments)
               && forall j :: 0 <= j < |st.operations| && j != id && st.operations[j].status == FIN_CONFIRMED ==>
                    st.operations[j].session != o.session
    ensures Inv(SetOperation(st, id, o).(runs := runs))
  {
    RunsFollow(st.operations, st.runs, st.preRestart, id, o, runs);
    AbortsFollow(st.operations, st.intents, st.candidates, st.payments, id, o);
    ConfirmationsFollow(st.operations, st.candidates, st.payments, id, o);
    assert RefsOk(st.operations[id := o], st.sessions, st.candidates);
    assert NumbersOk(st.operations[id := o]);
  }

  /** The row stays as it was or moves to a status that claims nothing about other tables. */
  lemma StatusKeepsInv(st: State, id: Id, o: Operation, runs: map<Id, Phase>)
    requires Inv(st) && id < |st.operations| && SameIdentity(st.operations[id], o)
    requires runs - {id} == st.runs - {id} && (id in runs ==> id in st.runs)
    requires o.trail.lost == st.operations[id].trail.lost
    requires PhaseOk(o, PhaseOf(runs, id)) && o.status != FIN_CONFIRMED
    requires o.status == ABORTED ==> st.operations[id].status == ABORTED
    ensures Inv(SetOperation(st, id, o).(runs := runs))
  {
    if o.status == ABORTED {
      assert AbortJustified(st.operations[id], st.candidates, st.payments);
    }
    OperationKeepsInv(st, id, o, runs);
  }

  /** A new pending operation, with its run queued, joins the tables. */
  lemma NewOperationFits(st: State, o: Operation)
    requires Inv(st) && o.status == PENDING && o.trail == NoTrail
    ensures RunsOk(st.operations + [o], st.runs[|st.operations| := Queued], st.preRestart)
    ensures AbortsOk(st.operations + [o], st.intents, st.candidates, st.payments)
    ensures ConfirmationsOk(st.operations + [o], st.candidates, st.payments)
  {
    var os, os', runs' := st.operations, st.operations + [o], st.runs[|st.operations| := Queued];
    forall id | 0 <= id < |os'| ensures PhaseOk(os'[id], PhaseOf(runs', id)) {
      if id < |os| {
        assert PhaseOk(os[id], PhaseOf(st.runs, id));
      }
    }
    forall intent | intent in st.intents ensures IntentJustified(intent, os', st.candidates, st.payments) {
      assert IntentJustified(intent, os, st.candidates, st.payments);
    }
  }

  lemma NextNumberFits(os: seq<Operation>, o: Operation)
    requires NumbersOk(os) && NextNumber(os, o.org) == Ok(o.number)
    ensures NumbersOk(os + [o])
  {
  }

  lemma StartOperationKeepsInv(st: State, org: Org, session: Id, candidate: Option<Id>, amount: Money)
    requires Inv(st) && session < |st.sessions| && st.sessions[session].org == org
    requires candidate.Some? ==> candidate.value < |st.candidates| && st.candidates[candidate.value].org == org
    ensures Inv(Committed(st, StartOperation(st, org, session, candidate, amount)))
  {
    var result := StartOperation(st, org, session, candidate, amount);
    if result.Ok? {
      var o := result.value.operations[|st.operations|];
      NewOperationFits(st, o);
      NextNumberFits(st.operations, o);
      assert RefsOk(st.operations + [o], st.sessions, st.candidates);
    }
  }

  lemma StartAutomaticKeepsInv(st: State, org: Org, candidate: Id, session: Id, amount: Money)
    requires Inv(st)
    ensures Inv(Committed(st, StartAutomaticCard(st, org, candidate, session, amount)))
  {
    if session < |st.sessions| && st.sessions[session].org == org
       && candidate < |st.candidates| && st.candidates[candidate].org == org {
      StartOperationKeepsInv(st, org, session, Some(candidate), amount);
    }
  }

  lemma StartManualKeepsInv(st: State, org: Org, plate: string, amount: Money)
    requires Inv(st)
    ensures Inv(Committed(st, StartManualCard(st, org, plate, amount)))
  {
    var active := LatestActive(st.sessions, org, plate);
    if active.Some? {
      StartOperationKeepsInv(st, org, active.value, None, amount);
    }
  }

  lemma RetryCardKeepsInv(st: State, session: Id)
    requires Inv(st)
    ensures Inv(Committed(st, RetryCard(st, session)))
  {
    if session < |st.sessions| {
      var org := st.sessions[session].org;
      var last := LatestOfSession(st.operations, session, org);
      if last.Some? {
        var latest := st.operations[last.value];
        StartOperationKeepsInv(st, org, session, latest.candidate, latest.requested);
      }
    }
  }

  // ----- steps of a run -----

  lemma RunBeginsKeepsInv(st: State, id: Id)
    requires Inv(st) && At(st, id, Queued)
    ensures Inv(RunBegins(st, id))
  {
    var o := st.operations[id];
    assert PhaseOk(o, PhaseOf(st.runs, id));
    StatusKeepsInv(st, id, o, RunBegins(st, id).runs);
    assert st.operations[id := o] == st.operations;
  }

  lemma VrpAnsweredKeepsInv(st: State, id: Id, result: VrpResult)
    requires Inv(st) && At(st, id, AwaitVrp)
    ensures Inv(VrpAnswered(st, id, result))
  {
    var st' := VrpAnswered(st, id, result);
    assert PhaseOk(st.operations[id], PhaseOf(st.runs, id));
    assert st.operations[id := st.operations[id]] == st.operations;
    StatusKeepsInv(st, id, st'.operations[id], st'.runs);
  }

  lemma FinCheckedKeepsInv(st: State, id: Id, attempt: nat)
    requires Inv(st) && At(st, id, BeforeFin(attempt))
    ensures Inv(FinChecked(st, id, attempt))
  {
    var o := st.operations[id];
    assert PhaseOk(o, PhaseOf(st.runs, id));
    assert st.operations[id := o] == st.operations;
    StatusKeepsInv(st, id, o, FinChecked(st, id, attempt).runs);
  }

  lemma FinSentKeepsInv(st: State, id: Id, attempt: nat, taken: bool)
    requires Inv(st) && At(st, id, ReadyForFin(attempt))
    ensures Inv(FinSent(st, id, attempt, taken))
  {
    var st' := FinSent(st, id, attempt, taken);
    assert PhaseOk(st.operations[id], PhaseOf(st.runs, id));
    assert st.operations[id := st.operations[id]] == st.operations;
    StatusKeepsInv(st, id, st'.operations[id], st'.runs);
  }

  lemma FinAnsweredKeepsInv(st: State, id: Id, attempt: nat, confirmed: bool)
    requires Inv(st) && At(st, id, AwaitFin(attempt))
    ensures Inv(FinAnswered(st, id, attempt, confirmed))
  {
    var st' := FinAnswered(st, id, attempt, confirmed);
    assert PhaseOk(st.operations[id], PhaseOf(st.runs, id));
    assert st.operations[id := st.operations[id]] == st.operations;
    StatusKeepsInv(st, id, st'.operations[id], st'.runs);
  }

  lemma MarkStaleKeepsInv(st: State, id: Id)
    requires Inv(st) && At(st, id, StaleFound)
    ensures Inv(MarkStale(st, id))
  {
    var st' := MarkStale(st, id);
    assert PhaseOk(st.operations[id], PhaseOf(st.runs, id));
    StatusKeepsInv(st, id, st'.operations[id], st'.runs);
  }

  /** A run that found its payment stale always gets to mark and log it. */
  lemma StaleIsAlwaysMarked(st: State, id: Id)
    requires Inv(st) && At(st, id, StaleFound)
    ensures At(MarkStale(st, id), id, StaleLogging)
    ensures MarkStale(st, id).operations[id].status == STALE_IGNORED
    ensures LogReconciliation(MarkStale(st, id), id).operations[id].trail.reconciliationLogged
  {
    assert PhaseOk(st.operations[id], PhaseOf(st.runs, id));
  }

  lemma MarkFinFailedKeepsInv(st: State, id: Id)
    requires Inv(st) && At(st, id, Exhausted)
    ensures Inv(MarkFinFailed(st, id))
  {
    var st' := MarkFinFailed(st, id);
    assert PhaseOk(st.operations[id], PhaseOf(st.runs, id));
    assert st.operations[id := st.operations[id]] == st.operations;
    StatusKeepsInv(st, id, st'.operations[id], st'.runs);
  }

  lemma LogReconciliationKeepsInv(st: State, id: Id)
    requires Inv(st) && (At(st, id, StaleLogging) || At(st, id, FailureLogging))
    ensures Inv(LogReconciliation(st, id))
  {
    var st' := LogReconciliation(st, id);
    assert PhaseOk(st.operations[id], PhaseOf(st.runs, id));
    StatusKeepsInv(st, id, st'.operations[id], st'.runs);
  }

  /** Operation numbers identify their rows. */
  lemma NumberFindsRow(os: seq<Operation>, id: Id)
    requires NumbersOk(os) && id < |os|
    ensures OperationByNumber(os, os[id].org, os[id].number) == Some(id)
  {
    forall j | 0 <= j < |os| && j != id && os[j].org == os[id].org ensures os[j].number != os[id].number {
    }
  }

  lemma ActiveIsUnpaid(st: State, session: Id)
    requires Inv(st) && session < |st.sessions| && Inside(st.sessions[session])
    ensures !Paid(st.payments, session)
    ensures forall j :: 0 <= j < |st.operations| && st.operations[j].status == FIN_CONFIRMED ==>
              st.operations[j].session != session
  {
    forall j | 0 <= j < |st.operations| && st.operations[j].status == FIN_CONFIRMED
      ensures st.operations[j].session != session
    {
      assert ConfirmationOk(st.operations[j], st.candidates, st.payments);
    }
  }

  /** The last write of a completion: session and ledger are settled, the candidate accepted. */
  lemma ConfirmKeepsInv(st: State, id: Id, how: ExitMethod, at: int, accepted: Option<Candidate>)
    requires Inv(st) && At(st, id, Confirmed)
    requires st.operations[id].status == APPROVED && st.sessions[st.operations[id].session].status.Active?
    requires accepted.Some? <==> st.operations[id].candidate.Some?
    requires accepted.Some? ==>
               && var cid := st.operations[id].candidate.value;
               && st.candidates[cid].status.Pending? && accepted.value.org == st.candidates[cid].org
               && accepted.value.status.Accepted?
               && accepted.value.resolvedSession == Some(st.operations[id].session)
    ensures var settled := SettleAt(st, id, how, at);
            var resolved := if accepted.Some?
                            then SetCandidate(settled, st.operations[id].candidate.value, accepted.value)
                            else settled;
            Inv(EndRun(resolved, id))
  {
    var o := st.operations[id];
    assert PhaseOk(o, PhaseOf(st.runs, id));
    var amount := ApprovedAmount(o);
    var closed := CloseSession(st.sessions[o.session], at, amount, how).(paymentMethod := Card);
    ActiveIsUnpaid(st, o.session);
    PayKeepsInv(st, o.session, closed, amount, Card);
    var paid := Pay(st, o.session, closed, amount, Card);
    assert paid.payments[|st.payments|] == Payment(st.sessions[o.session].org, o.session, amount, Card);
    assert PaidExactly(paid.payments, o.session, amount);
    if accepted.Some? {
      SetCandidateKeepsInv(paid, o.candidate.value, accepted.value);
      OperationKeepsInv(SetCandidate(paid, o.candidate.value, accepted.value), id, o.(status := FIN_CONFIRMED),
                        st.runs - {id});
    } else {
      OperationKeepsInv(paid, id, o.(status := FIN_CONFIRMED), st.runs - {id});
    }
  }

  /** While the candidate is open and the car inside, nobody aborts. */
  lemma OpenIsNotAborted(st: State, id: Id)
    requires Inv(st) && At(st, id, Confirmed) && st.operations[id].candidate.Some?
    requires st.operations[id].candidate.value < |st.candidates| && st.operations[id].session < |st.sessions|
    requires st.candidates[st.operations[id].candidate.value].status.Pending?
    requires st.sessions[st.operations[id].session].status.Active?
    ensures st.operations[id].status == APPROVED
  {
    var o := st.operations[id];
    assert PhaseOk(o, PhaseOf(st.runs, id));
    if o.status == ABORTED {
      assert AbortJustified(o, st.candidates, st.payments);
      ActiveIsUnpaid(st, o.session);
    }
  }

  /** The completion finds its rows again. */
  lemma CompletionRows(st: State, id: Id)
    requires Inv(st) && At(st, id, Confirmed) && st.operations[id].candidate.Some?
    ensures var o := st.operations[id];
            && OperationByNumber(st.operations, o.org, o.number) == Some(id)
            && o.candidate.value < |st.candidates| && st.candidates[o.candidate.value].org == o.org
            && o.session < |st.sessions| && st.sessions[o.session].org == o.org && ApprovedAmount(o) > 0
  {
    NumberFindsRow(st.operations, id);
    assert PhaseOk(st.operations[id], PhaseOf(st.runs, id));
  }

  lemma StaleFoundKeepsInv(st: State, id: Id)
    requires Inv(st) && At(st, id, Confirmed) && st.operations[id].candidate.Some?
    ensures Inv(MoveRun(st, id, StaleFound))
  {
    var o := st.operations[id];
    assert PhaseOk(o, PhaseOf(st.runs, id));
    StatusKeepsInv(st, id, o, st.runs[id := StaleFound]);
    assert st.operations[id := o] == st.operations;
  }

  /** What an acceptance by card writes to the candidate. */
  function AcceptedByCard(st: State, id: Id): Candidate
    requires id < |st.operations| && st.operations[id].candidate.Some?
    requires st.operations[id].candidate.value < |st.candidates|
  {
    var o := st.operations[id];
    var candidate := st.candidates[o.candidate.value];
    candidate.(status := Accepted, resolvedSession := Some(o.session),
               resolution := Some(if candidate.matchedSession == Some(o.session) then Exact else Reassigned))
  }

  lemma CompletionCases(st: State, id: Id, at: int)
    requires At(st, id, Confirmed) && st.operations[id].candidate.Some?
    requires var o := st.operations[id];
             && OperationByNumber(st.operations, o.org, o.number) == Some(id)
             && o.candidate.value < |st.candidates| && st.candidates[o.candidate.value].org == o.org
             && o.session < |st.sessions| && st.sessions[o.session].org == o.org && ApprovedAmount(o) > 0
    ensures var o, st' := st.operations[id], CompleteForCandidate(st, id, at);
            if !st.candidates[o.candidate.value].status.Pending? || !st.sessions[o.session].status.Active?
            then st' == MoveRun(st, id, StaleFound)
            else o.status == APPROVED ==>
              st' == EndRun(SetCandidate(SettleAt(st, id, Auto, at), o.candidate.value, AcceptedByCard(st, id)), id)
  {
  }

  /** A confirmed candidate operation is never dropped: it settles, or its run goes on to mark it stale. */
  lemma CompleteForCandidateKeepsInv(st: State, id: Id, at: int)
    requires Inv(st) && At(st, id, Confirmed) && st.operations[id].candidate.Some?
    ensures Inv(CompleteForCandidate(st, id, at))
    ensures var st' := CompleteForCandidate(st, id, at);
            At(st', id, StaleFound) || st'.operations[id].status == FIN_CONFIRMED
  {
    var o := st.operations[id];
    CompletionRows(st, id);
    CompletionCases(st, id, at);
    if !st.candidates[o.candidate.value].status.Pending? || !st.sessions[o.session].status.Active? {
      StaleFoundKeepsInv(st, id);
    } else {
      OpenIsNotAborted(st, id);
      ConfirmKeepsInv(st, id, Auto, at, Some(AcceptedByCard(st, id)));
    }
  }

  lemma CompleteManualKeepsInv(st: State, id: Id, at: int)
    requires Inv(st) && At(st, id, Confirmed) && st.operations[id].candidate.None?
    ensures Inv(CompleteManual(st, id, at))
  {
    var o, st' := st.operations[id], CompleteManual(st, id, at);
    assert PhaseOk(o, PhaseOf(st.runs, id));
    if o.status == APPROVED && st.sessions[o.session].status.Active? {
      ConfirmKeepsInv(st, id, Manual, at, None);
    } else {
      assert st.operations[id := o] == st.operations;
      StatusKeepsInv(st, id, st'.operations[id], st'.runs);
    }
  }

  lemma CompleteKeepsInv(st: State, id: Id, at: int)
    requires Inv(st) && At(st, id, Confirmed)
    ensures Inv(Complete(st, id, at))
  {
    if st.operations[id].candidate.Some? {
      CompleteForCandidateKeepsInv(st, id, at);
    } else {
      CompleteManualKeepsInv(st, id, at);
    }
  }

  lemma FinStepKeepsInv(st: State, id: Id, vrp: VrpResult, fin: bool, at: int)
    requires Inv(st) && id in st.runs && id < |st.operations|
    requires st.runs[id].BeforeFin? || st.runs[id].ReadyForFin? || st.runs[id].AwaitFin?
    ensures Inv(RunStep(st, id, vrp, fin, at))
  {
    match st.runs[id]
    case BeforeFin(attempt) => FinCheckedKeepsInv(st, id, attempt);
    case ReadyForFin(attempt) => FinSentKeepsInv(st, id, attempt, fin);
    case AwaitFin(attempt) => FinAnsweredKeepsInv(st, id, attempt, fin);
  }

  lemma RunStepKeepsInv(st: State, id: Id, vrp: VrpResult, fin: bool, at: int)
    requires Inv(st)
    ensures Inv(RunStep(st, id, vrp, fin, at))
  {
    if id in st.runs && id < |st.operations| {
      match st.runs[id]
      case Queued => RunBeginsKeepsInv(st, id);
      case AwaitVrp => VrpAnsweredKeepsInv(st, id, vrp);
      case BeforeFin(_) => FinStepKeepsInv(st, id, vrp, fin, at);
      case ReadyForFin(_) => FinStepKeepsInv(st, id, vrp, fin, at);
      case AwaitFin(_) => FinStepKeepsInv(st, id, vrp, fin, at);
      case Confirmed => CompleteKeepsInv(st, id, at);
      case StaleFound => MarkStaleKeepsInv(st, id);
      case StaleLogging => LogReconciliationKeepsInv(st, id);
      case Exhausted => MarkFinFailedKeepsInv(st, id);
      case FailureLogging => LogReconciliationKeepsInv(st, id);
    }
  }

  // ----- aborts, restarts, corrections -----

  lemma ChooseAbortKeepsInv(st: State, intent: Intent)
    requires Inv(st) && intent in st.intents && !intent.AbortChosen?
    ensures Inv(ChooseAbort(st, intent))
  {
    var taken := st.(intents := st.intents - multiset{intent});
    TablesGrow(st, taken);
    var target := LatestTarget(st.operations, intent);
    if target.Some? {
      assert IntentJustified(intent, st.operations, st.candidates, st.payments);
      QueueKeepsInv(taken, AbortChosen(target.value));
    }
  }

  lemma ApplyAbortKeepsInv(st: State, id: Id)
    requires Inv(st) && AbortChosen(id) in st.intents
    ensures Inv(ApplyAbort(st, id))
  {
    var taken := st.(intents := st.intents - multiset{AbortChosen(id)});
    TablesGrow(st, taken);
    if id < |st.operations| && AbortOpen(st.operations[id]) {
      var o := st.operations[id];
      assert PhaseOk(o, PhaseOf(st.runs, id));
      assert IntentJustified(AbortChosen(id), st.operations, st.candidates, st.payments);
      OperationKeepsInv(taken, id, o.(status := ABORTED), st.runs);
    }
  }

  lemma LostRunsOk(os: seq<Operation>, runs: map<Id, Phase>, preRestart: Id)
    requires RunsOk(os, runs, preRestart)
    ensures RunsOk(LoseRuns(os, runs), map[], |os|)
  {
    var os' := LoseRuns(os, runs);
    forall id | 0 <= id < |os'| ensures PhaseOk(os'[id], None) {
      assert PhaseOk(os[id], PhaseOf(runs, id));
    }
  }

  lemma LostRowsOk(os: seq<Operation>, runs: map<Id, Phase>, ss: seq<Session>, cs: seq<Candidate>)
    requires RefsOk(os, ss, cs) && NumbersOk(os)
    ensures RefsOk(LoseRuns(os, runs), ss, cs) && NumbersOk(LoseRuns(os, runs))
  {
    assert forall i :: 0 <= i < |os| ==> SameIdentity(os[i], LoseRuns(os, runs)[i]);
  }

  lemma LostAbortsOk(os: seq<Operation>, runs: map<Id, Phase>, intents: multiset<Intent>,
                     cs: seq<Candidate>, ps: seq<Payment>)
    requires AbortsOk(os, intents, cs, ps) && ConfirmationsOk(os, cs, ps)
    ensures AbortsOk(LoseRuns(os, runs), multiset{}, cs, ps) && ConfirmationsOk(LoseRuns(os, runs), cs, ps)
  {
    var os' := LoseRuns(os, runs);
    forall i | 0 <= i < |os'| && os'[i].status == ABORTED ensures AbortJustified(os'[i], cs, ps) {
      assert AbortJustified(os[i], cs, ps);
    }
    forall i | 0 <= i < |os'| && os'[i].status == FIN_CONFIRMED ensures ConfirmationOk(os'[i], cs, ps) {
      assert ConfirmationOk(os[i], cs, ps);
    }
  }

  lemma RestartKeepsInv(st: State)
    requires Inv(st)
    ensures Inv(Restart(st))
  {
    LostRunsOk(st.operations, st.runs, st.preRestart);
    LostRowsOk(st.operations, st.runs, st.sessions, st.candidates);
    LostAbortsOk(st.operations, st.runs, st.intents, st.candidates, st.payments);
  }

  lemma MarkOrphanedKeepsInv(st: State, id: Id, selected: OperationStatus)
    requires Inv(st)
    ensures Inv(MarkOrphaned(st, id, selected))
  {
    if id < st.preRestart && id < |st.operations|
       && st.operations[id].status == selected && AbortOpen(st.operations[id]) {
      assert PhaseOk(st.operations[id], PhaseOf(st.runs, id));
      StatusKeepsInv(st, id, st.operations[id].(status := ORPHANED), st.runs);
    }
  }

  lemma UpdatePaymentMethodKeepsInv(st: State, id: Id, means: PaymentMethod)
    requires Inv(st)
    ensures Inv(Committed(st, UpdatePaymentMethod(st, id, means)))
  {
    var result := UpdatePaymentMethod(st, id, means);
    if result.Ok? {
      var ps, ps', ss' := st.payments, result.value.payments, result.value.sessions;
      assert PaymentsGrow(ps, ps');
      forall i | 0 <= i < |ss'| && ss'[i].status.Completed? && Billed(ss'[i]) > 0 ensures Paid(ps', i) {
        PaidGrows(ps, ps', i);
      }
      assert LedgerOk(ss', ps');
      TablesGrow(st, result.value);
    }
  }

  lemma NextSessionKeepsInv(st: State, step: SessionStep)
    requires Inv(st)
    ensures Inv(NextSession(st, step))
  {
    match step
    case DoCloseStale(org, plate, at) => CloseStaleKeepsInv(st, org, plate, at);
    case DoInsertActive(org, plate, at, source) => InsertActiveKeepsInv(st, org, plate, at, source);
    case DoCreateEntry(org, plate, now, at, source, policy) =>
      CreateEntryKeepsInv(st, org, plate, now, at, source, policy);
    case DoEntryWebhook(org, plate, at, source, setAside, policy) =>
      EntryWebhookKeepsInv(st, org, plate, at, source, setAside, policy);
    case DoCompleteSession(org, plate, how, at, means, tariff) =>
      CompleteSessionKeepsInv(st, org, plate, how, at, means, tariff);
    case DoConfirmCash(id) => ConfirmCashKeepsInv(st, id);
    case DoForceClose(id, at, enteredAmount, means, tariff) =>
      ForceCloseKeepsInv(st, id, at, enteredAmount, means, tariff);
    case DoAutoExit(org, id, tariffFree, stillFree, at) => AutoExitKeepsInv(st, org, id, tariffFree, stillFree, at);
    case DoUpdatePaymentMethod(id, means) => UpdatePaymentMethodKeepsInv(st, id, means);
  }

  lemma NextCandidateKeepsInv(st: State, step: CandidateStep)
    requires Inv(st)
    ensures Inv(NextCandidate(st, step))
  {
    match step
    case DoCreateExitCandidate(event) => CreateExitCandidateKeepsInv(st, event);
    case DoPreview(org, id, session) => PreviewKeepsInv(st, org, id, session);
    case DoConfirmCandidate(org, id, request) => ConfirmCandidateKeepsInv(st, org, id, request);
    case DoForceOpen(org, id, emergency, at) => ForceOpenKeepsInv(st, org, id, emergency, at);
    case DoCancel(org, id) => CancelKeepsInv(st, org, id);
    case DoDismiss(org, id) => DismissKeepsInv(st, org, id);
    case DoExpire(scope) => ExpireKeepsInv(st, scope);
  }

  lemma NextCardKeepsInv(st: State, step: CardStep)
    requires Inv(st)
    ensures Inv(NextCard(st, step))
  {
    match step
    case DoStartAutomaticCard(org, id, session, amount) => StartAutomaticKeepsInv(st, org, id, session, amount);
    case DoStartManualCard(org, plate, amount) => StartManualKeepsInv(st, org, plate, amount);
    case DoRetryCard(id) => RetryCardKeepsInv(st, id);
    case DoRun(id, vrp, fin, at) => RunStepKeepsInv(st, id, vrp, fin, at);
    case DoChooseAbort(intent) =>
      if intent in st.intents && !intent.AbortChosen? { ChooseAbortKeepsInv(st, intent); }
    case DoApplyAbort(id) => if AbortChosen(id) in st.intents { ApplyAbortKeepsInv(st, id); }
    case DoRestart => RestartKeepsInv(st);
    case DoMarkOrphaned(id, selected) => MarkOrphanedKeepsInv(st, id, selected);
  }

  lemma NextKeepsInv(st: State, step: Step)
    requires Inv(st)
    ensures Inv(Next(st, step))
  {
    match step
    case OnSession(s) => NextSessionKeepsInv(st, s);
    case OnCandidate(c) => NextCandidateKeepsInv(st, c);
    case OnCard(o) => NextCardKeepsInv(st, o);
  }

  lemma {:induction false} RunKeepsInv(st: State, steps: seq<Step>)
    requires Inv(st)
    ensures Inv(Run(st, steps))
  {
    if steps != [] {
      RunKeepsInv(st, steps[..|steps| - 1]);
      NextKeepsInv(Run(st, steps[..|steps| - 1]), steps[|steps| - 1]);
    }
  }

  // ----- reachable states -----

  /** A run written down state by state. */
  ghost predicate Trace(states: seq<State>, steps: seq<Step>) {
    && |states| == |steps| + 1 && Init(states[0])
    && forall i {:trigger steps[i]} :: 0 <= i < |steps| ==> states[i + 1] == Next(states[i], steps[i])
  }

  ghost predicate Reachable(st: State) {
    exists states: seq<State>, steps: seq<Step> :: Trace(states, steps) && states[|steps|] == st
  }

  lemma {:induction false} TraceKeepsInv(states: seq<State>, steps: seq<Step>, k: nat)
    requires Trace(states, steps) && k <= |steps|
    ensures Inv(states[k])
  {
    if k == 0 {
      InitEstablishesInv(states[0]);
    } else {
      TraceKeepsInv(states, steps, k - 1);
      NextKeepsInv(states[k - 1], steps[k - 1]);
    }
  }

  lemma TraceReaches(states: seq<State>, steps: seq<Step>, k: nat)
    requires Trace(states, steps) && k <= |steps|
    ensures Reachable(states[k])
  {
    var begun, taken := states[..k + 1], steps[..k];
    forall i {:trigger taken[i]} | 0 <= i < |taken| ensures begun[i + 1] == Next(begun[i], taken[i]) {
      assert taken[i] == steps[i];
    }
    assert Trace(begun, taken) && begun[|taken|] == states[k];
  }

  /** The invariant holds in every reachable state. */
  lemma ReachableKeepsInv(st: State)
    requires Reachable(st)
    ensures Inv(st)
  {
    var states: seq<State>, steps: seq<Step> :| Trace(states, steps) && states[|steps|] == st;
    TraceKeepsInv(states, steps, |steps|);
  }

  lemma {:induction false} TraceIsRun(states: seq<State>, steps: seq<Step>, k: nat)
    requires Trace(states, steps) && k <= |steps|
    ensures states[k] == Run(states[0], steps[..k])
  {
    if k > 0 {
      TraceIsRun(states, steps, k - 1);
      assert steps[..k][..k - 1] == steps[..k - 1] && steps[..k][k - 1] == steps[k - 1];
    }
  }

  lemma TraceExtends(states: seq<State>, steps: seq<Step>, step: Step, st: State, all: seq<Step>)
    requires Trace(states, steps) && st == Next(states[|steps|], step) && all == steps + [step]
    ensures Trace(states + [st], all)
  {
    var longer := states + [st];
    forall i {:trigger all[i]} | 0 <= i < |all| ensures longer[i + 1] == Next(longer[i], all[i]) {
      if i < |steps| {
        assert all[i] == steps[i] && longer[i] == states[i] && longer[i + 1] == states[i + 1];
      }
    }
  }

  lemma InitIsReachable(st: State)
    requires Init(st)
    ensures Reachable(st)
  {
    assert Trace([st], []);
  }

  lemma NextIsReachable(st: State, step: Step, st': State)
    requires Reachable(st) && st' == Next(st, step)
    ensures Reachable(st')
  {
    var states: seq<State>, steps: seq<Step> :| Trace(states, steps) && states[|steps|] == st;
    TraceExtends(states, steps, step, st', steps + [step]);
    assert (states + [st'])[|steps + [step]|] == st';
  }

  lemma {:induction false} RunsStayReachable(st: State, steps: seq<Step>)
    requires Reachable(st)
    ensures Reachable(Run(st, steps))
  {
    if steps != [] {
      RunsStayReachable(st, steps[..|steps| - 1]);
      NextIsReachable(Run(st, steps[..|steps| - 1]), steps[|steps| - 1], Run(st, steps));
    }
  }

  /** The reachable states are exactly the results of runs from an initial state. */
  lemma ReachableByRuns(st: State)
    ensures Reachable(st) <==> exists start, steps :: Init(start) && Run(start, steps) == st
  {
    if Reachable(st) {
      var states: seq<State>, steps: seq<Step> :| Trace(states, steps) && states[|steps|] == st;
      TraceIsRun(states, steps, |steps|);
      assert steps[..|steps|] == steps;
    }
    if start, steps :| Init(start) && Run(start, steps) == st {
      InitIsReachable(start);
      RunsStayReachable(start, steps);
    }
  }
}
