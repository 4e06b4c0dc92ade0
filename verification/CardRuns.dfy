/** Card runs over their terminal leases: who may talk to a terminal, and what an abort reaches. A run reads its row
    before each request and then connects; the request goes out without another look. An abort marks the row, then takes
    the lease away and cuts off the registered terminal, if that has the operation under way. */
module CardRuns {
  import opened Wrappers
  import M = TerminalManager

  type Id = nat
  type Org = M.Org

  /** Open: PENDING or APPROVED. What an aborted row turns into later is of no account here. */
  datatype Row = Open | Aborted | Final

  /** VRP, then FIN up to three times. */
  const REQUESTS: nat := 4

  datatype Run = Run(
    org: Org,
    token: M.Token, // the lease it was started with
    number: string, // its operation number
    row: Row,
    left: nat,      // how many requests it may still send
    ready: bool,    // its row was found open, and it is connecting
    talking: bool,  // a request of it is outstanding at its terminal
    escaped: bool,  // history: its abort took the lease but left it connecting or talking
    finished: bool)

  datatype State = State(
    manager: M.State,
    runs: seq<Run>,
    active: map<M.Terminal, string>, // the operation a terminal takes to be under way
    clean: set<M.Token>,             // history: leases acquired while no reload of the organisation was in flight
    disturbed: set<M.Terminal>)      // history: terminals whose active operation a run without a lease has cleared

  const Initial := State(M.Initial, [], map[], {}, {})

  predicate HasRun(s: State, token: M.Token) {
    exists i :: 0 <= i < |s.runs| && s.runs[i].token == token
  }

  predicate NumberUsed(s: State, org: Org, number: string) {
    exists i :: 0 <= i < |s.runs| && s.runs[i].org == org && s.runs[i].number == number
  }

  function SetRun(s: State, id: Id, run: Run): State
    requires id < |s.runs|
  {
    s.(runs := s.runs[id := run])
  }

  /** The terminal object the lease of the run holds. */
  predicate Holds(m: M.State, run: Run, terminal: M.Terminal) {
    run.token < |m.handles| && m.handles[run.token].terminal == terminal
  }

  predicate HasId(s: State, id: Id) {
    id < |s.runs| && s.runs[id].token < |s.manager.handles|
  }

  function TerminalOf(s: State, id: Id): M.Terminal
    requires HasId(s, id)
  {
    s.manager.handles[s.runs[id].token].terminal
  }

  predicate IsActive(active: map<M.Terminal, string>, terminal: M.Terminal, number: string) {
    terminal in active && active[terminal] == number
  }

  // ----- one atomic segment each -----

  /** A request handler leases the terminal. */
  function Acquire(s: State, settings: M.Settings): State {
    var (manager, lease) := M.Acquire(s.manager, settings);
    s.(manager := manager,
       clean := if lease.Ok? && s.manager.reloading[settings.org] == 0 then s.clean + {lease.value} else s.clean)
  }

  predicate MayStart(s: State, token: M.Token, number: string) {
    && M.IsLive(s.manager, token) && !HasRun(s, token)
    && !NumberUsed(s, s.manager.handles[token].org, number)
  }

  function NewRun(org: Org, token: M.Token, number: string): Run {
    Run(org, token, number, Open, REQUESTS, false, false, false, false)
  }

  /** Its transaction has created the operation: the lease is bound to the number and the run begins. */
  function Start(s: State, token: M.Token, number: string): State
    requires MayStart(s, token, number)
  {
    s.(manager := M.Bind(s.manager, token, number),
       runs := s.runs + [NewRun(s.manager.handles[token].org, token, number)])
  }

  predicate MayCheck(s: State, id: Id) {
    && HasId(s, id) && s.runs[id].row.Open? && !s.runs[id].finished && s.runs[id].left > 0
    && !s.runs[id].ready && !s.runs[id].talking
  }

  /** The row reads as it should, and the run goes to its terminal; VRP announces the operation there at once. */
  function Check(s: State, id: Id): State
    requires HasId(s, id)
  {
    var run := s.runs[id];
    SetRun(s, id, run.(ready := true))
    .(active := if run.left == REQUESTS then s.active[TerminalOf(s, id) := run.number] else s.active)
  }

  /** A request has ended, well or not. */
  function Settled(run: Run, ok: bool): Run {
    run.(ready := false, talking := false,
         left := if run.left == REQUESTS then (if ok then REQUESTS - 1 else 0)
                 else if ok || run.left == 0 then 0 else run.left - 1)
  }

  /** A refused VRP and a confirmed FIN clear the active operation, whoever's it is by then. */
  predicate Clears(run: Run, ok: bool) {
    if run.left == REQUESTS then !ok else ok
  }

  function Settle(s: State, id: Id, ok: bool): State
    requires HasId(s, id)
  {
    var run, terminal := s.runs[id], TerminalOf(s, id);
    if !Clears(run, ok) then SetRun(s, id, Settled(run, ok))
    else
      SetRun(s, id, Settled(run, ok))
      .(active := s.active - {terminal},
        disturbed := if M.IsLive(s.manager, run.token) then s.disturbed else s.disturbed + {terminal})
  }

  /** A terminal takes one request at a time. */
  predicate TerminalTaken(s: State, id: Id)
    requires HasId(s, id)
  {
    exists j :: 0 <= j < |s.runs| && s.runs[j].talking && Holds(s.manager, s.runs[j], TerminalOf(s, id))
  }

  predicate MaySend(s: State, id: Id) {
    HasId(s, id) && s.runs[id].ready && !TerminalTaken(s, id)
  }

  /** Connected, a ready run sends; a terminal with a request outstanding refuses. */
  function Send(s: State, id: Id): State
    requires HasId(s, id)
  {
    if TerminalTaken(s, id) then Settle(s, id, false)
    else SetRun(s, id, s.runs[id].(ready := false, talking := true))
  }

  /** The end of a run releases its lease, whatever happened. */
  function Finish(s: State, id: Id): State
    requires HasId(s, id)
  {
    SetRun(s.(manager := M.Release(s.manager, s.runs[id].token)), id, s.runs[id].(finished := true))
  }

  /** The abort of this run cuts off a terminal: the registered one, if it has the operation under way. */
  predicate Hits(s: State, id: Id)
    requires id < |s.runs|
  {
    s.runs[id].org in s.manager.terminals
    && IsActive(s.active, s.manager.terminals[s.runs[id].org], s.runs[id].number)
  }

  /** A terminal drops its connection, and with it an outstanding request; who is still connecting goes on. */
  function Disconnect(m: M.State, runs: seq<Run>, terminal: M.Terminal): (r: seq<Run>)
    ensures |r| == |runs|
  {
    seq(|runs|, i requires 0 <= i < |runs| =>
          if runs[i].talking && Holds(m, runs[i], terminal) then Settled(runs[i], false) else runs[i])
  }

  predicate AbortApplies(s: State, id: Id) {
    id < |s.runs| && s.runs[id].row.Aborted? && M.AbortApplies(s.manager, s.runs[id].org, s.runs[id].number)
  }

  function CutOff(s: State, id: Id): State
    requires id < |s.runs|
  {
    if !Hits(s, id) then s
    else
      var terminal := s.manager.terminals[s.runs[id].org];
      s.(runs := Disconnect(s.manager, s.runs, terminal), active := s.active - {terminal})
  }

  function Escape(run: Run): Run {
    run.(escaped := run.ready || run.talking)
  }

  /** The abort of an aborted row, up to its await: a lease that still carries the number is taken away. */
  function AbortBegin(s: State, id: Id): State
    requires AbortApplies(s, id)
  {
    var run, cut := s.runs[id], CutOff(s, id);
    SetRun(cut.(manager := M.AbortBegin(s.manager, run.org, run.number)), id,
           Escape(cut.runs[id]))
  }

  datatype Step =
    | DoAcquire(settings: M.Settings)
    | DoGiveUp(token: M.Token)
    | DoStart(token: M.Token, number: string)
    | DoCheck(id: Id)
    | DoSend(id: Id)
    | DoDrop(id: Id) // connecting failed
    | DoAnswer(id: Id, ok: bool)
    | DoClose(id: Id)
    | DoFinish(id: Id)
    | DoMarkAborted(id: Id)
    | DoAbortBegin(id: Id)
    | DoAbortEnd(org: Org)
    | DoReload(org: Org)
    | DoReloadEnd(settings: M.Settings)

  predicate Idle(s: State, id: Id) {
    HasId(s, id) && !s.runs[id].ready && !s.runs[id].talking
  }

  function NextOfRun(s: State, step: Step): State {
    match step
    case DoCheck(id) => if MayCheck(s, id) then Check(s, id) else s
    case DoSend(id) => if HasId(s, id) && s.runs[id].ready then Send(s, id) else s
    case DoDrop(id) => if HasId(s, id) && s.runs[id].ready then Settle(s, id, false) else s
    case DoAnswer(id, ok) => if HasId(s, id) && s.runs[id].talking then Settle(s, id, ok) else s
    case DoClose(id) => if Idle(s, id) && s.runs[id].row.Open? then SetRun(s, id, s.runs[id].(row := Final)) else s
    case DoFinish(id) => if Idle(s, id) then Finish(s, id) else s
    case DoMarkAborted(id) =>
      if id < |s.runs| && s.runs[id].row.Open? then SetRun(s, id, s.runs[id].(row := Aborted)) else s
    case DoAbortBegin(id) => if AbortApplies(s, id) then AbortBegin(s, id) else s
    case _ => s
  }

  predicate OfManager(step: Step) {
    step.DoAcquire? || step.DoGiveUp? || step.DoStart? || step.DoAbortEnd? || step.DoReload? || step.DoReloadEnd?
  }

  function Next(s: State, step: Step): State {
    match step
    case DoAcquire(settings) => Acquire(s, settings)
    case DoGiveUp(token) =>
      if token < |s.manager.handles| && !HasRun(s, token) then s.(manager := M.Release(s.manager, token)) else s
    case DoStart(token, number) => if MayStart(s, token, number) then Start(s, token, number) else s
    case DoAbortEnd(org) => s.(manager := M.AbortEnd(s.manager, org))
    case DoReload(org) => s.(manager := M.ReloadBegin(s.manager, org))
    case DoReloadEnd(settings) => s.(manager := M.ReloadEnd(s.manager, settings))
    case _ => NextOfRun(s, step)
  }

  // ----- what every interleaving keeps -----

  /** A run's lease is released exactly by its end; it dies before that only by an abort, and it carries the number
      of the run. A run that connects or talks without its lease has escaped its abort. */
  ghost predicate RunOk(m: M.State, run: Run) {
    && run.token < |m.handles| && m.handles[run.token].org == run.org
    && (run.finished ==> m.handles[run.token].released && !run.talking && !run.ready)
    && (!run.finished ==> M.IsLive(m, run.token) || run.row.Aborted?)
    && (M.IsLive(m, run.token) ==> m.activeLeases[run.org].operationNumber == Some(run.number) && !run.escaped)
    && (run.ready || run.talking ==> M.IsLive(m, run.token) || run.escaped)
    && run.left <= REQUESTS
    && (run.ready || run.talking ==> run.left > 0 && !run.row.Final? && run.ready != run.talking)
  }

  ghost predicate RunsOk(m: M.State, runs: seq<Run>) {
    && (forall i :: 0 <= i < |runs| ==> RunOk(m, runs[i]))
    && (forall i, j :: 0 <= i < j < |runs| ==> runs[i].token != runs[j].token)
    && (forall i, j :: 0 <= i < j < |runs| && runs[i].org == runs[j].org ==> runs[i].number != runs[j].number)
  }

  /** A bound lease belongs to a run with that number. */
  ghost predicate BindingsOk(m: M.State, runs: seq<Run>) {
    forall org: Org :: org in m.activeLeases && m.activeLeases[org].operationNumber.Some? ==>
      exists i :: 0 <= i < |runs| && Bound(m, org, runs[i])
  }

  predicate Bound(m: M.State, org: Org, run: Run)
    requires org in m.activeLeases
  {
    run.token == m.activeLeases[org].token && m.activeLeases[org].operationNumber == Some(run.number)
  }

  /** A clean lease holds the registered terminal as long as it lives. */
  ghost predicate CleanOk(m: M.State, clean: set<M.Token>) {
    && (forall token :: token in clean ==> token < |m.handles|)
    && (forall token :: token in clean && M.IsLive(m, token) ==> M.OwnsRegistered(m, token))
  }

  /** No terminal serves two organisations. */
  ghost predicate TerminalsApart(terminals: map<Org, M.Terminal>, handles: seq<M.Handle>) {
    && (forall t, u :: 0 <= t < |handles| && 0 <= u < |handles| && handles[t].terminal == handles[u].terminal ==>
          handles[t].org == handles[u].org)
    && (forall org: Org, t :: org in terminals && 0 <= t < |handles| && terminals[org] == handles[t].terminal ==>
          handles[t].org == org)
    && (forall o: Org, p: Org :: o in terminals && p in terminals && terminals[o] == terminals[p] ==> o == p)
  }

  ghost predicate TerminalsOk(m: M.State) {
    TerminalsApart(m.terminals, m.handles)
  }

  /** Requests outstanding are at different terminals. */
  ghost predicate TalkersApart(m: M.State, runs: seq<Run>) {
    forall i, j :: 0 <= i < j < |runs| && runs[i].talking && runs[j].talking ==>
      && runs[i].token < |m.handles| && runs[j].token < |m.handles|
      && m.handles[runs[i].token].terminal != m.handles[runs[j].token].terminal
  }

  /** It has announced its operation at its terminal and is not through. */
  predicate Engaged(run: Run) {
    run.ready || run.talking || 0 < run.left < REQUESTS
  }

  predicate AnnouncedOk(m: M.State, run: Run, active: map<M.Terminal, string>, disturbed: set<M.Terminal>) {
    M.IsLive(m, run.token) && Engaged(run) ==>
      var terminal := m.handles[run.token].terminal;
      terminal in disturbed || IsActive(active, terminal, run.number)
  }

  ghost predicate ActiveOk(m: M.State, runs: seq<Run>, active: map<M.Terminal, string>, disturbed: set<M.Terminal>) {
    forall i :: 0 <= i < |runs| ==> AnnouncedOk(m, runs[i], active, disturbed)
  }

  ghost predicate ManagerOk(m: M.State, clean: set<M.Token>) {
    M.Consistent(m) && TerminalsOk(m) && CleanOk(m, clean)
  }

  ghost predicate Inv(s: State) {
    && ManagerOk(s.manager, s.clean)
    && RunsOk(s.manager, s.runs) && BindingsOk(s.manager, s.runs)
    && TalkersApart(s.manager, s.runs) && ActiveOk(s.manager, s.runs, s.active, s.disturbed)
  }

  // ----- the steps of the manager -----

  lemma FewerTerminals(terminals: map<Org, M.Terminal>, terminals': map<Org, M.Terminal>, handles: seq<M.Handle>,
                       handles': seq<M.Handle>)
    requires TerminalsApart(terminals, handles) && |handles'| == |handles|
    requires forall org: Org :: org in terminals' ==> org in terminals && terminals'[org] == terminals[org]
    requires forall t :: 0 <= t < |handles| ==>
               handles'[t].org == handles[t].org && handles'[t].terminal == handles[t].terminal
    ensures TerminalsApart(terminals', handles')
  {
  }

  lemma FreshTerminal(terminals: map<Org, M.Terminal>, handles: seq<M.Handle>, org: Org, unused: M.Terminal)
    requires TerminalsApart(terminals, handles)
    requires forall o: Org :: o in terminals ==> terminals[o] < unused
    requires forall t :: 0 <= t < |handles| ==> handles[t].terminal < unused
    ensures TerminalsApart(terminals[org := unused], handles)
  {
  }

  lemma LeasedTerminal(terminals: map<Org, M.Terminal>, handles: seq<M.Handle>, org: Org)
    requires TerminalsApart(terminals, handles) && org in terminals
    ensures TerminalsApart(terminals, handles + [M.Handle(org, terminals[org], false)])
  {
  }

  lemma AcquiredTerminalsOk(m: M.State, settings: M.Settings)
    requires M.Consistent(m) && TerminalsOk(m)
    ensures TerminalsOk(M.Acquire(m, settings).0)
  {
    var org := settings.org;
    if M.Acquire(m, settings).1.Ok? {
      FreshTerminal(m.terminals, m.handles, org, m.nextTerminal);
      LeasedTerminal(if org in m.terminals then m.terminals else m.terminals[org := m.nextTerminal], m.handles, org);
    }
  }

  lemma ReleasedTerminalsOk(m: M.State, token: M.Token)
    requires TerminalsOk(m) && token < |m.handles|
    ensures TerminalsOk(M.Release(m, token))
  {
    var m' := M.Release(m, token);
    FewerTerminals(m.terminals, m'.terminals, m.handles, m'.handles);
  }

  lemma AbortedTerminalsOk(m: M.State, org: Org)
    requires TerminalsOk(m)
    ensures TerminalsOk(M.AbortEnd(m, org)) && TerminalsOk(M.ReloadBegin(m, org))
  {
    FewerTerminals(m.terminals, M.AbortEnd(m, org).terminals, m.handles, m.handles);
    FewerTerminals(m.terminals, M.ReloadBegin(m, org).terminals, m.handles, m.handles);
  }

  lemma ReloadedTerminalsOk(m: M.State, settings: M.Settings)
    requires M.Consistent(m) && TerminalsOk(m)
    ensures TerminalsOk(M.ReloadEnd(m, settings))
  {
    FreshTerminal(m.terminals, m.handles, settings.org, m.nextTerminal);
  }

  lemma TerminalsKept(m: M.State, step: M.Step)
    requires M.Consistent(m) && TerminalsOk(m)
    ensures TerminalsOk(M.Next(m, step))
  {
    match step
    case DoAcquire(settings) => AcquiredTerminalsOk(m, settings);
    case DoRelease(token) => if token < |m.handles| { ReleasedTerminalsOk(m, token); }
    case DoAbortEnd(org) => AbortedTerminalsOk(m, org);
    case DoReload(org) => AbortedTerminalsOk(m, org);
    case DoReloadEnd(settings) => ReloadedTerminalsOk(m, settings);
    case _ =>
  }

  lemma CleanKept(m: M.State, clean: set<M.Token>, step: M.Step)
    requires M.Consistent(m) && CleanOk(m, clean)
    ensures CleanOk(M.Next(m, step), clean)
  {
    var m' := M.Next(m, step);
    M.HandlesGrow(m, step);
    forall token | token in clean && M.IsLive(m', token) ensures M.OwnsRegistered(m', token) {
      if M.IsLive(m, token) {
        M.OwnershipLasts(m, token, step);
      } else {
        M.DeadStaysDead(m, token, step);
      }
    }
  }

  lemma ManagerKept(m: M.State, clean: set<M.Token>, step: M.Step)
    requires ManagerOk(m, clean)
    ensures ManagerOk(M.Next(m, step), clean)
  {
    M.NextKeepsConsistent(m, step);
    TerminalsKept(m, step);
    CleanKept(m, clean, step);
  }

  /** A manager step that neither frees nor binds anybody's lease but the given one leaves all other runs alone. */
  ghost predicate LeasesKept(m: M.State, m': M.State, but: Option<M.Token>) {
    && |m.handles| <= |m'.handles|
    && (forall t :: 0 <= t < |m.handles| && Some(t) != but ==> m'.handles[t] == m.handles[t])
    && (forall t :: 0 <= t < |m.handles| ==>
          m'.handles[t].org == m.handles[t].org && m'.handles[t].terminal == m.handles[t].terminal)
    && (forall t :: 0 <= t < |m.handles| && Some(t) != but ==>
          (M.IsLive(m', t) <==> M.IsLive(m, t))
          && (M.IsLive(m, t) ==> m'.activeLeases[m.handles[t].org] == m.activeLeases[m.handles[t].org]))
  }

  lemma RunsKept(m: M.State, m': M.State, runs: seq<Run>, but: Option<M.Token>)
    requires RunsOk(m, runs) && LeasesKept(m, m', but)
    requires forall i :: 0 <= i < |runs| ==> Some(runs[i].token) != but
    ensures RunsOk(m', runs)
  {
    forall i | 0 <= i < |runs| ensures RunOk(m', runs[i]) {
      assert RunOk(m, runs[i]);
    }
  }

  lemma TalkersKept(m: M.State, m': M.State, runs: seq<Run>, but: Option<M.Token>)
    requires TalkersApart(m, runs) && LeasesKept(m, m', but)
    ensures TalkersApart(m', runs)
  {
  }

  lemma ActiveKept(m: M.State, m': M.State, runs: seq<Run>, but: Option<M.Token>, active: map<M.Terminal, string>,
                   disturbed: set<M.Terminal>)
    requires RunsOk(m, runs) && ActiveOk(m, runs, active, disturbed) && LeasesKept(m, m', but)
    requires forall i :: 0 <= i < |runs| && Some(runs[i].token) == but ==> !M.IsLive(m', runs[i].token)
    ensures ActiveOk(m', runs, active, disturbed)
  {
    forall i | 0 <= i < |runs| ensures AnnouncedOk(m', runs[i], active, disturbed) {
      assert RunOk(m, runs[i]) && AnnouncedOk(m, runs[i], active, disturbed);
    }
  }

  /** Every live lease of the new manager state was live before, with the same binding. */
  ghost predicate NoNewBindings(m: M.State, m': M.State) {
    forall org: Org :: org in m'.activeLeases && m'.activeLeases[org].operationNumber.Some? ==>
      org in m.activeLeases && m'.activeLeases[org] == m.activeLeases[org]
  }

  lemma BindingsKept(m: M.State, m': M.State, runs: seq<Run>)
    requires BindingsOk(m, runs) && NoNewBindings(m, m')
    ensures BindingsOk(m', runs)
  {
    forall org: Org | org in m'.activeLeases && m'.activeLeases[org].operationNumber.Some?
      ensures exists i :: 0 <= i < |runs| && Bound(m', org, runs[i])
    {
      var i :| 0 <= i < |runs| && Bound(m, org, runs[i]);
      assert Bound(m', org, runs[i]);
    }
  }

  lemma BindingsSame(m: M.State, runs: seq<Run>, runs': seq<Run>)
    requires BindingsOk(m, runs) && |runs'| == |runs|
    requires forall i :: 0 <= i < |runs| ==> runs'[i].token == runs[i].token && runs'[i].number == runs[i].number
    ensures BindingsOk(m, runs')
  {
    forall org: Org | org in m.activeLeases && m.activeLeases[org].operationNumber.Some?
      ensures exists i :: 0 <= i < |runs'| && Bound(m, org, runs'[i])
    {
      var i :| 0 <= i < |runs| && Bound(m, org, runs[i]);
      assert Bound(m, org, runs'[i]);
    }
  }

  /** A manager step that touches no run's lease. */
  lemma QuietStepKeepsInv(s: State, step: M.Step, but: Option<M.Token>)
    requires Inv(s) && LeasesKept(s.manager, M.Next(s.manager, step), but)
    requires NoNewBindings(s.manager, M.Next(s.manager, step))
    requires forall i :: 0 <= i < |s.runs| ==> Some(s.runs[i].token) != but
    ensures Inv(s.(manager := M.Next(s.manager, step)))
  {
    var m' := M.Next(s.manager, step);
    ManagerKept(s.manager, s.clean, step);
    RunsKept(s.manager, m', s.runs, but);
    TalkersKept(s.manager, m', s.runs, but);
    ActiveKept(s.manager, m', s.runs, but, s.active, s.disturbed);
    BindingsKept(s.manager, m', s.runs);
  }

  lemma AcquireLeases(m: M.State, settings: M.Settings)
    requires M.Consistent(m)
    ensures var (m', lease) := M.Acquire(m, settings);
            && LeasesKept(m, m', None) && NoNewBindings(m, m')
            && (lease.Ok? ==> lease.value == |m.handles| < |m'.handles|)
            && (lease.Ok? && m.reloading[settings.org] == 0 ==> M.OwnsRegistered(m', lease.value))
  {
  }

  lemma AcquireKeepsInv(s: State, settings: M.Settings)
    requires Inv(s)
    ensures Inv(Next(s, DoAcquire(settings)))
  {
    AcquireLeases(s.manager, settings);
    QuietStepKeepsInv(s, M.DoAcquire(settings), None);
  }

  lemma ReleasedLease(m: M.State, token: M.Token)
    requires M.Consistent(m) && token < |m.handles|
    ensures M.Release(m, token).handles == m.handles[token := m.handles[token].(released := true)]
    ensures M.Release(m, token).activeLeases ==
              if M.IsLive(m, token) then m.activeLeases - {m.handles[token].org} else m.activeLeases
  {
  }

  lemma ReleaseLeases(m: M.State, token: M.Token)
    requires M.Consistent(m) && token < |m.handles|
    ensures LeasesKept(m, M.Release(m, token), Some(token)) && NoNewBindings(m, M.Release(m, token))
    ensures M.Release(m, token).handles[token].released && !M.IsLive(M.Release(m, token), token)
  {
    ReleasedLease(m, token);
  }

  lemma GiveUpKeepsInv(s: State, token: M.Token)
    requires Inv(s)
    ensures Inv(Next(s, DoGiveUp(token)))
  {
    if token < |s.manager.handles| && !HasRun(s, token) {
      ReleaseLeases(s.manager, token);
      QuietStepKeepsInv(s, M.DoRelease(token), Some(token));
    }
  }

  lemma AbortEndLeases(m: M.State, org: Org)
    ensures LeasesKept(m, M.AbortEnd(m, org), None) && NoNewBindings(m, M.AbortEnd(m, org))
  {
  }

  lemma AbortEndKeepsInv(s: State, org: Org)
    requires Inv(s)
    ensures Inv(Next(s, DoAbortEnd(org)))
  {
    AbortEndLeases(s.manager, org);
    QuietStepKeepsInv(s, M.DoAbortEnd(org), None);
  }

  lemma ReloadLeases(m: M.State, org: Org, settings: M.Settings)
    ensures LeasesKept(m, M.ReloadBegin(m, org), None) && NoNewBindings(m, M.ReloadBegin(m, org))
    ensures LeasesKept(m, M.ReloadEnd(m, settings), None) && NoNewBindings(m, M.ReloadEnd(m, settings))
  {
  }

  lemma ReloadKeepsInv(s: State, org: Org)
    requires Inv(s)
    ensures Inv(Next(s, DoReload(org)))
  {
    ReloadLeases(s.manager, org, M.Settings(org, false, None));
    QuietStepKeepsInv(s, M.DoReload(org), None);
  }

  lemma ReloadEndKeepsInv(s: State, settings: M.Settings)
    requires Inv(s)
    ensures Inv(Next(s, DoReloadEnd(settings)))
  {
    ReloadLeases(s.manager, settings.org, settings);
    QuietStepKeepsInv(s, M.DoReloadEnd(settings), None);
  }

  lemma BindLeases(m: M.State, token: M.Token, number: string)
    requires M.IsLive(m, token)
    ensures var m' := M.Bind(m, token, number);
            && LeasesKept(m, m', Some(token)) && M.IsLive(m', token)
            && m'.handles == m.handles
            && m'.activeLeases == m.activeLeases[m.handles[token].org := M.ActiveLease(token, Some(number))]
  {
  }

  lemma StartedRunsOk(s: State, token: M.Token, number: string)
    requires Inv(s) && MayStart(s, token, number)
    ensures RunsOk(Start(s, token, number).manager, Start(s, token, number).runs)
  {
    var m' := M.Bind(s.manager, token, number);
    BindLeases(s.manager, token, number);
    RunsKept(s.manager, m', s.runs, Some(token));
    assert !s.manager.handles[token].released;
  }

  lemma StartedBindingsOk(s: State, token: M.Token, number: string)
    requires Inv(s) && MayStart(s, token, number)
    ensures BindingsOk(Start(s, token, number).manager, Start(s, token, number).runs)
  {
    var org, s' := s.manager.handles[token].org, Start(s, token, number);
    BindLeases(s.manager, token, number);
    forall o: Org | o in s'.manager.activeLeases && s'.manager.activeLeases[o].operationNumber.Some?
      ensures exists i :: 0 <= i < |s'.runs| && Bound(s'.manager, o, s'.runs[i])
    {
      if o == org {
        assert Bound(s'.manager, o, s'.runs[|s.runs|]);
      } else {
        var i :| 0 <= i < |s.runs| && Bound(s.manager, o, s.runs[i]);
        assert Bound(s'.manager, o, s'.runs[i]);
      }
    }
  }

  /** Nobody knows of the new run yet. */
  lemma SilentRunOk(m: M.State, runs: seq<Run>, run: Run, active: map<M.Terminal, string>, disturbed: set<M.Terminal>)
    requires TalkersApart(m, runs) && ActiveOk(m, runs, active, disturbed) && !run.talking && !Engaged(run)
    ensures TalkersApart(m, runs + [run]) && ActiveOk(m, runs + [run], active, disturbed)
  {
    forall i | 0 <= i < |runs + [run]| ensures AnnouncedOk(m, (runs + [run])[i], active, disturbed) {
      if i < |runs| {
        assert AnnouncedOk(m, runs[i], active, disturbed);
      }
    }
  }

  lemma StartedActiveOk(s: State, token: M.Token, number: string)
    requires Inv(s) && MayStart(s, token, number)
    ensures var s' := Start(s, token, number);
            TalkersApart(s'.manager, s'.runs) && ActiveOk(s'.manager, s'.runs, s'.active, s'.disturbed)
  {
    var m' := M.Bind(s.manager, token, number);
    BindLeases(s.manager, token, number);
    TalkersKept(s.manager, m', s.runs, Some(token));
    ActiveKept(s.manager, m', s.runs, Some(token), s.active, s.disturbed);
    SilentRunOk(m', s.runs, NewRun(s.manager.handles[token].org, token, number), s.active, s.disturbed);
  }

  lemma StartKeepsInv(s: State, token: M.Token, number: string)
    requires Inv(s)
    ensures Inv(Next(s, DoStart(token, number)))
  {
    if MayStart(s, token, number) {
      ManagerKept(s.manager, s.clean, M.DoBind(token, number));
      StartedRunsOk(s, token, number);
      StartedBindingsOk(s, token, number);
      StartedActiveOk(s, token, number);
    }
  }

  // ----- the steps of a run -----

  /** At the terminal of a live run no other run has a live lease. */
  lemma OneLiveAtTerminal(m: M.State, runs: seq<Run>, i: Id, j: Id)
    requires M.Consistent(m) && TerminalsOk(m) && RunsOk(m, runs) && i < |runs| && j < |runs|
    requires M.IsLive(m, runs[i].token) && M.IsLive(m, runs[j].token)
    requires m.handles[runs[i].token].terminal == m.handles[runs[j].token].terminal
    ensures i == j
  {
    assert RunOk(m, runs[i]) && RunOk(m, runs[j]);
  }

  /** One run of the table changes, and what its terminal takes to be under way. */
  ghost predicate RunChange(s: State, s': State, id: Id) {
    && HasId(s, id) && s'.manager == s.manager && s'.clean == s.clean && s.disturbed <= s'.disturbed
    && |s'.runs| == |s.runs| && s'.runs == s.runs[id := s'.runs[id]]
    && var run, run' := s.runs[id], s'.runs[id];
    && run' == run.(row := run'.row, left := run'.left, ready := run'.ready, talking := run'.talking)
    && (run'.talking ==> run.talking || !TerminalTaken(s, id))
    && var terminal := TerminalOf(s, id);
    && s'.active - {terminal} == s.active - {terminal}
    && (s'.active == s.active || M.IsLive(s.manager, run.token) || terminal in s'.disturbed)
  }

  lemma OthersStayAnnounced(s: State, s': State, id: Id, j: Id)
    requires Inv(s) && RunChange(s, s', id) && j < |s.runs| && j != id
    ensures AnnouncedOk(s.manager, s.runs[j], s'.active, s'.disturbed)
  {
    var m, run := s.manager, s.runs[j];
    assert AnnouncedOk(m, run, s.active, s.disturbed) && RunOk(m, run);
    if M.IsLive(m, run.token) && Engaged(run) {
      var terminal := m.handles[run.token].terminal;
      if terminal == TerminalOf(s, id) {
        if M.IsLive(m, s.runs[id].token) {
          OneLiveAtTerminal(m, s.runs, id, j);
        }
      } else if terminal in s.active {
        assert terminal in s.active - {TerminalOf(s, id)};
        assert terminal in s'.active - {TerminalOf(s, id)};
      }
    }
  }

  lemma TalkersStayApart(s: State, s': State, id: Id)
    requires RunsOk(s.manager, s.runs) && TalkersApart(s.manager, s.runs) && RunChange(s, s', id)
    ensures TalkersApart(s'.manager, s'.runs)
  {
    forall j | 0 <= j < |s.runs| ensures RunOk(s.manager, s.runs[j]) {
    }
  }

  lemma RunKeepsInv(s: State, s': State, id: Id)
    requires Inv(s) && RunChange(s, s', id) && RunOk(s.manager, s'.runs[id])
    requires AnnouncedOk(s.manager, s'.runs[id], s'.active, s'.disturbed)
    ensures Inv(s')
  {
    BindingsSame(s.manager, s.runs, s'.runs);
    TalkersStayApart(s, s', id);
    forall j | 0 <= j < |s.runs| && j != id ensures AnnouncedOk(s.manager, s.runs[j], s'.active, s'.disturbed) {
      OthersStayAnnounced(s, s', id, j);
    }
    assert RunsOk(s.manager, s'.runs);
  }

  lemma CheckKeepsInv(s: State, id: Id)
    requires Inv(s) && MayCheck(s, id)
    ensures Inv(Check(s, id)) && M.IsLive(s.manager, s.runs[id].token)
  {
    assert RunOk(s.manager, s.runs[id]) && AnnouncedOk(s.manager, s.runs[id], s.active, s.disturbed);
    RunKeepsInv(s, Check(s, id), id);
  }

  lemma SettleKeepsInv(s: State, id: Id, ok: bool)
    requires Inv(s) && HasId(s, id) && (s.runs[id].ready || s.runs[id].talking)
    ensures Inv(Settle(s, id, ok))
  {
    assert RunOk(s.manager, s.runs[id]) && AnnouncedOk(s.manager, s.runs[id], s.active, s.disturbed);
    RunKeepsInv(s, Settle(s, id, ok), id);
  }

  lemma SendKeepsInv(s: State, id: Id)
    requires Inv(s) && HasId(s, id) && s.runs[id].ready
    ensures Inv(Send(s, id))
  {
    if TerminalTaken(s, id) {
      SettleKeepsInv(s, id, false);
    } else {
      assert RunOk(s.manager, s.runs[id]) && AnnouncedOk(s.manager, s.runs[id], s.active, s.disturbed);
      RunKeepsInv(s, Send(s, id), id);
    }
  }

  lemma RowKeepsInv(s: State, id: Id, row: Row)
    requires Inv(s) && HasId(s, id) && s.runs[id].row.Open? && (row.Aborted? || Idle(s, id))
    ensures Inv(SetRun(s, id, s.runs[id].(row := row)))
  {
    assert RunOk(s.manager, s.runs[id]) && AnnouncedOk(s.manager, s.runs[id], s.active, s.disturbed);
    RunKeepsInv(s, SetRun(s, id, s.runs[id].(row := row)), id);
  }

  lemma MarkAbortedKeepsInv(s: State, id: Id)
    requires Inv(s)
    ensures Inv(NextOfRun(s, DoMarkAborted(id)))
  {
    if id < |s.runs| && s.runs[id].row.Open? {
      assert RunOk(s.manager, s.runs[id]);
      RowKeepsInv(s, id, Aborted);
    }
  }

  lemma DropKeepsInv(s: State, id: Id)
    requires Inv(s)
    ensures Inv(NextOfRun(s, DoDrop(id)))
  {
    if HasId(s, id) && s.runs[id].ready {
      SettleKeepsInv(s, id, false);
    }
  }

  lemma AnswerKeepsInv(s: State, id: Id, ok: bool)
    requires Inv(s)
    ensures Inv(NextOfRun(s, DoAnswer(id, ok)))
  {
    if HasId(s, id) && s.runs[id].talking {
      SettleKeepsInv(s, id, ok);
    }
  }

  lemma FinishedRunsOk(s: State, id: Id)
    requires Inv(s) && Idle(s, id)
    ensures RunsOk(Finish(s, id).manager, Finish(s, id).runs)
  {
    var s' := Finish(s, id);
    ReleaseLeases(s.manager, s.runs[id].token);
    forall i | 0 <= i < |s'.runs| ensures RunOk(s'.manager, s'.runs[i]) {
      assert RunOk(s.manager, s.runs[i]);
    }
  }

  lemma FinishedActiveOk(s: State, id: Id)
    requires Inv(s) && Idle(s, id)
    ensures var s' := Finish(s, id);
            && BindingsOk(s'.manager, s'.runs) && TalkersApart(s'.manager, s'.runs)
            && ActiveOk(s'.manager, s'.runs, s'.active, s'.disturbed)
  {
    var token, s' := s.runs[id].token, Finish(s, id);
    ReleaseLeases(s.manager, token);
    BindingsKept(s.manager, s'.manager, s.runs);
    BindingsSame(s'.manager, s.runs, s'.runs);
    TalkersKept(s.manager, s'.manager, s.runs, Some(token));
    ActiveKept(s.manager, s'.manager, s.runs, Some(token), s.active, s.disturbed);
    assert AnnouncedOk(s'.manager, s.runs[id], s.active, s.disturbed);
  }

  lemma FinishKeepsInv(s: State, id: Id)
    requires Inv(s) && Idle(s, id)
    ensures Inv(Finish(s, id))
  {
    ManagerKept(s.manager, s.clean, M.DoRelease(s.runs[id].token));
    FinishedRunsOk(s, id);
    FinishedActiveOk(s, id);
  }

  // ----- aborts -----

  /** The lease an abort takes away is the run's own. */
  lemma AbortTakesOwnLease(s: State, id: Id)
    requires Inv(s) && AbortApplies(s, id)
    ensures M.IsLive(s.manager, s.runs[id].token) && s.manager.activeLeases[s.runs[id].org].token == s.runs[id].token
  {
    var run := s.runs[id];
    var i :| 0 <= i < |s.runs| && Bound(s.manager, run.org, s.runs[i]);
    assert RunOk(s.manager, s.runs[i]) && RunOk(s.manager, run);
  }

  lemma AbortBeginLeases(m: M.State, org: Org, number: string)
    requires M.Consistent(m) && M.AbortApplies(m, org, number)
    ensures var m', token := M.AbortBegin(m, org, number), m.activeLeases[org].token;
            LeasesKept(m, m', Some(token)) && NoNewBindings(m, m') && !M.IsLive(m', token) && m'.handles == m.handles
  {
  }

  /** The abort of a run is begun at its terminal, and the run keeps its lease for a moment. */
  lemma CutOffRunsOk(s: State, id: Id)
    requires Inv(s) && id < |s.runs|
    ensures RunsOk(s.manager, CutOff(s, id).runs) && BindingsOk(s.manager, CutOff(s, id).runs)
    ensures TalkersApart(s.manager, CutOff(s, id).runs)
  {
    var runs' := CutOff(s, id).runs;
    forall i | 0 <= i < |runs'| ensures RunOk(s.manager, runs'[i]) {
      assert RunOk(s.manager, s.runs[i]);
    }
    BindingsSame(s.manager, s.runs, runs');
  }

  /** Only the aborted run loses its announcement. */
  lemma CutOffActiveOk(s: State, id: Id, j: Id)
    requires Inv(s) && AbortApplies(s, id) && j < |s.runs| && j != id
    ensures AnnouncedOk(s.manager, CutOff(s, id).runs[j], CutOff(s, id).active, s.disturbed)
  {
    var m, run := s.manager, s.runs[j];
    assert AnnouncedOk(m, run, s.active, s.disturbed) && RunOk(m, run);
    AbortTakesOwnLease(s, id);
    if Hits(s, id) && M.IsLive(m, run.token) {
      assert RunOk(m, s.runs[id]) && run.org != s.runs[id].org;
      assert m.handles[run.token].terminal != m.terminals[s.runs[id].org];
    }
  }

  lemma EscapedRunsOk(m: M.State, m': M.State, runs: seq<Run>, id: Id)
    requires RunsOk(m, runs) && id < |runs| && runs[id].row.Aborted?
    requires LeasesKept(m, m', Some(runs[id].token)) && !M.IsLive(m', runs[id].token) && m'.handles == m.handles
    ensures RunsOk(m', runs[id := Escape(runs[id])])
  {
    var runs' := runs[id := Escape(runs[id])];
    forall i | 0 <= i < |runs'| ensures RunOk(m', runs'[i]) {
      assert RunOk(m, runs[i]);
    }
  }

  lemma EscapedTalkersOk(m: M.State, m': M.State, runs: seq<Run>, id: Id)
    requires BindingsOk(m, runs) && TalkersApart(m, runs) && id < |runs| && NoNewBindings(m, m')
    requires m'.handles == m.handles
    ensures BindingsOk(m', runs[id := Escape(runs[id])]) && TalkersApart(m', runs[id := Escape(runs[id])])
  {
    BindingsKept(m, m', runs);
    BindingsSame(m', runs, runs[id := Escape(runs[id])]);
  }

  lemma AbortBeginActiveOk(s: State, id: Id)
    requires Inv(s) && AbortApplies(s, id)
    ensures var s' := AbortBegin(s, id); ActiveOk(s'.manager, s'.runs, s'.active, s'.disturbed)
  {
    var run, s' := s.runs[id], AbortBegin(s, id);
    AbortTakesOwnLease(s, id);
    AbortBeginLeases(s.manager, run.org, run.number);
    forall j | 0 <= j < |s'.runs| ensures AnnouncedOk(s'.manager, s'.runs[j], s'.active, s'.disturbed) {
      if j != id {
        assert RunOk(s.manager, s.runs[j]);
        CutOffActiveOk(s, id, j);
      }
    }
  }

  lemma AbortBeginRunsOk(s: State, id: Id)
    requires Inv(s) && AbortApplies(s, id)
    ensures var s' := AbortBegin(s, id);
            RunsOk(s'.manager, s'.runs) && BindingsOk(s'.manager, s'.runs) && TalkersApart(s'.manager, s'.runs)
  {
    var run, m', cut := s.runs[id], AbortBegin(s, id).manager, CutOff(s, id).runs;
    AbortTakesOwnLease(s, id);
    AbortBeginLeases(s.manager, run.org, run.number);
    CutOffRunsOk(s, id);
    EscapedRunsOk(s.manager, m', cut, id);
    EscapedTalkersOk(s.manager, m', cut, id);
  }

  lemma AbortBeginKeepsInv(s: State, id: Id)
    requires Inv(s) && AbortApplies(s, id)
    ensures Inv(AbortBegin(s, id))
  {
    ManagerKept(s.manager, s.clean, M.DoAbortBegin(s.runs[id].org, s.runs[id].number));
    AbortBeginRunsOk(s, id);
    AbortBeginActiveOk(s, id);
  }

  // ----- whole runs -----

  lemma NextOfRunKeepsInv(s: State, step: Step)
    requires Inv(s)
    ensures Inv(NextOfRun(s, step))
  {
    match step
    case DoCheck(id) => if MayCheck(s, id) { CheckKeepsInv(s, id); }
    case DoSend(id) => if HasId(s, id) && s.runs[id].ready { SendKeepsInv(s, id); }
    case DoDrop(id) => DropKeepsInv(s, id);
    case DoAnswer(id, ok) => AnswerKeepsInv(s, id, ok);
    case DoClose(id) => if Idle(s, id) && s.runs[id].row.Open? { RowKeepsInv(s, id, Final); }
    case DoFinish(id) => if Idle(s, id) { FinishKeepsInv(s, id); }
    case DoMarkAborted(id) => MarkAbortedKeepsInv(s, id);
    case DoAbortBegin(id) => if AbortApplies(s, id) { AbortBeginKeepsInv(s, id); }
    case _ =>
  }

  lemma RunStepKeepsInv(s: State, step: Step)
    requires Inv(s) && !OfManager(step)
    ensures Inv(Next(s, step))
  {
    NextOfRunKeepsInv(s, step);
  }

  lemma NextKeepsInv(s: State, step: Step)
    requires Inv(s)
    ensures Inv(Next(s, step))
  {
    match step
    case DoAcquire(settings) => AcquireKeepsInv(s, settings);
    case DoGiveUp(token) => GiveUpKeepsInv(s, token);
    case DoStart(token, number) => StartKeepsInv(s, token, number);
    case DoAbortEnd(org) => AbortEndKeepsInv(s, org);
    case DoReload(org) => ReloadKeepsInv(s, org);
    case DoReloadEnd(settings) => ReloadEndKeepsInv(s, settings);
    case _ => RunStepKeepsInv(s, step);
  }
  /** A run of the system written down state by state. */
  ghost predicate Trace(states: seq<State>, steps: seq<Step>) {
    && |states| == |steps| + 1 && states[0] == Initial
    && forall i {:trigger steps[i]} :: 0 <= i < |steps| ==> states[i + 1] == Next(states[i], steps[i])
  }

  lemma {:induction false} TraceKeepsInv(states: seq<State>, steps: seq<Step>, k: nat)
    requires Trace(states, steps) && k <= |steps|
    ensures Inv(states[k])
  {
    if k > 0 {
      TraceKeepsInv(states, steps, k - 1);
      NextKeepsInv(states[k - 1], steps[k - 1]);
    }
  }

  ghost predicate Reachable(s: State) {
    exists states: seq<State>, steps: seq<Step> :: Trace(states, steps) && states[|steps|] == s
  }

  lemma TraceExtends(states: seq<State>, steps: seq<Step>, step: Step, next: State)
    requires Trace(states, steps) && next == Next(states[|steps|], step)
    ensures Trace(states + [next], steps + [step])
  {
    var all, longer := steps + [step], states + [next];
    forall i {:trigger all[i]} | 0 <= i < |all| ensures longer[i + 1] == Next(longer[i], all[i]) {
      if i < |steps| {
        assert all[i] == steps[i] && longer[i] == states[i] && longer[i + 1] == states[i + 1];
      }
    }
  }

  lemma NextIsReachable(s: State, step: Step, next: State)
    requires Reachable(s) && next == Next(s, step)
    ensures Reachable(next)
  {
    var states: seq<State>, steps: seq<Step> :| Trace(states, steps) && states[|steps|] == s;
    TraceExtends(states, steps, step, next);
    assert (states + [next])[|steps + [step]|] == next;
  }

  lemma ReachableKeepsInv(s: State)
    requires Reachable(s)
    ensures Inv(s)
  {
    var states: seq<State>, steps: seq<Step> :| Trace(states, steps) && states[|steps|] == s;
    TraceKeepsInv(states, steps, |steps|);
  }

  predicate Live(s: State, id: Id) {
    HasId(s, id) && M.IsLive(s.manager, s.runs[id].token)
  }

  lemma OneLive(s: State, i: Id, j: Id)
    requires Inv(s) && Live(s, i) && Live(s, j) && s.runs[i].org == s.runs[j].org
    ensures i == j
  {
    assert RunOk(s.manager, s.runs[i]) && RunOk(s.manager, s.runs[j]);
  }

  /** Of the runs of an organisation, at most one is unfinished and not aborted: the one with the live lease. */
  lemma OneOpenRun(s: State, i: Id, j: Id)
    requires Reachable(s) && i < |s.runs| && j < |s.runs| && s.runs[i].org == s.runs[j].org
    requires !s.runs[i].finished && !s.runs[i].row.Aborted? && !s.runs[j].finished && !s.runs[j].row.Aborted?
    ensures i == j && Live(s, i)
  {
    ReachableKeepsInv(s);
    assert RunOk(s.manager, s.runs[i]) && RunOk(s.manager, s.runs[j]);
    OneLive(s, i, j);
  }

  // ----- who ends a lease -----

  predicate TakesLease(s: State, step: Step, id: Id) {
    step == DoAbortBegin(id) && AbortApplies(s, id)
  }

  predicate Ends(s: State, step: Step, id: Id) {
    step == DoFinish(id) && Idle(s, id)
  }

  /** A lease was kept for its run. */
  predicate LeaseKept(s: State, s': State, id: Id)
    requires HasId(s, id)
  {
    HasId(s', id) && s'.runs[id].token == s.runs[id].token && s'.runs[id].org == s.runs[id].org
  }

  lemma KeptLeaseLives(s: State, s': State, id: Id, but: Option<M.Token>)
    requires HasId(s, id) && LeasesKept(s.manager, s'.manager, but) && Some(s.runs[id].token) != but
    requires id < |s'.runs| && s'.runs[id].token == s.runs[id].token && s'.runs[id].org == s.runs[id].org
    ensures LeaseKept(s, s', id) && (Live(s', id) <==> Live(s, id))
  {
  }

  lemma ManagerStepLives(s: State, step: Step, id: Id)
    requires Inv(s) && HasId(s, id) && OfManager(step)
    ensures LeaseKept(s, Next(s, step), id) && (Live(Next(s, step), id) <==> Live(s, id))
  {
    var s' := Next(s, step);
    match step
    case DoAcquire(settings) => AcquireLeases(s.manager, settings); KeptLeaseLives(s, s', id, None);
    case DoGiveUp(token) =>
      if token < |s.manager.handles| && !HasRun(s, token) {
        ReleaseLeases(s.manager, token);
        KeptLeaseLives(s, s', id, Some(token));
      }
    case DoStart(token, number) =>
      if MayStart(s, token, number) {
        BindLeases(s.manager, token, number);
        KeptLeaseLives(s, s', id, Some(token));
      }
    case DoAbortEnd(org) => AbortEndLeases(s.manager, org); KeptLeaseLives(s, s', id, None);
    case DoReload(org) => ReloadLeases(s.manager, org, M.Settings(org, false, None)); KeptLeaseLives(s, s', id, None);
    case DoReloadEnd(settings) => ReloadLeases(s.manager, settings.org, settings); KeptLeaseLives(s, s', id, None);
  }

  lemma AbortLives(s: State, other: Id, id: Id)
    requires Inv(s) && HasId(s, id) && AbortApplies(s, other)
    ensures var s' := AbortBegin(s, other); LeaseKept(s, s', id) && (Live(s', id) <==> Live(s, id) && other != id)
  {
    AbortTakesOwnLease(s, other);
    AbortBeginLeases(s.manager, s.runs[other].org, s.runs[other].number);
    if other != id {
      KeptLeaseLives(s, AbortBegin(s, other), id, Some(s.runs[other].token));
    }
  }

  lemma FinishLives(s: State, other: Id, id: Id)
    requires Inv(s) && HasId(s, id) && Idle(s, other)
    ensures var s' := Finish(s, other); LeaseKept(s, s', id) && (Live(s', id) <==> Live(s, id) && other != id)
  {
    ReleaseLeases(s.manager, s.runs[other].token);
    if other != id {
      KeptLeaseLives(s, Finish(s, other), id, Some(s.runs[other].token));
    }
  }

  lemma ConversationLives(s: State, step: Step, id: Id)
    requires HasId(s, id) && !step.DoFinish? && !step.DoAbortBegin?
    ensures var s' := NextOfRun(s, step); LeaseKept(s, s', id) && (Live(s', id) <==> Live(s, id))
  {
  }

  /** The lease of a run ends with an abort that takes it, or with the run. */
  lemma LeaseEnds(s: State, step: Step, id: Id)
    requires Inv(s) && HasId(s, id)
    ensures LeaseKept(s, Next(s, step), id)
    ensures Live(Next(s, step), id) <==> Live(s, id) && !TakesLease(s, step, id) && !Ends(s, step, id)
  {
    match step
    case DoFinish(other) => if Idle(s, other) { FinishLives(s, other, id); }
    case DoAbortBegin(other) => if AbortApplies(s, other) { AbortLives(s, other, id); }
    case _ =>
      if OfManager(step) {
        ManagerStepLives(s, step, id);
      } else {
        ConversationLives(s, step, id);
      }
  }

  // ----- checks and requests -----

  predicate Checks(s: State, step: Step, id: Id) {
    step == DoCheck(id) && MayCheck(s, id)
  }

  predicate Sends(s: State, step: Step, id: Id) {
    step == DoSend(id) && MaySend(s, id)
  }

  predicate Ready(s: State, id: Id) {
    HasId(s, id) && s.runs[id].ready
  }

  /** The step before a run is ready: its check, or a step that leaves it ready and takes at most its lease. */
  predicate BeforeReady(s: State, step: Step, s': State, id: Id) {
    || (Checks(s, step, id) && Live(s', id))
    || (Ready(s, id) && step != DoSend(id) && (Live(s', id) <==> Live(s, id) && !TakesLease(s, step, id)))
  }

  lemma OnlyChecksMakeReady(s: State, step: Step, id: Id)
    requires Ready(Next(s, step), id)
    ensures id < |s.runs| && (Checks(s, step, id) || (s.runs[id].ready && step != DoSend(id)))
  {
  }

  lemma ReadyStep(s: State, step: Step, id: Id)
    requires Inv(s) && Ready(Next(s, step), id)
    ensures BeforeReady(s, step, Next(s, step), id)
  {
    OnlyChecksMakeReady(s, step, id);
    assert RunOk(s.manager, s.runs[id]);
    if Checks(s, step, id) {
      CheckKeepsInv(s, id);
    } else {
      LeaseEnds(s, step, id);
    }
  }

  /** An abort took the lease of the run between two moments. */
  ghost predicate LeaseTaken(states: seq<State>, steps: seq<Step>, i: nat, k: nat, id: Id)
    requires |states| == |steps| + 1 && k <= |steps|
  {
    exists j {:trigger steps[j]} :: i < j < k && TakesLease(states[j], steps[j], id)
  }

  lemma LeaseTakenBefore(states: seq<State>, steps: seq<Step>, i: nat, k: nat, id: Id)
    requires |states| == |steps| + 1 && i < k < |steps|
    ensures LeaseTaken(states, steps, i, k + 1, id) <==>
              LeaseTaken(states, steps, i, k, id) || TakesLease(states[k], steps[k], id)
    ensures !LeaseTaken(states, steps, k, k + 1, id)
  {
    assert steps[k] == steps[k];
  }

  lemma {:induction false} ReadyRun(states: seq<State>, steps: seq<Step>, k: nat, id: Id) returns (i: nat)
    requires |states| == |steps| + 1 && k <= |steps| && Ready(states[k], id)
    requires !Ready(states[0], id)
    requires forall j {:trigger steps[j]} :: 0 <= j < k && Ready(states[j + 1], id) ==>
               BeforeReady(states[j], steps[j], states[j + 1], id)
    ensures i < k && Checks(states[i], steps[i], id) && forall j :: i < j <= k ==> Ready(states[j], id)
    ensures Live(states[k], id) <==> !LeaseTaken(states, steps, i, k, id)
  {
    if Checks(states[k - 1], steps[k - 1], id) && Live(states[k], id) {
      i := k - 1;
    } else {
      i := ReadyRun(states, steps, k - 1, id);
      LeaseTakenBefore(states, steps, i, k - 1, id);
    }
  }

  /** Every request follows a check of an open row in the same turn. It leaves without the lease exactly if an abort
      took the lease in between. */
  lemma SendFollowsCheck(states: seq<State>, steps: seq<Step>, k: nat, id: Id) returns (i: nat)
    requires Trace(states, steps) && k < |steps| && Sends(states[k], steps[k], id)
    ensures i < k && Checks(states[i], steps[i], id) && forall j :: i < j <= k ==> Ready(states[j], id)
    ensures Live(states[k], id) <==> !LeaseTaken(states, steps, i, k, id)
  {
    forall j {:trigger steps[j]} | 0 <= j < k && Ready(states[j + 1], id)
      ensures BeforeReady(states[j], steps[j], states[j + 1], id)
    {
      TraceKeepsInv(states, steps, j);
      assert states[j + 1] == Next(states[j], steps[j]);
      ReadyStep(states[j], steps[j], id);
    }
    i := ReadyRun(states, steps, k, id);
  }

  // ----- interleaved conversations -----

  /** The request leaves although an abort took the lease since the row was checked for it. */
  ghost predicate Overtaken(states: seq<State>, steps: seq<Step>, k: nat, id: Id)
    requires |states| == |steps| + 1 && k < |steps|
  {
    exists i :: 0 <= i < k && Checks(states[i], steps[i], id) && (forall j :: i < j <= k ==> Ready(states[j], id))
                && LeaseTaken(states, steps, i, k, id)
  }

  lemma {:induction false} DeadForever(states: seq<State>, steps: seq<Step>, j: nat, k: nat, id: Id)
    requires Trace(states, steps) && j <= k <= |steps| && HasId(states[j], id) && !Live(states[j], id)
    ensures HasId(states[k], id) && !Live(states[k], id) && states[k].runs[id].org == states[j].runs[id].org
  {
    if j < k {
      DeadForever(states, steps, j, k - 1, id);
      TraceKeepsInv(states, steps, k - 1);
      LeaseEnds(states[k - 1], steps[k - 1], id);
    }
  }

  /** Two runs of an organisation take turns at its terminals only if one of the two requests was overtaken by an abort:
      the one that comes between, or the one that follows it. */
  lemma InterleavedIsOvertaken(states: seq<State>, steps: seq<Step>, j: nat, k: nat, r: Id, other: Id)
    requires Trace(states, steps) && j < k < |steps| && r != other
    requires Sends(states[j], steps[j], other) && Sends(states[k], steps[k], r)
    requires HasId(states[j], r) && states[j].runs[r].org == states[j].runs[other].org
    ensures Overtaken(states, steps, j, other) || Overtaken(states, steps, k, r)
  {
    TraceKeepsInv(states, steps, j);
    if Live(states[j], other) {
      if Live(states[j], r) {
        OneLive(states[j], r, other);
      }
      DeadForever(states, steps, j, k, r);
      var i := SendFollowsCheck(states, steps, k, r);
    } else {
      var i := SendFollowsCheck(states, steps, j, other);
    }
  }

  /** Two runs of an organisation have requests outstanding at once only at different terminals, and only if one of them
      has escaped its abort. */
  lemma TalkersExclude(s: State, i: Id, j: Id)
    requires Reachable(s) && i < |s.runs| && j < |s.runs| && i != j
    requires s.runs[i].org == s.runs[j].org && s.runs[i].talking && s.runs[j].talking
    ensures HasId(s, i) && HasId(s, j) && TerminalOf(s, i) != TerminalOf(s, j)
    ensures (s.runs[i].escaped && !Live(s, i)) || (s.runs[j].escaped && !Live(s, j))
  {
    ReachableKeepsInv(s);
    assert RunOk(s.manager, s.runs[i]) && RunOk(s.manager, s.runs[j]);
    if Live(s, i) && Live(s, j) {
      OneLive(s, i, j);
    }
  }

  /** The abort would cut off the terminal of the run. */
  predicate Reaches(s: State, id: Id)
    requires HasId(s, id)
  {
    Hits(s, id) && s.manager.terminals[s.runs[id].org] == TerminalOf(s, id)
  }

  /** An abort that takes the lease away cuts the conversation off exactly when it reaches the terminal of the run, and
      stops no run that is still connecting; what it leaves has escaped. It reaches the terminal of a clean lease unless
      an escaped run disturbed that. */
  lemma AbortReaches(s: State, id: Id)
    requires Reachable(s) && AbortApplies(s, id)
    ensures HasId(s, id) && HasId(Next(s, DoAbortBegin(id)), id) && !Live(Next(s, DoAbortBegin(id)), id)
    ensures var run, run' := s.runs[id], Next(s, DoAbortBegin(id)).runs[id];
            && (run'.talking <==> run.talking && !Reaches(s, id))
            && (run'.ready <==> run.ready)
            && (run'.escaped <==> run'.talking || run'.ready)
            && (run.token in s.clean && Engaged(run) && TerminalOf(s, id) !in s.disturbed ==>
                  Reaches(s, id) && !run'.talking)
  {
    ReachableKeepsInv(s);
    AbortTakesOwnLease(s, id);
    AbortLives(s, id, id);
    assert RunOk(s.manager, s.runs[id]) && AnnouncedOk(s.manager, s.runs[id], s.active, s.disturbed);
  }

  // ----- what can still happen -----

  function After(s: State, steps: seq<Step>): State {
    if steps == [] then s else Next(After(s, steps[..|steps| - 1]), steps[|steps| - 1])
  }

  ghost predicate Leads(s: State, s': State) {
    exists steps: seq<Step> :: After(s, steps) == s'
  }

  lemma LeadsToItself(s: State)
    ensures Leads(s, s)
  {
    assert After(s, []) == s;
  }

  lemma LeadsOn(base: State, s: State, step: Step)
    requires Leads(base, s)
    ensures Leads(base, Next(s, step))
  {
    var steps: seq<Step> :| After(base, steps) == s;
    assert (steps + [step])[..|steps|] == steps;
    assert After(base, steps + [step]) == Next(s, step);
  }

  /** Another run of the organisation sends, and then this one does. */
  predicate SendBetween(s: State, other: Id, r: Id) {
    other != r && MaySend(s, other) && r < |s.runs| && s.runs[other].org == s.runs[r].org
  }

  ghost predicate Interleaves(s: State, r: Id, other: Id, between: State, late: State) {
    && Leads(s, between) && SendBetween(between, other, r)
    && Leads(Next(between, DoSend(other)), late) && MaySend(late, r)
  }

  ghost predicate MayBeInterleaved(s: State, r: Id) {
    exists other, between, late :: Interleaves(s, r, other, between, late)
  }

  /** It is connecting, or its row is open and it has a request left after the one outstanding. */
  predicate CanStillSend(run: Run) {
    run.ready || (run.row.Open? && !run.finished && run.left > if run.talking then 1 else 0)
  }

  lemma SpentStaysSpent(s: State, step: Step, r: Id)
    requires r < |s.runs| && !CanStillSend(s.runs[r])
    ensures r < |Next(s, step).runs| && !CanStillSend(Next(s, step).runs[r])
  {
  }

  lemma {:induction false} SpentForever(s: State, steps: seq<Step>, r: Id)
    requires r < |s.runs| && !CanStillSend(s.runs[r])
    ensures r < |After(s, steps).runs| && !CanStillSend(After(s, steps).runs[r])
  {
    if steps != [] {
      SpentForever(s, steps[..|steps| - 1], r);
      SpentStaysSpent(After(s, steps[..|steps| - 1]), steps[|steps| - 1], r);
    }
  }

  lemma SpentNeverSends(s: State, r: Id, other: Id, between: State, late: State)
    requires r < |s.runs| && Interleaves(s, r, other, between, late)
    ensures CanStillSend(s.runs[r])
  {
    if !CanStillSend(s.runs[r]) {
      var early: seq<Step> :| After(s, early) == between;
      SpentForever(s, early, r);
      SpentStaysSpent(between, DoSend(other), r);
      var rest: seq<Step> :| After(Next(between, DoSend(other)), rest) == late;
      SpentForever(Next(between, DoSend(other)), rest, r);
    }
  }

  // A run that may still send is brought to where it is ready without its lease; then another run comes first.

  lemma Onward(base: State, s: State, step: Step)
    requires Leads(base, s) && Reachable(s)
    ensures Leads(base, Next(s, step)) && Reachable(Next(s, step))
  {
    LeadsOn(base, s, step);
    NextIsReachable(s, step, Next(s, step));
  }

  lemma RunFacts(s: State, id: Id)
    requires Reachable(s) && id < |s.runs|
    ensures RunOk(s.manager, s.runs[id])
  {
    ReachableKeepsInv(s);
  }

  lemma LeaseFacts(s: State, step: Step, id: Id)
    requires Reachable(s) && HasId(s, id)
    ensures LeaseKept(s, Next(s, step), id)
    ensures Live(Next(s, step), id) <==> Live(s, id) && !TakesLease(s, step, id) && !Ends(s, step, id)
  {
    ReachableKeepsInv(s);
    LeaseEnds(s, step, id);
  }

  /** No step but the start of a run uses a number. */
  lemma NumbersKept(s: State, step: Step, org: Org, number: string)
    requires !step.DoStart? && !NumberUsed(s, org, number)
    ensures !NumberUsed(Next(s, step), org, number)
  {
    RunsNamed(s, step);
  }

  lemma RunsNamed(s: State, step: Step)
    requires !step.DoStart?
    ensures |Next(s, step).runs| == |s.runs|
    ensures forall i :: 0 <= i < |s.runs| ==>
              Next(s, step).runs[i].org == s.runs[i].org && Next(s, step).runs[i].number == s.runs[i].number
  {
  }

  /** On the way: the run is there, and the number still free. */
  ghost predicate OnTheWay(base: State, s: State, r: Id, number: string) {
    Leads(base, s) && Reachable(s) && r < |s.runs| && !NumberUsed(s, s.runs[r].org, number)
  }

  lemma WayOn(base: State, s: State, step: Step, r: Id, number: string)
    requires OnTheWay(base, s, r, number) && !step.DoStart?
    ensures OnTheWay(base, Next(s, step), r, number)
  {
    Onward(base, s, step);
    NumbersKept(s, step, s.runs[r].org, number);
    RunsNamed(s, step);
  }

  lemma AnswerSettles(s: State, r: Id)
    requires HasId(s, r) && s.runs[r].talking && s.runs[r].left > 1
    ensures var run, run' := s.runs[r], Next(s, DoAnswer(r, s.runs[r].left == REQUESTS)).runs[r];
            run' == run.(ready := false, talking := false, left := run.left - 1)
    ensures HasId(Next(s, DoAnswer(r, s.runs[r].left == REQUESTS)), r)
  {
  }

  lemma MakeReady(base: State, s: State, r: Id, number: string) returns (s': State)
    requires OnTheWay(base, s, r, number) && CanStillSend(s.runs[r])
    ensures OnTheWay(base, s', r, number) && Ready(s', r)
  {
    RunFacts(s, r);
    s' := s;
    if s'.runs[r].talking {
      AnswerSettles(s, r);
      WayOn(base, s', DoAnswer(r, s.runs[r].left == REQUESTS), r, number);
      s' := Next(s', DoAnswer(r, s.runs[r].left == REQUESTS));
    }
    if !s'.runs[r].ready {
      WayOn(base, s', DoCheck(r), r, number);
      s' := Next(s', DoCheck(r));
    }
  }

  /** Ready, and its lease is gone. */
  predicate Waits(s: State, r: Id) {
    Ready(s, r) && !Live(s, r)
  }

  lemma MarkAborted(s: State, r: Id)
    requires HasId(s, r) && s.runs[r].row.Open?
    ensures Next(s, DoMarkAborted(r)) == SetRun(s, r, s.runs[r].(row := Aborted))
  {
  }

  lemma LoseLease(base: State, s: State, r: Id, number: string) returns (s': State)
    requires OnTheWay(base, s, r, number) && Ready(s, r)
    ensures OnTheWay(base, s', r, number) && Waits(s', r)
  {
    s' := s;
    RunFacts(s', r);
    if Live(s', r) {
      if s'.runs[r].row.Open? {
        MarkAborted(s', r);
        WayOn(base, s', DoMarkAborted(r), r, number);
        s' := Next(s', DoMarkAborted(r));
      }
      s' := TakeLease(base, s', r, number);
    }
  }

  lemma TakeLease(base: State, s: State, r: Id, number: string) returns (s': State)
    requires OnTheWay(base, s, r, number) && Ready(s, r) && Live(s, r) && s.runs[r].row.Aborted?
    ensures OnTheWay(base, s', r, number) && Waits(s', r)
  {
    RunFacts(s, r);
    LeaseFacts(s, DoAbortBegin(r), r);
    ReadyStays(s, DoAbortBegin(r), r);
    WayOn(base, s, DoAbortBegin(r), r, number);
    s' := Next(s, DoAbortBegin(r));
  }

  lemma ReadyStays(s: State, step: Step, r: Id)
    requires Ready(s, r) && !s.runs[r].talking && step != DoSend(r) && step != DoDrop(r)
    ensures r < |Next(s, step).runs| && Next(s, step).runs[r].ready
  {
  }

  /** Nothing but its own send or a failed connection ends the waiting. */
  lemma WaitsOn(s: State, step: Step, r: Id)
    requires Reachable(s) && Waits(s, r) && step != DoSend(r) && step != DoDrop(r)
    ensures Waits(Next(s, step), r) && Next(s, step).runs[r].org == s.runs[r].org
  {
    LeaseFacts(s, step, r);
    RunFacts(s, r);
    ReadyStays(s, step, r);
  }

  lemma ReleaseFrees(s: State, token: M.Token)
    requires Reachable(s) && M.IsLive(s.manager, token)
    ensures s.manager.handles[token].org !in M.Release(s.manager, token).busy
  {
    ReachableKeepsInv(s);
  }

  lemma AbortEndFrees(m: M.State, org: Org)
    requires org in m.aborting
    ensures org !in M.AbortEnd(m, org).busy
  {
  }

  lemma BusyIsHeld(s: State, org: Org)
    requires Reachable(s) && org in s.manager.busy && org !in s.manager.aborting
    ensures org in s.manager.activeLeases
    ensures var token := s.manager.activeLeases[org].token;
            M.IsLive(s.manager, token) && s.manager.handles[token].org == org
  {
    ReachableKeepsInv(s);
  }

  /** Whoever holds the organisation lets go. */
  lemma FreeOrg(base: State, s: State, r: Id, number: string) returns (s': State)
    requires OnTheWay(base, s, r, number) && Waits(s, r)
    ensures OnTheWay(base, s', r, number) && Waits(s', r) && s'.runs[r].org !in s'.manager.busy
  {
    var org := s.runs[r].org;
    if org !in s.manager.busy {
      s' := s;
    } else if org in s.manager.aborting {
      AbortEndFrees(s.manager, org);
      WaitsOn(s, DoAbortEnd(org), r);
      WayOn(base, s, DoAbortEnd(org), r, number);
      s' := Next(s, DoAbortEnd(org));
    } else {
      BusyIsHeld(s, org);
      var token := s.manager.activeLeases[org].token;
      if HasRun(s, token) {
        var h :| 0 <= h < |s.runs| && s.runs[h].token == token;
        s' := EndHolder(base, s, r, h, number);
      } else {
        ReleaseFrees(s, token);
        WaitsOn(s, DoGiveUp(token), r);
        WayOn(base, s, DoGiveUp(token), r, number);
        s' := Next(s, DoGiveUp(token));
      }
    }
  }

  lemma SettlesIdle(s: State, h: Id, end: Step)
    requires HasId(s, h) && s.runs[h].ready != s.runs[h].talking
    requires end == if s.runs[h].talking then DoAnswer(h, false) else DoDrop(h)
    ensures Idle(Next(s, end), h) && Next(s, end).manager == s.manager
    ensures Next(s, end).runs[h].token == s.runs[h].token
  {
  }

  lemma EndHolder(base: State, s: State, r: Id, h: Id, number: string) returns (s': State)
    requires OnTheWay(base, s, r, number) && Waits(s, r)
    requires Live(s, h) && s.manager.handles[s.runs[h].token].org == s.runs[r].org
    ensures OnTheWay(base, s', r, number) && Waits(s', r) && s'.runs[r].org !in s'.manager.busy
  {
    RunFacts(s, h);
    s' := s;
    if !Idle(s, h) {
      var end := if s.runs[h].talking then DoAnswer(h, false) else DoDrop(h);
      SettlesIdle(s, h, end);
      WaitsOn(s, end, r);
      WayOn(base, s, end, r, number);
      s' := Next(s, end);
    }
    s' := FinishHolder(base, s', r, h, number);
  }

  lemma FinishHolder(base: State, s: State, r: Id, h: Id, number: string) returns (s': State)
    requires OnTheWay(base, s, r, number) && Waits(s, r) && Idle(s, h)
    requires Live(s, h) && s.manager.handles[s.runs[h].token].org == s.runs[r].org
    ensures OnTheWay(base, s', r, number) && Waits(s', r) && s'.runs[r].org !in s'.manager.busy
  {
    WaitsOn(s, DoFinish(h), r);
    ReleaseFrees(s, s.runs[h].token);
    WayOn(base, s, DoFinish(h), r, number);
    s' := Next(s, DoFinish(h));
  }

  lemma FreshLease(s: State, org: Org, number: string)
    requires Reachable(s) && org !in s.manager.busy && !NumberUsed(s, org, number)
    ensures var s' := Next(s, DoAcquire(M.Settings(org, true, Some(""))));
            && MayStart(s', |s.manager.handles|, number) && s'.runs == s.runs
            && s'.manager.handles[|s.manager.handles|].org == org
  {
    forall i | 0 <= i < |s.runs| ensures s.runs[i].token < |s.manager.handles| {
      RunFacts(s, i);
    }
  }

  lemma FreshRun(s: State, token: M.Token, number: string)
    requires MayStart(s, token, number)
    ensures var s' := Next(s, DoStart(token, number));
            MayCheck(s', |s.runs|) && s'.runs == s.runs + [NewRun(s.manager.handles[token].org, token, number)]
  {
  }

  lemma FreshCheck(s: State, id: Id)
    requires MayCheck(s, id)
    ensures Ready(Next(s, DoCheck(id)), id) && Next(s, DoCheck(id)).runs[id].org == s.runs[id].org
  {
  }

  /** Another request handler leases the terminal, and its run checks its row. */
  lemma Newcomer(base: State, s: State, r: Id, number: string) returns (s': State, other: Id)
    requires OnTheWay(base, s, r, number) && Waits(s, r) && s.runs[r].org !in s.manager.busy
    ensures Leads(base, s') && Reachable(s') && Waits(s', r) && Ready(s', other)
    ensures other != r && s'.runs[other].org == s'.runs[r].org
  {
    var org, token := s.runs[r].org, |s.manager.handles|;
    var lease := DoAcquire(M.Settings(org, true, Some("")));
    FreshLease(s, org, number);
    WaitsOn(s, lease, r);
    Onward(base, s, lease);
    var leased := Next(s, lease);
    s', other := StartAndCheck(base, leased, r, token, number);
  }

  lemma StartAndCheck(base: State, s: State, r: Id, token: M.Token, number: string) returns (s': State, other: Id)
    requires Leads(base, s) && Reachable(s) && Waits(s, r) && MayStart(s, token, number)
    requires s.manager.handles[token].org == s.runs[r].org
    ensures Leads(base, s') && Reachable(s') && Waits(s', r) && Ready(s', other)
    ensures other != r && s'.runs[other].org == s'.runs[r].org
  {
    other := |s.runs|;
    FreshRun(s, token, number);
    WaitsOn(s, DoStart(token, number), r);
    Onward(base, s, DoStart(token, number));
    var started := Next(s, DoStart(token, number));
    FreshCheck(started, other);
    WaitsOn(started, DoCheck(other), r);
    Onward(base, started, DoCheck(other));
    s' := Next(started, DoCheck(other));
  }

  lemma OneTalkerAt(s: State, i: Id, j: Id)
    requires Reachable(s) && HasId(s, i) && HasId(s, j) && s.runs[i].talking && s.runs[j].talking
    requires TerminalOf(s, i) == TerminalOf(s, j)
    ensures i == j
  {
    ReachableKeepsInv(s);
  }

  lemma AnswerClears(s: State, id: Id, j: Id)
    requires Reachable(s) && Ready(s, id) && !s.runs[id].talking && j < |s.runs| && s.runs[j].talking
    requires Holds(s.manager, s.runs[j], TerminalOf(s, id))
    ensures MaySend(Next(s, DoAnswer(j, false)), id)
  {
    var s' := Next(s, DoAnswer(j, false));
    forall i | 0 <= i < |s'.runs| && s'.runs[i].talking ensures !Holds(s'.manager, s'.runs[i], TerminalOf(s', id)) {
      assert i != j && s'.runs[i] == s.runs[i];
      if Holds(s.manager, s.runs[i], TerminalOf(s, id)) {
        OneTalkerAt(s, i, j);
      }
    }
  }

  /** Whoever talks at the terminal gets an answer. */
  lemma ClearTerminal(base: State, s: State, id: Id, r: Id) returns (s': State)
    requires Leads(base, s) && Reachable(s) && Waits(s, r) && Ready(s, id)
    ensures Leads(base, s') && Reachable(s') && Waits(s', r) && MaySend(s', id)
    ensures s'.runs[id].org == s.runs[id].org && s'.runs[r].org == s.runs[r].org
  {
    s' := s;
    if TerminalTaken(s, id) {
      var j :| 0 <= j < |s.runs| && s.runs[j].talking && Holds(s.manager, s.runs[j], TerminalOf(s, id));
      RunFacts(s, id);
      AnswerClears(s, id, j);
      WaitsOn(s, DoAnswer(j, false), r);
      Onward(base, s, DoAnswer(j, false));
      RunsNamed(s, DoAnswer(j, false));
      s' := Next(s, DoAnswer(j, false));
    }
  }

  lemma TakeTurns(s: State, connecting: State, r: Id, other: Id)
    requires Leads(s, connecting) && Reachable(connecting) && Waits(connecting, r) && Ready(connecting, other)
    requires other != r && connecting.runs[other].org == connecting.runs[r].org
    ensures MayBeInterleaved(s, r)
  {
    var between := ClearTerminal(s, connecting, other, r);
    var sent := Next(between, DoSend(other));
    WaitsOn(between, DoSend(other), r);
    NextIsReachable(between, DoSend(other), sent);
    LeadsToItself(sent);
    var late := ClearTerminal(sent, sent, r, r);
    assert Interleaves(s, r, other, between, late);
  }

  /** As long as a run may still send, an abort of it and a request of another run can come first; and only so long. */
  lemma ConversationsInterleave(s: State, r: Id, number: string)
    requires Reachable(s) && r < |s.runs| && !NumberUsed(s, s.runs[r].org, number)
    ensures MayBeInterleaved(s, r) <==> CanStillSend(s.runs[r])
  {
    if other, between, late :| Interleaves(s, r, other, between, late) {
      SpentNeverSends(s, r, other, between, late);
    }
    if CanStillSend(s.runs[r]) {
      LeadsToItself(s);
      var ready := MakeReady(s, s, r, number);
      var waiting := LoseLease(s, ready, r, number);
      var free := FreeOrg(s, waiting, r, number);
      var connecting, other := Newcomer(s, free, r, number);
      TakeTurns(s, connecting, r, other);
    }
  }

  // ----- two talkers are possible -----

  const Gate := M.Settings(1, true, Some("10.0.0.1"))

  /** The first lease of organisation 1, bound to operation 1. */
  const Leased := M.State(map[1 := 0], {1}, {}, map[1 := M.ActiveLease(0, None)], [M.Handle(1, 0, false)], map[],
                          multiset{}, 1)
  const Started := Leased.(activeLeases := map[1 := M.ActiveLease(0, Some("1"))])
  const First := NewRun(1, 0, "1")
  const Second := NewRun(1, 1, "2")

  /** Run 0 has its manager in the given state, announced as operation 1. */
  function Alone(m: M.State, run: Run, clean: set<M.Token>): State {
    State(m, [run], map[0 := "1"], clean, {})
  }

  lemma FirstTalks(m: M.State, started: M.State, clean: set<M.Token>)
    requires m.handles == [M.Handle(1, 0, false)] && m.activeLeases == map[1 := M.ActiveLease(0, None)]
    requires started == m.(activeLeases := map[1 := M.ActiveLease(0, Some("1"))])
    requires Reachable(State(m, [], map[], clean, {}))
    ensures Reachable(Alone(started, First.(talking := true), clean))
  {
    NextIsReachable(State(m, [], map[], clean, {}), DoStart(0, "1"), State(started, [First], map[], clean, {}));
    NextIsReachable(State(started, [First], map[], clean, {}), DoCheck(0),
                    Alone(started, First.(ready := true), clean));
    NextIsReachable(Alone(started, First.(ready := true), clean), DoSend(0),
                    Alone(started, First.(talking := true), clean));
  }

  /** The abort of the first run is over, and terminal 1 has taken the place of terminal 0. */
  const Freed := M.State(map[1 := 1], {}, {}, map[], [M.Handle(1, 0, false)], map[], multiset{}, 2)

  /** A second run talks at the new terminal. */
  const SecondStarted := Freed.(busy := {1}, activeLeases := map[1 := M.ActiveLease(1, Some("2"))],
                                handles := [M.Handle(1, 0, false), M.Handle(1, 1, false)])

  lemma SecondStarts(first: Run, active: map<M.Terminal, string>, clean: set<M.Token>)
    requires first.org == 1 && first.token == 0 && first.number == "1"
    requires Reachable(State(Freed, [first], active, clean, {}))
    ensures Reachable(State(SecondStarted, [first, Second], active, clean + {1}, {}))
  {
    var leased := SecondStarted.(activeLeases := map[1 := M.ActiveLease(1, None)]);
    var s := State(leased, [first], active, clean + {1}, {});
    NextIsReachable(State(Freed, [first], active, clean, {}), DoAcquire(Gate), s);
    NextIsReachable(s, DoStart(1, "2"), State(SecondStarted, [first, Second], active, clean + {1}, {}));
  }

  lemma SecondTalks(first: Run, active: map<M.Terminal, string>, clean: set<M.Token>)
    requires first.org == 1 && first.token == 0 && first.number == "1" && 1 !in active
    requires Reachable(State(Freed, [first], active, clean, {}))
    ensures Reachable(State(SecondStarted, [first, Second.(talking := true)], active[1 := "2"], clean + {1}, {}))
  {
    SecondStarts(first, active, clean);
    var started := State(SecondStarted, [first, Second], active, clean + {1}, {});
    var ready := started.(runs := [first, Second.(ready := true)], active := active[1 := "2"]);
    NextIsReachable(started, DoCheck(1), ready);
    NextIsReachable(ready, DoSend(1), ready.(runs := [first, Second.(talking := true)]));
  }

  // An abort that goes to another terminal.

  /** A lease acquired while the terminal was being replaced. */
  lemma LeasedInReload()
    ensures Reachable(State(Leased.(reloading := multiset{1}), [], map[], {}, {}))
  {
    assert Trace([Initial], []);
    var reloading := Initial.(manager := M.Initial.(reloading := multiset{1}));
    NextIsReachable(Initial, DoReload(1), reloading);
    NextIsReachable(reloading, DoAcquire(Gate), State(Leased.(reloading := multiset{1}), [], map[], {}, {}));
  }

  const Missed := First.(row := Aborted, talking := true, escaped := true)

  const Replaced := Started.(terminals := map[1 := 1], nextTerminal := 2)

  lemma TalksDuringReload()
    ensures Reachable(Alone(Replaced, Missed.(escaped := false), {}))
  {
    var reloading := Started.(reloading := multiset{1});
    LeasedInReload();
    FirstTalks(Leased.(reloading := multiset{1}), reloading, {});
    NextIsReachable(Alone(reloading, First.(talking := true), {}), DoReloadEnd(Gate),
                    Alone(Replaced, First.(talking := true), {}));
    NextIsReachable(Alone(Replaced, First.(talking := true), {}), DoMarkAborted(0),
                    Alone(Replaced, Missed.(escaped := false), {}));
  }

  lemma AbortGoesAstray()
    ensures Reachable(Alone(Freed, Missed, {}))
  {
    var aborting := Freed.(busy := {1}, aborting := map[1 := 0]);
    TalksDuringReload();
    assert Replaced.activeLeases - {1} == map[];
    NextIsReachable(Alone(Replaced, Missed.(escaped := false), {}), DoAbortBegin(0), Alone(aborting, Missed, {}));
    assert aborting.aborting - {1} == map[];
    NextIsReachable(Alone(aborting, Missed, {}), DoAbortEnd(1), Alone(Freed, Missed, {}));
  }

  /** After a lease during a reload two runs of one organisation can talk at once. */
  lemma TwoTalkersArePossible() returns (s: State)
    ensures Reachable(s) && |s.runs| == 2 && s.runs[0].org == s.runs[1].org
    ensures s.runs[0].talking && s.runs[1].talking && s.runs[0].escaped
    ensures s.runs[0].token !in s.clean
  {
    AbortGoesAstray();
    SecondTalks(Missed, map[0 := "1"], {});
    s := State(SecondStarted, [Missed, Second.(talking := true)], map[0 := "1", 1 := "2"], {1}, {});
  }

  // An abort that comes before the connect.

  /** The run has its VRP approved, and its row has read APPROVED for FIN. */
  const Connecting := First.(left := 3, ready := true)

  lemma FirstConnects()
    ensures Reachable(Alone(Started, Connecting, {0}))
  {
    assert Trace([Initial], []);
    NextIsReachable(Initial, DoAcquire(Gate), State(Leased, [], map[], {0}, {}));
    FirstTalks(Leased, Started, {0});
    NextIsReachable(Alone(Started, First.(talking := true), {0}), DoAnswer(0, true),
                    Alone(Started, First.(left := 3), {0}));
    NextIsReachable(Alone(Started, First.(left := 3), {0}), DoCheck(0), Alone(Started, Connecting, {0}));
  }

  const Late := Connecting.(row := Aborted, escaped := true)

  lemma AbortComesBeforeConnect()
    ensures Reachable(State(Freed, [Late], map[], {0}, {}))
  {
    FirstConnects();
    var marked := Connecting.(row := Aborted);
    var aborting := Started.(activeLeases := map[], aborting := map[1 := 0]);
    var freed := aborting.(busy := {}, aborting := map[]);
    var replacing := freed.(terminals := map[], reloading := multiset{1});
    NextIsReachable(Alone(Started, Connecting, {0}), DoMarkAborted(0), Alone(Started, marked, {0}));
    CutsTerminal(aborting, marked);
    assert aborting.aborting - {1} == map[];
    NextIsReachable(State(aborting, [Late], map[], {0}, {}), DoAbortEnd(1), State(freed, [Late], map[], {0}, {}));
    assert freed.terminals - {1} == map[];
    NextIsReachable(State(freed, [Late], map[], {0}, {}), DoReload(1), State(replacing, [Late], map[], {0}, {}));
    NextIsReachable(State(replacing, [Late], map[], {0}, {}), DoReloadEnd(Gate), State(Freed, [Late], map[], {0}, {}));
  }

  lemma CutsTerminal(aborting: M.State, marked: Run)
    requires aborting == Started.(activeLeases := map[], aborting := map[1 := 0])
    requires marked == Connecting.(row := Aborted) && Reachable(Alone(Started, marked, {0}))
    ensures Reachable(State(aborting, [Late], map[], {0}, {}))
  {
    var s := Alone(Started, marked, {0});
    assert Started.activeLeases - {1} == map[] && s.active - {0} == map[];
    assert Disconnect(Started, [marked], 0) == [marked];
    NextIsReachable(s, DoAbortBegin(0), State(aborting, [Late], map[], {0}, {}));
  }

  /** Clean leases do not help: the VRP of the second run goes out between VRP and FIN of the first, whose abort came
      after it had read its row for FIN, and both talk at once. */
  lemma CleanTalkersArePossible() returns (s: State)
    ensures Reachable(s) && |s.runs| == 2 && s.runs[0].org == s.runs[1].org
    ensures s.runs[0].talking && s.runs[1].talking && s.runs[0].left == 3 && s.runs[1].left == REQUESTS
    ensures s.runs[0].token in s.clean && s.runs[1].token in s.clean && s.disturbed == {}
  {
    AbortComesBeforeConnect();
    SecondTalks(Late, map[], {0});
    var second := Second.(talking := true);
    var before := State(SecondStarted, [Late, second], map[1 := "2"], {0, 1}, {});
    s := before.(runs := [Late.(ready := false, talking := true), second]);
    assert {0} + {1} == {0, 1};
    NextIsReachable(before, DoSend(0), s);
  }
}
