/** Per-organisation mutual exclusion on card terminals: leases, aborts and deferred reloads.
    Each asynchronous operation is cut at its awaits; what is suspended is part of the state. */
module TerminalManager {
  import opened Wrappers

  type Org = nat
  type Token = nat
  type Terminal = nat // the identity of a terminal connection object

  datatype Settings = Settings(org: Org, enabled: bool, ip: Option<string>)
  datatype ActiveLease = ActiveLease(token: Token, operationNumber: Option<string>)

  /** A lease as its holder sees it; the active entry may long belong to somebody else. */
  datatype Handle = Handle(org: Org, terminal: Terminal, released: bool)

  datatype Refusal = NotEnabled | Busy | NoAddress

  datatype State = State(
    terminals: map<Org, Terminal>,
    busy: set<Org>,
    pendingReloads: set<Org>,
    activeLeases: map<Org, ActiveLease>,
    handles: seq<Handle>,                // every lease ever granted, by token
    aborting: map<Org, Token>,           // aborts suspended while the terminal disconnects
    reloading: multiset<Org>,            // reloads suspended between dropping and installing a terminal
    nextTerminal: Terminal)

  const Initial := State(map[], {}, {}, map[], [], map[], multiset{}, 0)

  // ----- one atomic segment each -----

  function Acquire(s: State, settings: Settings): (State, Result<Token, Refusal>) {
    var org := settings.org;
    if !settings.enabled then (s, Err(NotEnabled))
    else if org in s.busy then (s, Err(Busy))
    else if org !in s.terminals && settings.ip.None? then (s, Err(NoAddress))
    else
      var s' := if org in s.terminals then s else Install(s, org);
      var token := |s.handles|;
      (s'.(busy := s.busy + {org},
           activeLeases := s.activeLeases[org := ActiveLease(token, None)],
           handles := s.handles + [Handle(org, s'.terminals[org], false)]),
       Ok(token))
  }

  function Install(s: State, org: Org): State {
    s.(terminals := s.terminals[org := s.nextTerminal], nextTerminal := s.nextTerminal + 1)
  }

  predicate IsLive(s: State, token: Token) {
    && token < |s.handles|
    && s.handles[token].org in s.activeLeases
    && s.activeLeases[s.handles[token].org].token == token
  }

  function Bind(s: State, token: Token, operationNumber: string): State {
    if IsLive(s, token)
    then s.(activeLeases := s.activeLeases[s.handles[token].org := ActiveLease(token, Some(operationNumber))])
    else s
  }

  function ReloadBegin(s: State, org: Org): State {
    if org in s.busy then s.(pendingReloads := s.pendingReloads + {org})
    else s.(terminals := s.terminals - {org}, reloading := s.reloading + multiset{org})
  }

  /** Ends the busy period of an organisation; a reload asked for meanwhile starts now. */
  function FreeOrg(s: State, org: Org): State {
    var s' := s.(busy := s.busy - {org}, pendingReloads := s.pendingReloads - {org});
    if org in s.pendingReloads then ReloadBegin(s', org) else s'
  }

  function Release(s: State, token: Token): State
    requires token < |s.handles|
  {
    var handle := s.handles[token];
    if handle.released then s
    else
      var s' := s.(handles := s.handles[token := handle.(released := true)]);
      if IsLive(s, token) then FreeOrg(s'.(activeLeases := s.activeLeases - {handle.org}), handle.org) else s'
  }

  predicate AbortApplies(s: State, org: Org, operationNumber: string) {
    org in s.activeLeases && s.activeLeases[org].operationNumber == Some(operationNumber)
  }

  function AbortBegin(s: State, org: Org, operationNumber: string): State {
    if AbortApplies(s, org, operationNumber)
    then s.(activeLeases := s.activeLeases - {org}, aborting := s.aborting[org := s.activeLeases[org].token])
    else s
  }

  function AbortEnd(s: State, org: Org): State {
    if org in s.aborting then FreeOrg(s.(aborting := s.aborting - {org}), org) else s
  }

  function ReloadEnd(s: State, settings: Settings): State {
    if s.reloading[settings.org] == 0 then s
    else
      var s' := s.(reloading := s.reloading - multiset{settings.org});
      if settings.enabled && settings.ip.Some? then Install(s', settings.org) else s'
  }

  datatype Step =
    | DoAcquire(settings: Settings)
    | DoBind(token: Token, operationNumber: string)
    | DoRelease(token: Token)
    | DoAbortBegin(org: Org, operationNumber: string)
    | DoAbortEnd(org: Org)
    | DoReload(org: Org)
    | DoReloadEnd(settings: Settings)

  function Next(s: State, step: Step): State {
    match step
    case DoAcquire(settings) => Acquire(s, settings).0
    case DoBind(token, number) => Bind(s, token, number)
    case DoRelease(token) => if token < |s.handles| then Release(s, token) else s
    case DoAbortBegin(org, number) => AbortBegin(s, org, number)
    case DoAbortEnd(org) => AbortEnd(s, org)
    case DoReload(org) => ReloadBegin(s, org)
    case DoReloadEnd(settings) => ReloadEnd(s, settings)
  }

  function Run(s: State, steps: seq<Step>): State {
    if steps == [] then s else Next(Run(s, steps[..|steps| - 1]), steps[|steps| - 1])
  }

  // ----- what every interleaving keeps -----

  /** Who an organisation is busy for: its live lease, or the lease whose abort is still under way. */
  function Holder(s: State, org: Org): Option<Token> {
    if org in s.activeLeases then Some(s.activeLeases[org].token)
    else if org in s.aborting then Some(s.aborting[org])
    else None
  }

  ghost predicate Consistent(s: State) {
    && (forall org: Org :: org in s.busy <==> org in s.activeLeases || org in s.aborting)
    && (forall org: Org :: org in s.activeLeases ==> org !in s.aborting)
    && s.pendingReloads <= s.busy
    && (forall org: Org :: org in s.activeLeases ==>
          var token := s.activeLeases[org].token;
          token < |s.handles| && s.handles[token].org == org && !s.handles[token].released)
    && (forall org: Org :: org in s.aborting ==>
          s.aborting[org] < |s.handles| && s.handles[s.aborting[org]].org == org)
    && (forall org: Org :: org in s.terminals ==> s.terminals[org] < s.nextTerminal)
    && (forall token :: 0 <= token < |s.handles| ==> s.handles[token].terminal < s.nextTerminal)
  }

  lemma AcquireKeepsConsistent(s: State, settings: Settings)
    requires Consistent(s)
    ensures Consistent(Acquire(s, settings).0)
  {
  }

  lemma FreeKeepsConsistent(s: State, org: Org)
    requires Consistent(s.(busy := s.busy - {org}, pendingReloads := s.pendingReloads - {org}))
    ensures Consistent(FreeOrg(s, org))
  {
  }

  lemma ReleaseKeepsConsistent(s: State, token: Token)
    requires Consistent(s) && token < |s.handles|
    ensures Consistent(Release(s, token))
  {
    var org := s.handles[token].org;
    var handles := s.handles[token := s.handles[token].(released := true)];
    if IsLive(s, token) {
      FreeKeepsConsistent(s.(handles := handles, activeLeases := s.activeLeases - {org}), org);
    }
  }

  lemma AbortKeepsConsistent(s: State, org: Org, operationNumber: string)
    requires Consistent(s)
    ensures Consistent(AbortBegin(s, org, operationNumber))
    ensures Consistent(AbortEnd(s, org))
  {
    if org in s.aborting {
      FreeKeepsConsistent(s.(aborting := s.aborting - {org}), org);
    }
  }

  lemma BindKeepsConsistent(s: State, token: Token, operationNumber: string)
    requires Consistent(s)
    ensures Consistent(Bind(s, token, operationNumber))
  {
  }

  lemma ReloadKeepsConsistent(s: State, settings: Settings)
    requires Consistent(s)
    ensures Consistent(ReloadBegin(s, settings.org))
    ensures Consistent(ReloadEnd(s, settings))
  {
  }

  lemma NextKeepsConsistent(s: State, step: Step)
    requires Consistent(s)
    ensures Consistent(Next(s, step))
  {
    match step
    case DoAcquire(settings) => AcquireKeepsConsistent(s, settings);
    case DoBind(token, number) => BindKeepsConsistent(s, token, number);
    case DoRelease(token) => if token < |s.handles| { ReleaseKeepsConsistent(s, token); }
    case DoAbortBegin(org, number) => AbortKeepsConsistent(s, org, number);
    case DoAbortEnd(org) => AbortKeepsConsistent(s, org, "");
    case DoReload(org) => ReloadKeepsConsistent(s, Settings(org, false, None));
    case DoReloadEnd(settings) => ReloadKeepsConsistent(s, settings);
  }

  lemma {:induction false} RunIsConsistent(steps: seq<Step>)
    ensures Consistent(Run(Initial, steps))
  {
    if steps != [] {
      RunIsConsistent(steps[..|steps| - 1]);
      NextKeepsConsistent(Run(Initial, steps[..|steps| - 1]), steps[|steps| - 1]);
    }
  }

  // ----- what each operation does -----

  /** Everything but the given organisation stays as it is. */
  ghost predicate OnlyOrg(s: State, s': State, org: Org) {
    && s'.terminals - {org} == s.terminals - {org} && s'.busy - {org} == s.busy - {org}
    && s'.pendingReloads - {org} == s.pendingReloads - {org} && s'.activeLeases - {org} == s.activeLeases - {org}
    && s'.aborting - {org} == s.aborting - {org}
    && forall other: Org :: other != org ==> s'.reloading[other] == s.reloading[other]
  }

  /** A lease is refused exactly if card payments are switched off, the organisation is busy, or there is neither a
      terminal nor an address for one; otherwise the newcomer holds the registered terminal, or a new one. */
  lemma AcquireOutcome(s: State, settings: Settings)
    requires Consistent(s)
    ensures var (s', r), org := Acquire(s, settings), settings.org;
            if !settings.enabled then r == Err(NotEnabled) && s' == s
            else if org in s.busy then r == Err(Busy) && s' == s
            else if org !in s.terminals && settings.ip == None then r == Err(NoAddress) && s' == s
            else
              && r == Ok(|s.handles|) && OnlyOrg(s, s', org)
              && org in s'.busy && org !in s'.pendingReloads && org !in s'.aborting && org in s'.terminals
              && (if org in s.terminals then s'.terminals[org] == s.terminals[org] && s'.nextTerminal == s.nextTerminal
                  else s'.terminals[org] == s.nextTerminal < s'.nextTerminal)
              && s'.handles == s.handles + [Handle(org, s'.terminals[org], false)]
              && org in s'.activeLeases && s'.activeLeases[org] == ActiveLease(|s.handles|, None)
              && s'.reloading == s.reloading
  {
  }

  /** A live lease carries the number of its operation; a dead one binds nothing. */
  lemma BindOutcome(s: State, token: Token, number: string)
    ensures var s' := Bind(s, token, number);
            if IsLive(s, token) then
              && s' == s.(activeLeases := s'.activeLeases) && s'.activeLeases.Keys == s.activeLeases.Keys
              && forall org: Org :: org in s.activeLeases ==>
                   s'.activeLeases[org] == if s.activeLeases[org].token == token && s.handles[token].org == org
                                           then ActiveLease(token, Some(number)) else s.activeLeases[org]
            else s' == s
  {
  }

  /** The organisation is free again; a reload that was asked for meanwhile drops its terminal at once. */
  ghost predicate IsFreed(s: State, s': State, org: Org) {
    && OnlyOrg(s, s', org) && org !in s'.busy && org !in s'.pendingReloads
    && org !in s'.activeLeases && org !in s'.aborting && s'.nextTerminal == s.nextTerminal
    && if org in s.pendingReloads then org !in s'.terminals && s'.reloading[org] == s.reloading[org] + 1
       else s'.terminals == s.terminals && s'.reloading == s.reloading
  }

  lemma ReleaseOutcome(s: State, token: Token)
    requires Consistent(s) && token < |s.handles|
    ensures var s', h := Release(s, token), s.handles[token];
            && s'.handles == s.handles[token := Handle(h.org, h.terminal, true)]
            && if !h.released && IsLive(s, token) then IsFreed(s, s', h.org) else s' == s.(handles := s'.handles)
  {
    assert s.handles[token := s.handles[token]] == s.handles;
  }

  /** An abort takes away exactly the lease that carries its number, and keeps the organisation busy until it is
      over. */
  lemma AbortOutcome(s: State, org: Org, number: string)
    requires Consistent(s)
    ensures var s' := AbortBegin(s, org, number);
            if org in s.activeLeases && s.activeLeases[org].operationNumber == Some(number) then
              && s' == s.(activeLeases := s'.activeLeases, aborting := s'.aborting) && OnlyOrg(s, s', org)
              && org !in s'.activeLeases && org in s'.aborting && s'.aborting[org] == s.activeLeases[org].token
            else s' == s
    ensures var s' := AbortEnd(s, org);
            if org in s.aborting then IsFreed(s, s', org) && s'.handles == s.handles else s' == s
  {
  }

  /** A reload waits while the organisation is busy, and otherwise drops its terminal; when it is over, a new terminal
      is registered if there is to be one. */
  lemma ReloadOutcome(s: State, org: Org, settings: Settings)
    ensures var s' := ReloadBegin(s, org);
            if org in s.busy then s' == s.(pendingReloads := s.pendingReloads + {org})
            else
              && s' == s.(terminals := s'.terminals, reloading := s'.reloading) && OnlyOrg(s, s', org)
              && org !in s'.terminals && s'.reloading[org] == s.reloading[org] + 1
    ensures var s', o := ReloadEnd(s, settings), settings.org;
            if s.reloading[o] == 0 then s' == s
            else
              && s' == s.(terminals := s'.terminals, reloading := s'.reloading, nextTerminal := s'.nextTerminal)
              && OnlyOrg(s, s', o) && s'.reloading[o] == s.reloading[o] - 1
              && if settings.enabled && settings.ip != None
                 then o in s'.terminals && s'.terminals[o] == s.nextTerminal < s'.nextTerminal
                 else s'.terminals == s.terminals && s'.nextTerminal == s.nextTerminal
  {
  }

  // ----- mutual exclusion over whole runs -----

  datatype Event = Granted(org: Org, token: Token) | Freed(org: Org, token: Token)

  /** What a step does to the lock of an organisation, as seen from outside. */
  function Observed(s: State, step: Step): seq<Event> {
    var s' := Next(s, step);
    match step
    case DoAcquire(settings) =>
      var result := Acquire(s, settings).1;
      if result.Ok? then [Granted(settings.org, result.value)] else []
    case DoRelease(token) =>
      if token < |s.handles| && s.handles[token].org in s.busy - s'.busy then [Freed(s.handles[token].org, token)]
      else []
    case DoAbortEnd(org) =>
      if org in s.busy - s'.busy && org in s.aborting then [Freed(org, s.aborting[org])] else []
    case _ => []
  }

  function History(steps: seq<Step>): seq<Event> {
    if steps == [] then []
    else
      var earlier := steps[..|steps| - 1];
      History(earlier) + Observed(Run(Initial, earlier), steps[|steps| - 1])
  }

  datatype Lock = Free | Held(token: Token) | Violated

  /** A lock automaton: it accepts a grant only when free and a release only from its holder. */
  function LockAfter(history: seq<Event>, org: Org): Lock {
    if history == [] then Lock.Free
    else LockStep(LockAfter(history[..|history| - 1], org), history[|history| - 1], org)
  }

  function LockStep(lock: Lock, event: Event, org: Org): Lock {
    if event.org != org then lock
    else
      match event
      case Granted(_, token) => if lock == Lock.Free then Held(token) else Violated
      case Freed(_, token) => if lock == Held(token) then Lock.Free else Violated
  }

  function LockOf(holder: Option<Token>): Lock {
    if holder.Some? then Held(holder.value) else Lock.Free
  }

  lemma ReleaseFollowsLock(s: State, token: Token, org: Org)
    requires Consistent(s) && token < |s.handles|
    ensures Holder(Release(s, token), org) ==
              if org == s.handles[token].org && IsLive(s, token) then None else Holder(s, org)
    ensures s.handles[token].org in s.busy - Release(s, token).busy <==> IsLive(s, token)
  {
  }

  lemma AbortEndFollowsLock(s: State, aborted: Org, org: Org)
    requires Consistent(s)
    ensures Holder(AbortEnd(s, aborted), org) == if org == aborted && org in s.aborting then None else Holder(s, org)
    ensures aborted in s.busy - AbortEnd(s, aborted).busy <==> aborted in s.aborting
  {
  }

  lemma AcquireFollowsLock(s: State, settings: Settings, org: Org)
    requires Consistent(s)
    ensures var (s', result) := Acquire(s, settings);
            && (result.Err? ==> Holder(s', org) == Holder(s, org))
            && (result.Ok? ==> Holder(s, settings.org).None?)
            && (result.Ok? ==> Holder(s', org) == if org == settings.org then Some(result.value) else Holder(s, org))
  {
  }

  lemma ObservedFollowsLock(s: State, step: Step, org: Org)
    requires Consistent(s)
    ensures |Observed(s, step)| <= 1
    ensures Observed(s, step) == [] ==> Holder(Next(s, step), org) == Holder(s, org)
    ensures Observed(s, step) != [] ==>
              LockStep(LockOf(Holder(s, org)), Observed(s, step)[0], org) == LockOf(Holder(Next(s, step), org))
  {
    match step
    case DoAcquire(settings) => AcquireFollowsLock(s, settings, org);
    case DoRelease(token) => if token < |s.handles| { ReleaseFollowsLock(s, token, org); }
    case DoAbortEnd(aborted) => AbortEndFollowsLock(s, aborted, org);
    case _ =>
  }

  /** In every interleaving each organisation is granted to one lease at a time,
      and freed only on behalf of the lease that holds it. */
  lemma {:induction false} LeasesExclude(steps: seq<Step>, org: Org)
    ensures LockAfter(History(steps), org) == LockOf(Holder(Run(Initial, steps), org))
    ensures LockAfter(History(steps), org) != Violated
  {
    if steps != [] {
      var earlier, step := steps[..|steps| - 1], steps[|steps| - 1];
      var s := Run(Initial, earlier);
      LeasesExclude(earlier, org);
      RunIsConsistent(earlier);
      ObservedFollowsLock(s, step, org);
      var seen := Observed(s, step);
      if seen == [] {
        assert History(steps) == History(earlier);
      } else {
        assert History(steps)[..|History(steps)| - 1] == History(earlier);
      }
    }
  }

  /** A release that is repeated, or comes after an abort, touches nobody else's lease. */
  lemma StaleReleaseIsHarmless(s: State, token: Token)
    requires Consistent(s) && token < |s.handles| && (s.handles[token].released || !IsLive(s, token))
    ensures Release(s, token) == s.(handles := s.handles[token := s.handles[token].(released := true)])
  {
    if s.handles[token].released {
      assert s.handles[token := s.handles[token]] == s.handles;
    }
  }

  lemma ReleaseStartsReload(s: State, token: Token, org: Org)
    requires Consistent(s) && token < |s.handles| && org in s.pendingReloads
    ensures var s' := Release(s, token);
            if org in s'.busy then org in s'.pendingReloads
            else org !in s'.terminals && s'.reloading[org] == s.reloading[org] + 1
  {
  }

  /** A reload that had to wait starts as soon as the organisation is freed. */
  lemma DeferredReloadStarts(s: State, step: Step, org: Org)
    requires Consistent(s) && org in s.pendingReloads
    ensures var s' := Next(s, step);
            if org in s'.busy then org in s'.pendingReloads
            else org !in s'.terminals && s'.reloading[org] == s.reloading[org] + 1
  {
    match step
    case DoRelease(token) => if token < |s.handles| { ReleaseStartsReload(s, token, org); }
    case _ =>
  }

  // ----- which terminal a lease talks to -----

  /** The live lease holds the registered terminal and no reload is about to replace it. */
  predicate OwnsRegistered(s: State, token: Token) {
    && IsLive(s, token)
    && var org := s.handles[token].org;
    && org in s.terminals && s.terminals[org] == s.handles[token].terminal && s.reloading[org] == 0
  }

  lemma FreeingLeavesOwner(s: State, token: Token, other: Token, org: Org)
    requires Consistent(s) && OwnsRegistered(s, token)
    ensures other < |s.handles| && IsLive(Release(s, other), token) ==> OwnsRegistered(Release(s, other), token)
    ensures IsLive(AbortEnd(s, org), token) ==> OwnsRegistered(AbortEnd(s, org), token)
  {
  }

  /** An acquire outside a reload window owns the registered terminal for as long as it lives. */
  lemma OwnershipLasts(s: State, token: Token, step: Step)
    requires Consistent(s) && OwnsRegistered(s, token)
    ensures IsLive(Next(s, step), token) ==> OwnsRegistered(Next(s, step), token)
  {
    match step
    case DoRelease(other) => FreeingLeavesOwner(s, token, other, 0);
    case DoAbortEnd(org) => FreeingLeavesOwner(s, token, 0, org);
    case _ =>
  }

  lemma AcquireRevivesNobody(s: State, token: Token, settings: Settings)
    requires token < |s.handles| && !IsLive(s, token)
    ensures token < |Acquire(s, settings).0.handles| && !IsLive(Acquire(s, settings).0, token)
  {
  }

  lemma FreeingRevivesNobody(s: State, token: Token, other: Token, org: Org)
    requires token < |s.handles| && !IsLive(s, token)
    ensures other < |s.handles| ==> token < |Release(s, other).handles| && !IsLive(Release(s, other), token)
    ensures token < |AbortEnd(s, org).handles| && !IsLive(AbortEnd(s, org), token)
  {
  }

  lemma DeadStaysDead(s: State, token: Token, step: Step)
    requires Consistent(s) && token < |s.handles| && !IsLive(s, token)
    ensures token < |Next(s, step).handles| && !IsLive(Next(s, step), token)
  {
    match step
    case DoAcquire(settings) => AcquireRevivesNobody(s, token, settings);
    case DoRelease(other) => FreeingRevivesNobody(s, token, other, 0);
    case DoAbortEnd(org) => FreeingRevivesNobody(s, token, 0, org);
    case _ =>
  }

  lemma HandlesGrow(s: State, step: Step)
    requires Consistent(s)
    ensures |s.handles| <= |Next(s, step).handles|
  {
  }

  lemma {:induction false} OwnershipOverRuns(s: State, token: Token, steps: seq<Step>)
    requires Consistent(s) && OwnsRegistered(s, token)
    ensures Consistent(Run(s, steps)) && token < |Run(s, steps).handles|
    ensures IsLive(Run(s, steps), token) ==> OwnsRegistered(Run(s, steps), token)
  {
    if steps != [] {
      var earlier, step := steps[..|steps| - 1], steps[|steps| - 1];
      OwnershipOverRuns(s, token, earlier);
      var before := Run(s, earlier);
      NextKeepsConsistent(before, step);
      HandlesGrow(before, step);
      if IsLive(before, token) {
        OwnershipLasts(before, token, step);
      } else {
        DeadStaysDead(before, token, step);
      }
    }
  }

  /** Whatever happens, while the lease lives it holds the terminal registered for its organisation. */
  ghost predicate HoldsRegisteredForLife(s: State, token: Token) {
    forall steps: seq<Step> :: HoldsRegistered(Run(s, steps), token)
  }

  predicate HoldsRegistered(s: State, token: Token) {
    IsLive(s, token) ==>
      && s.handles[token].org in s.terminals
      && s.terminals[s.handles[token].org] == s.handles[token].terminal
  }

  /** The end of a reload registers another terminal under a live lease. */
  lemma ReloadReplaces(s: State, token: Token)
    requires Consistent(s) && IsLive(s, token) && s.reloading[s.handles[token].org] > 0
    ensures !HoldsRegisteredForLife(s, token)
  {
    var steps := [DoReloadEnd(Settings(s.handles[token].org, true, Some("")))];
    assert steps[..0] == [];
    assert Run(s, steps) == Next(s, steps[0]);
    assert !HoldsRegistered(Run(s, steps), token);
  }

  /** A new lease holds the registered terminal for life exactly when no reload was in flight when it was acquired. */
  lemma AcquireAndTerminal(s: State, settings: Settings)
    requires Consistent(s) && Acquire(s, settings).1.Ok?
    ensures var (s', result) := Acquire(s, settings);
            && IsLive(s', result.value)
            && (HoldsRegisteredForLife(s', result.value) <==> s.reloading[settings.org] == 0)
  {
    var (s', result) := Acquire(s, settings);
    var token := result.value;
    AcquireKeepsConsistent(s, settings);
    if s.reloading[settings.org] == 0 {
      forall steps: seq<Step> ensures HoldsRegistered(Run(s', steps), token) {
        OwnershipOverRuns(s', token, steps);
      }
    } else {
      ReloadReplaces(s', token);
    }
  }

  // ----- the manager object -----

  class PaymentTerminalManager {
    var terminals: map<Org, Terminal>
    var busyOrganizations: set<Org>
    var pendingReloads: set<Org>
    var activeLeases: map<Org, ActiveLease>
    var handles: seq<Handle>
    var aborting: map<Org, Token>
    var reloading: multiset<Org>
    var nextTerminal: Terminal

    ghost function Model(): State
      reads this
    {
      State(terminals, busyOrganizations, pendingReloads, activeLeases, handles, aborting, reloading, nextTerminal)
    }

    ghost predicate Valid()
      reads this
    {
      Consistent(Model())
    }

    constructor ()
      ensures Valid() && Model() == Initial
    {
      terminals, busyOrganizations, pendingReloads, activeLeases := map[], {}, {}, map[];
      handles, aborting, reloading, nextTerminal := [], map[], multiset{}, 0;
    }

    method AcquireConfigured(settings: Settings) returns (lease: Result<Token, Refusal>)
      requires Valid()
      modifies this
      ensures Valid() && (Model(), lease) == Acquire(old(Model()), settings)
    {
      NextKeepsConsistent(Model(), DoAcquire(settings));
      var orgId := settings.org;
      if !settings.enabled {
        return Err(NotEnabled);
      }
      if orgId in busyOrganizations {
        return Err(Busy);
      }
      if orgId !in terminals {
        if settings.ip.None? {
          return Err(NoAddress);
        }
        CreateTerminal(orgId);
      }
      busyOrganizations := busyOrganizations + {orgId};
      var token := |handles|;
      activeLeases := activeLeases[orgId := ActiveLease(token, None)];
      handles := handles + [Handle(orgId, terminals[orgId], false)];
      lease := Ok(token);
    }

    method CreateTerminal(orgId: Org)
      modifies this`terminals, this`nextTerminal
      ensures Model() == Install(old(Model()), orgId)
    {
      terminals := terminals[orgId := nextTerminal];
      nextTerminal := nextTerminal + 1;
    }

    method BindOperation(token: Token, operationNumber: string)
      requires Valid() && token < |handles|
      modifies this
      ensures Valid() && Model() == Bind(old(Model()), token, operationNumber)
    {
      NextKeepsConsistent(Model(), DoBind(token, operationNumber));
      var orgId := handles[token].org;
      if orgId in activeLeases && activeLeases[orgId].token == token {
        activeLeases := activeLeases[orgId := activeLeases[orgId].(operationNumber := Some(operationNumber))];
      }
    }

    method ReleaseLease(token: Token)
      requires Valid() && token < |handles|
      modifies this
      ensures Valid() && Model() == Release(old(Model()), token)
    {
      NextKeepsConsistent(Model(), DoRelease(token));
      if handles[token].released {
        return;
      }
      handles := handles[token := handles[token].(released := true)];
      var orgId := handles[token].org;
      if orgId !in activeLeases || activeLeases[orgId].token != token {
        return;
      }
      activeLeases := activeLeases - {orgId};
      FreeOrganization(orgId);
    }

    /** The end of a release, and of an abort. */
    method FreeOrganization(orgId: Org)
      modifies this
      ensures Model() == FreeOrg(old(Model()), orgId)
    {
      busyOrganizations := busyOrganizations - {orgId};
      if orgId in pendingReloads {
        pendingReloads := pendingReloads - {orgId};
        ReloadTerminal(orgId);
      } else {
        assert pendingReloads - {orgId} == pendingReloads;
      }
    }

    /** Up to the first await of a reload. */
    method ReloadTerminal(orgId: Org)
      modifies this
      ensures Model() == ReloadBegin(old(Model()), orgId)
    {
      if orgId in busyOrganizations {
        pendingReloads := pendingReloads + {orgId};
        return;
      }
      terminals := terminals - {orgId};
      reloading := reloading + multiset{orgId};
    }

    /** After both awaits: the old terminal is gone and the settings have been read. */
    method ReloadConfigured(settings: Settings)
      requires Valid() && reloading[settings.org] > 0
      modifies this
      ensures Valid() && Model() == ReloadEnd(old(Model()), settings)
    {
      NextKeepsConsistent(Model(), DoReloadEnd(settings));
      reloading := reloading - multiset{settings.org};
      if !settings.enabled || settings.ip.None? {
        return;
      }
      CreateTerminal(settings.org);
    }

    /** Up to the await: the lease ends here, the busy mark stays. */
    method AbortPendingPayment(orgId: Org, operationNumber: string) returns (target: Option<Terminal>)
      requires Valid()
      modifies this
      ensures Valid() && Model() == AbortBegin(old(Model()), orgId, operationNumber)
      ensures AbortApplies(old(Model()), orgId, operationNumber) ==>
                && var token := old(activeLeases[orgId].token);
                && (old(OwnsRegistered(Model(), token)) ==> target == Some(old(handles[token].terminal)))
    {
      NextKeepsConsistent(Model(), DoAbortBegin(orgId, operationNumber));
      target := None;
      if orgId !in activeLeases || activeLeases[orgId].operationNumber != Some(operationNumber) {
        return;
      }
      if orgId in terminals {
        target := Some(terminals[orgId]);
      }
      aborting := aborting[orgId := activeLeases[orgId].token];
      activeLeases := activeLeases - {orgId};
    }

    /** After the await, whether or not the terminal's own abort failed. */
    method AbortFinished(orgId: Org)
      requires Valid() && orgId in aborting
      modifies this
      ensures Valid() && Model() == AbortEnd(old(Model()), orgId)
    {
      NextKeepsConsistent(Model(), DoAbortEnd(orgId));
      aborting := aborting - {orgId};
      FreeOrganization(orgId);
    }
  }
}
