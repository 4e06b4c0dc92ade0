/** One LED board: display modes and their generations, the send queue, and the return-to-clock timer.
    Asynchronous methods are cut at their awaits; a frame carries the generation it was made for. */
module LedDisplay {
  import opened Wrappers

  datatype Mode = Clock | Payment
  datatype Frame = Frame(generation: nat, mode: Mode)
  datatype ClockRequest = ClockRequest(generation: nat, at: int)

  const MIN_CLOCK_INTERVAL := 1000

  datatype State = State(
    mode: Mode,
    generation: nat,
    timer: Option<nat>,                 // the generation the return-to-clock timer was set for
    queue: seq<Frame>,                  // frames waiting behind the one being sent
    sending: bool,
    lastClockRequest: Option<ClockRequest>,
    now: int,
    modes: seq<Mode>,                   // history: the mode of every generation
    started: seq<Frame>,                // history: frames whose sending has begun
    clockRequests: seq<ClockRequest>)   // history: clock requests let through

  predicate Initial(s: State) {
    s == State(Clock, 0, None, [], false, None, s.now, [Clock], [], [])
  }

  // ----- one atomic segment each -----

  predicate IsCurrent(s: State, mode: Mode, generation: nat) {
    s.mode == mode && s.generation == generation
  }

  function Enter(s: State, mode: Mode): State {
    s.(mode := mode, generation := s.generation + 1, timer := None, modes := s.modes + [mode])
  }

  /** A payment without a configured board gives way to the clock, if it is still the current mode. */
  function Discard(s: State, generation: nat): State {
    if IsCurrent(s, Payment, generation) then Enter(s, Clock) else s
  }

  /** The configuration of a payment screen has arrived; its frame queues up whatever happened meanwhile. */
  function SendPayment(s: State, generation: nat): State {
    if generation < |s.modes| && s.modes[generation].Payment?
    then s.(queue := s.queue + [Frame(generation, Payment)]) else s
  }

  predicate TooSoon(s: State, generation: nat, now: int) {
    && s.lastClockRequest.Some? && s.lastClockRequest.value.generation == generation
    && now - s.lastClockRequest.value.at < MIN_CLOCK_INTERVAL
  }

  /** The head of sendClock: at most one request a second for a generation. */
  function RequestClock(s: State, generation: nat, now: int): State {
    if !IsCurrent(s, Clock, generation) || TooSoon(s, generation, now) then s.(now := now)
    else
      var request := ClockRequest(generation, now);
      s.(now := now, lastClockRequest := Some(request), clockRequests := s.clockRequests + [request])
  }

  /** Its tail, once the configuration is known. */
  function SendClock(s: State, generation: nat): State {
    if IsCurrent(s, Clock, generation) then s.(queue := s.queue + [Frame(generation, Clock)]) else s
  }

  /** The queue reaches its next frame: it is sent only if its mode is still the current one. */
  function StartNext(s: State): State
    requires s.queue != []
  {
    var frame, rest := s.queue[0], s.(queue := s.queue[1..]);
    if IsCurrent(s, frame.mode, frame.generation) then rest.(sending := true, started := s.started + [frame]) else rest
  }

  function Schedule(s: State): State {
    s.(timer := Some(s.generation))
  }

  function FireTimer(s: State): State
    requires s.timer.Some?
  {
    var fired := s.(timer := None);
    if s.mode.Payment? && s.generation == s.timer.value then Enter(fired, Clock) else fired
  }

  datatype Step =
    | DoEnter(mode: Mode)
    | DoDiscard(generation: nat)
    | DoSendPayment(generation: nat)
    | DoRequestClock(generation: nat, now: int)
    | DoSendClock(generation: nat)
    | DoStartNext
    | DoSendFinished
    | DoSchedule
    | DoFireTimer

  function Next(s: State, step: Step): State {
    match step
    case DoEnter(mode) => Enter(s, mode)
    case DoDiscard(generation) => Discard(s, generation)
    case DoSendPayment(generation) => SendPayment(s, generation)
    case DoRequestClock(generation, now) => if s.now <= now then RequestClock(s, generation, now) else s
    case DoSendClock(generation) => SendClock(s, generation)
    case DoStartNext => if !s.sending && s.queue != [] then StartNext(s) else s
    case DoSendFinished => s.(sending := false)
    case DoSchedule => Schedule(s)
    case DoFireTimer => if s.timer.Some? then FireTimer(s) else s
  }

  // ----- what every interleaving keeps -----

  /** A frame shows the one mode its generation stands for. */
  predicate Made(f: Frame, modes: seq<Mode>) {
    f.generation < |modes| && modes[f.generation] == f.mode
  }

  ghost predicate ModesOk(modes: seq<Mode>, mode: Mode, generation: nat, timer: Option<nat>) {
    && |modes| == generation + 1 && modes[generation] == mode
    && (timer.Some? ==> timer.value == generation)
  }

  ghost predicate AllMade(frames: seq<Frame>, modes: seq<Mode>) {
    forall k :: 0 <= k < |frames| ==> Made(frames[k], modes)
  }

  ghost predicate InOrder(frames: seq<Frame>) {
    forall i, j :: 0 <= i < j < |frames| ==> frames[i].generation <= frames[j].generation
  }

  ghost predicate Dated(requests: seq<ClockRequest>, generation: nat, now: int) {
    forall k :: 0 <= k < |requests| ==> requests[k].generation <= generation && requests[k].at <= now
  }

  ghost predicate RateLimited(requests: seq<ClockRequest>) {
    forall i, j :: 0 <= i < j < |requests| ==>
      && requests[i].generation <= requests[j].generation
      && (requests[i].generation == requests[j].generation ==> requests[j].at - requests[i].at >= MIN_CLOCK_INTERVAL)
  }

  ghost predicate Inv(s: State) {
    && ModesOk(s.modes, s.mode, s.generation, s.timer)
    && AllMade(s.queue, s.modes) && AllMade(s.started, s.modes) && InOrder(s.started)
    && s.lastClockRequest == (if s.clockRequests == [] then None else Some(s.clockRequests[|s.clockRequests| - 1]))
    && Dated(s.clockRequests, s.generation, s.now) && RateLimited(s.clockRequests)
  }

  lemma EnterKeepsInv(s: State, mode: Mode)
    requires Inv(s)
    ensures Inv(Enter(s, mode))
  {
    assert AllMade(s.queue, s.modes + [mode]) && AllMade(s.started, s.modes + [mode]);
  }

  lemma RequestKeepsInv(s: State, generation: nat, now: int)
    requires Inv(s) && s.now <= now
    ensures Inv(RequestClock(s, generation, now))
  {
    if s.clockRequests != [] {
      var last := s.clockRequests[|s.clockRequests| - 1];
      assert forall i :: 0 <= i < |s.clockRequests| - 1 && s.clockRequests[i].generation == last.generation ==>
          last.at - s.clockRequests[i].at >= MIN_CLOCK_INTERVAL;
    }
  }

  lemma StartKeepsInv(s: State)
    requires Inv(s) && s.queue != []
    ensures Inv(StartNext(s))
  {
    var frame := s.queue[0];
    assert Made(frame, s.modes);
    forall k | 0 <= k < |s.started| ensures s.started[k].generation <= s.generation {
      assert Made(s.started[k], s.modes);
    }
  }

  lemma NextKeepsInv(s: State, step: Step)
    requires Inv(s)
    ensures Inv(Next(s, step))
  {
    match step
    case DoEnter(mode) => EnterKeepsInv(s, mode);
    case DoDiscard(_) => EnterKeepsInv(s, Clock);
    case DoFireTimer => EnterKeepsInv(s.(timer := None), Clock);
    case DoRequestClock(generation, now) => if s.now <= now { RequestKeepsInv(s, generation, now); }
    case DoStartNext => if s.queue != [] { StartKeepsInv(s); }
    case _ =>
  }

  // ----- whole runs -----

  /** A run written down state by state. */
  ghost predicate Trace(states: seq<State>, steps: seq<Step>) {
    && |states| == |steps| + 1 && Initial(states[0])
    && forall i {:trigger steps[i]} :: 0 <= i < |steps| ==> states[i + 1] == Next(states[i], steps[i])
  }

  lemma {:induction false} TraceKeepsInv(states: seq<State>, steps: seq<Step>, k: nat)
    requires Trace(states, steps) && k <= |steps|
    ensures Inv(states[k])
  {
    if k > 0 {
      TraceKeepsInv(states, steps, k - 1);
      NextKeepsInv(states[k - 1], steps[k - 1]);
    }
  }

  /** The history only grows. */
  predicate Grows(s: State, s': State) {
    s.generation <= s'.generation && s.modes <= s'.modes && s.started <= s'.started
  }

  lemma {:induction false} HistoryGrows(states: seq<State>, steps: seq<Step>, i: nat, j: nat)
    requires Trace(states, steps) && i <= j <= |steps|
    ensures Grows(states[i], states[j])
  {
    if i < j {
      HistoryGrows(states, steps, i, j - 1);
      assert Grows(states[j - 1], Next(states[j - 1], steps[j - 1]));
    }
  }

  /** In every run frames start in the order of their generations, and a generation shows one mode throughout. */
  lemma FramesNeverGoBack(states: seq<State>, steps: seq<Step>, k: nat, i: nat, j: nat)
    requires Trace(states, steps) && k <= |steps| && i < j < |states[k].started|
    ensures var started := states[k].started;
            && started[i].generation <= started[j].generation <= states[k].generation
            && (started[i].generation == started[j].generation ==> started[i].mode == started[j].mode)
  {
    TraceKeepsInv(states, steps, k);
    assert Made(states[k].started[i], states[k].modes) && Made(states[k].started[j], states[k].modes);
  }

  /** A frame that starts is of the mode on show, so no frame starts after its mode was superseded. */
  lemma SupersededNeverStarts(states: seq<State>, steps: seq<Step>, i: nat, j: nat)
    requires Trace(states, steps) && i <= j < |steps| && states[j + 1].started != states[j].started
    ensures var started := states[j + 1].started;
            && |started| == |states[j].started| + 1 && states[j].started <= started
            && var frame := started[|started| - 1];
            && IsCurrent(states[j], frame.mode, frame.generation) && states[i].generation <= frame.generation
  {
    HistoryGrows(states, steps, i, j);
    assert states[j + 1] == Next(states[j], steps[j]);
  }

  /** The timer pending at a state was set at an earlier step, and no mode was entered since. */
  ghost predicate SetSince(states: seq<State>, steps: seq<Step>, i: nat, j: nat)
    requires |states| == |steps| + 1
  {
    && i < j <= |steps| && steps[i] == DoSchedule
    && forall m :: i <= m <= j ==> states[m].generation == states[j].generation && states[m].modes == states[j].modes
  }

  lemma {:induction false} TimerWasSet(states: seq<State>, steps: seq<Step>, j: nat) returns (i: nat)
    requires Trace(states, steps) && j <= |steps| && states[j].timer.Some?
    ensures SetSince(states, steps, i, j)
  {
    assert j > 0;
    assert states[j] == Next(states[j - 1], steps[j - 1]);
    if steps[j - 1] == DoSchedule {
      i := j - 1;
    } else {
      i := TimerWasSet(states, steps, j - 1);
    }
  }

  /** A timer that fires was set under the very mode still on show, and it changes the mode exactly when that is
      a payment: no mode entered since is ever cut short, and the generation test of the callback never fails. */
  lemma TimerActsForItsMode(states: seq<State>, steps: seq<Step>, j: nat) returns (i: nat)
    requires Trace(states, steps) && j < |steps| && steps[j] == DoFireTimer && states[j].timer.Some?
    ensures SetSince(states, steps, i, j)
    ensures if states[j].mode.Payment?
            then states[j + 1].mode.Clock? && states[j + 1].generation == states[j].generation + 1
            else states[j + 1] == states[j].(timer := None)
  {
    TraceKeepsInv(states, steps, j);
    i := TimerWasSet(states, steps, j);
    assert states[j + 1] == Next(states[j], steps[j]);
  }

  /** In every run the clock is requested at most once a second within a generation. */
  lemma ClockIsRateLimited(states: seq<State>, steps: seq<Step>, k: nat, i: nat, j: nat)
    requires Trace(states, steps) && k <= |steps| && i < j < |states[k].clockRequests|
    ensures var requests := states[k].clockRequests;
            requests[i].generation == requests[j].generation ==> requests[j].at - requests[i].at >= MIN_CLOCK_INTERVAL
  {
    TraceKeepsInv(states, steps, k);
  }

  // ----- the runtime object -----

  /** A request for the clock goes through exactly for the clock on show, a second or more after the last one for it. */
  lemma ClockRequestOutcome(s: State, generation: nat, at: int)
    requires Inv(s) && s.now <= at
    ensures var s' := Next(s, DoRequestClock(generation, at));
            && Inv(s')
            && if s.mode == Clock && s.generation == generation
                  && !(s.lastClockRequest.Some? && s.lastClockRequest.value.generation == generation
                       && at - s.lastClockRequest.value.at < 1000)
               then s' == s.(now := at, lastClockRequest := Some(ClockRequest(generation, at)),
                             clockRequests := s.clockRequests + [ClockRequest(generation, at)])
               else s' == s.(now := at)
  {
    NextKeepsInv(s, DoRequestClock(generation, at));
  }

  class LedRuntime {
    var state: Mode
    var modeGeneration: nat
    var returnToClockTimer: Option<nat>
    var sendQueue: seq<Frame>
    var sending: bool
    var lastClockRequest: Option<ClockRequest>
    ghost var now: int
    ghost var modes: seq<Mode>
    ghost var started: seq<Frame>
    ghost var clockRequests: seq<ClockRequest>

    ghost function Model(): State
      reads this
    {
      State(state, modeGeneration, returnToClockTimer, sendQueue, sending, lastClockRequest, now,
            modes, started, clockRequests)
    }

    ghost predicate Valid()
      reads this
    {
      Inv(Model())
    }

    constructor (ghost at: int)
      ensures Valid() && Initial(Model()) && now == at
    {
      state, modeGeneration, returnToClockTimer, sendQueue, sending := Clock, 0, None, [], false;
      lastClockRequest := None;
      now, modes, started, clockRequests := at, [Clock], [], [];
    }

    method EnterMode(mode: Mode) returns (generation: nat)
      requires Valid()
      modifies this`state, this`modeGeneration, this`returnToClockTimer, this`modes
      ensures Valid() && Model() == Next(old(Model()), DoEnter(mode))
      ensures generation == modeGeneration == old(modeGeneration) + 1 && state == mode
      ensures returnToClockTimer == None && modes == old(modes) + [mode]
    {
      NextKeepsInv(Model(), DoEnter(mode));
      returnToClockTimer := None;
      modeGeneration := modeGeneration + 1;
      state := mode;
      modes := modes + [mode];
      generation := modeGeneration;
    }

    method DiscardUnconfiguredPayment(generation: nat)
      requires Valid()
      modifies this`state, this`modeGeneration, this`returnToClockTimer, this`modes
      ensures Valid() && Model() == Next(old(Model()), DoDiscard(generation))
      ensures if old(state) == Payment && old(modeGeneration) == generation
              then state == Clock && modeGeneration == generation + 1 && returnToClockTimer == None
              else state == old(state) && modeGeneration == old(modeGeneration)
                   && returnToClockTimer == old(returnToClockTimer)
    {
      if state != Payment || modeGeneration != generation {
        return;
      }
      var next := EnterMode(Clock);
    }

    method QueuePayment(generation: nat)
      requires Valid() && generation < |modes| && modes[generation] == Payment
      modifies this`sendQueue
      ensures Valid() && Model() == Next(old(Model()), DoSendPayment(generation))
      ensures sendQueue == old(sendQueue) + [Frame(generation, Payment)]
    {
      sendQueue := sendQueue + [Frame(generation, Payment)];
    }

    method BeginClock(generation: nat, at: int) returns (goOn: bool)
      requires Valid() && now <= at
      modifies this`lastClockRequest, this`now, this`clockRequests
      ensures Valid() && Model() == Next(old(Model()), DoRequestClock(generation, at))
      ensures goOn <==>
                && state == Clock && modeGeneration == generation
                && !(old(lastClockRequest).Some? && old(lastClockRequest).value.generation == generation
                     && at - old(lastClockRequest).value.at < 1000)
      ensures lastClockRequest == if goOn then Some(ClockRequest(generation, at)) else old(lastClockRequest)
      ensures clockRequests == old(clockRequests) + if goOn then [ClockRequest(generation, at)] else []
    {
      ClockRequestOutcome(Model(), generation, at);
      now := at;
      if state != Clock || modeGeneration != generation {
        return false;
      }
      if lastClockRequest.Some? && lastClockRequest.value.generation == generation
         && at - lastClockRequest.value.at < MIN_CLOCK_INTERVAL {
        return false;
      }
      lastClockRequest := Some(ClockRequest(generation, at));
      clockRequests := clockRequests + [ClockRequest(generation, at)];
      goOn := true;
    }

    method QueueClock(generation: nat) returns (queued: bool)
      requires Valid()
      modifies this`sendQueue
      ensures Valid() && Model() == Next(old(Model()), DoSendClock(generation))
      ensures queued <==> state == Clock && modeGeneration == generation
      ensures sendQueue == old(sendQueue) + if queued then [Frame(generation, Clock)] else []
    {
      queued := state == Clock && modeGeneration == generation;
      if queued {
        sendQueue := sendQueue + [Frame(generation, Clock)];
      }
    }

    method SendNext() returns (sent: bool)
      requires Valid() && !sending && sendQueue != []
      modifies this`sendQueue, this`sending, this`started
      ensures Valid() && Model() == Next(old(Model()), DoStartNext)
      ensures sendQueue == old(sendQueue)[1..]
      ensures sent == sending
      ensures sent <==> state == old(sendQueue)[0].mode && modeGeneration == old(sendQueue)[0].generation
      ensures started == old(started) + if sent then [old(sendQueue)[0]] else []
    {
      NextKeepsInv(Model(), DoStartNext);
      var frame := sendQueue[0];
      sendQueue := sendQueue[1..];
      sent := state == frame.mode && modeGeneration == frame.generation;
      if sent {
        sending := true;
        started := started + [frame];
      }
    }

    method SendFinished()
      requires Valid() && sending
      modifies this`sending
      ensures Valid() && Model() == Next(old(Model()), DoSendFinished)
    {
      sending := false;
    }

    method ScheduleReturnToClock()
      requires Valid()
      modifies this`returnToClockTimer
      ensures Valid() && Model() == Next(old(Model()), DoSchedule)
      ensures returnToClockTimer == Some(modeGeneration)
    {
      returnToClockTimer := Some(modeGeneration);
    }

    method ReturnToClock() returns (entered: bool)
      requires Valid() && returnToClockTimer.Some?
      modifies this`state, this`modeGeneration, this`returnToClockTimer, this`modes
      ensures Valid() && Model() == Next(old(Model()), DoFireTimer)
      ensures entered <==> old(state) == Payment
      ensures state == Clock && modeGeneration == old(modeGeneration) + (if entered then 1 else 0)
      ensures returnToClockTimer == None
    {
      var generation := returnToClockTimer.value;
      returnToClockTimer := None;
      entered := state.Payment? && modeGeneration == generation;
      if entered {
        var next := EnterMode(Clock);
      }
    }
  }
}
