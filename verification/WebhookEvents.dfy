/** Registration of camera events: same-direction duplicates, and echoes of the opposite camera of a shared lane.
    Times are integer milliseconds. */
module WebhookEvents {
  import opened Wrappers
  import opened EditDistance

  type Id = nat
  type Org = nat

  datatype Direction = Entry | Exit

  /** processing_result, as far as registration tells values apart. */
  datatype Outcome =
    | Unset
    | DuplicateSameDirection | OppositeCameraEcho | SharedLaneConflict | PlateFormatWaiting | PlateFormatReceived
    | OtherResult

  datatype Event = Event(
    org: Org,
    plate: Option<string>,
    direction: Direction,
    cameraAt: Option<int>,
    createdAt: int,
    outcome: Outcome)

  datatype Lane = Lane(shared: bool, configuredGuard: Option<int>)

  datatype Registration =
    | Accepted
    | SameDirectionDuplicate
    | Echo(first: Id, delta: int)
    | Conflict(first: Id, delta: int)

  const DEDUPE_WINDOW := 10_000
  const MAX_SKEW := 300_000
  const DEFAULT_GUARD := 90

  predicate Suppressed(outcome: Outcome) {
    outcome != Unset && outcome != OtherResult
  }

  function Opposite(d: Direction): Direction {
    if d.Entry? then Exit else Entry
  }

  function Abs(x: int): nat {
    if x < 0 then -x else x
  }

  // ----- event time -----

  /** The camera's clock counts only while it is within the allowed skew of the server's. */
  function SafeTime(cameraAt: Option<int>, createdAt: int): (t: int)
    ensures Abs(t - createdAt) <= MAX_SKEW
    ensures cameraAt.Some? && Abs(cameraAt.value - createdAt) <= MAX_SKEW ==> t == cameraAt.value
  {
    if cameraAt.Some? && Abs(cameraAt.value - createdAt) <= MAX_SKEW then cameraAt.value else createdAt
  }

  /** Milliseconds from previous to current; server time decides when the cameras disagree on the order. */
  function Delta(previous: Event, current: Event): Option<int> {
    var byCamera := SafeTime(current.cameraAt, current.createdAt) - SafeTime(previous.cameraAt, previous.createdAt);
    var delta := if byCamera < 0 then current.createdAt - previous.createdAt else byCamera;
    if delta < 0 then None else Some(delta)
  }

  function Guard(lane: Lane): (g: int)
    ensures 5_000 <= g <= 300_000
  {
    1000 * if lane.configuredGuard.Some? && 5 <= lane.configuredGuard.value <= 300
           then lane.configuredGuard.value else DEFAULT_GUARD
  }

  predicate WithinGuard(previous: Event, current: Event, lane: Lane) {
    Delta(previous, current).Some? && Delta(previous, current).value <= Guard(lane)
  }

  /** The coarse window of the query, counted back from the moment it runs: the guard and twice the skew. */
  predicate InWindow(previous: Event, lane: Lane, now: int) {
    previous.createdAt >= now - (Guard(lane) + 2 * MAX_SKEW)
  }

  ghost predicate WindowHidesNothing(lane: Lane, delay: nat) {
    forall previous, current :: WithinGuard(previous, current, lane) ==>
      InWindow(previous, lane, current.createdAt + delay)
  }

  /** The window hides no event that the guard would catch exactly if the query runs at the stamp of the new event:
      with any delay between the two, the clocks of the cameras can differ so much that one is missed. */
  lemma WindowNeedsPromptQuery(lane: Lane, delay: nat)
    ensures WindowHidesNothing(lane, delay) <==> delay == 0
  {
    var previous := Event(0, None, Entry, Some(MAX_SKEW), 0, Unset);
    var at := Guard(lane) + 2 * MAX_SKEW;
    var current := Event(0, None, Exit, Some(at - MAX_SKEW), at, Unset);
    assert WithinGuard(previous, current, lane);
    assert InWindow(previous, lane, current.createdAt + delay) <==> delay == 0;
  }

  // ----- plates -----

  predicate PlausiblePlate(s: string) {
    5 <= |s| <= 20 && forall k :: 0 <= k < |s| ==> 'A' <= s[k] <= 'Z' || '0' <= s[k] <= '9'
  }

  predicate EndsWith(longer: string, shorter: string) {
    |shorter| <= |longer| && longer[|longer| - |shorter|..] == shorter
  }

  function Longer(left: string, right: string): string {
    if |left| >= |right| then left else right
  }

  function Shorter(left: string, right: string): string {
    if |left| >= |right| then right else left
  }

  predicate MissingLeadingCharacters(left: string, right: string) {
    && 1 <= |Longer(left, right)| - |Shorter(left, right)| <= 2
    && EndsWith(Longer(left, right), Shorter(left, right))
  }

  predicate NearPlate(left: string, right: string) {
    && PlausiblePlate(left) && PlausiblePlate(right) && left != right
    && (Levenshtein(left, right) == 1 || MissingLeadingCharacters(left, right))
  }

  /** Near plates are one or two edits apart: exactly as many as the lost characters, when some are lost. */
  lemma NearPlatesAreClose(left: string, right: string)
    requires NearPlate(left, right)
    ensures 1 <= Levenshtein(left, right) <= 2
    ensures MissingLeadingCharacters(left, right) ==>
              Levenshtein(left, right) == |Longer(left, right)| - |Shorter(left, right)|
    ensures NearPlate(right, left)
  {
    LevenshteinIsMetric(left, right, right);
    if MissingLeadingCharacters(left, right) {
      var long, short := Longer(left, right), Shorter(left, right);
      var n := |long| - |short|;
      assert Lev(long, short, n, 0) == n;
      assert long[n..n + |short|] == short[0..0 + |short|];
      LevCommonSuffix(long, short, n, 0, |short|);
      LevBounds(long, short, |long|, |short|);
      LevenshteinIsMetric(long, short, short);
    }
  }

  // ----- registration -----

  ghost predicate Ordered(events: seq<Event>) {
    forall i, j :: 0 <= i < j < |events| ==> events[i].createdAt <= events[j].createdAt
  }

  predicate HasPlate(e: Event) {
    e.plate.Some? && e.plate.value != ""
  }

  /** The same organisation, direction and plate. */
  predicate SameKey(a: Event, b: Event) {
    a.org == b.org && a.direction == b.direction && HasPlate(a) && a.plate == b.plate
  }

  /** Counted back from the moment the query runs, not from the stamp of the new event. */
  predicate SameDirection(previous: Event, current: Event, now: int) {
    && !Suppressed(previous.outcome) && SameKey(previous, current)
    && previous.createdAt >= now - DEDUPE_WINDOW
  }

  /** An opposite event of the same organisation close enough in time to be the same car, and found by the query. */
  predicate OppositeNow(previous: Event, current: Event, lane: Lane, now: int) {
    && !Suppressed(previous.outcome) && previous.org == current.org
    && previous.direction == Opposite(current.direction)
    && InWindow(previous, lane, now) && WithinGuard(previous, current, lane)
  }

  predicate EchoOf(previous: Event, current: Event, lane: Lane, now: int) {
    lane.shared && HasPlate(current) && OppositeNow(previous, current, lane, now) && previous.plate == current.plate
  }

  predicate ConflictWith(previous: Event, current: Event, lane: Lane, now: int) {
    && lane.shared && HasPlate(current) && OppositeNow(previous, current, lane, now)
    && previous.plate.Some? && NearPlate(previous.plate.value, current.plate.value)
  }

  /** The last event satisfying p. */
  function LastSuch(events: seq<Event>, p: Event -> bool): (r: Option<Id>)
    ensures r.Some? ==> r.value < |events| && p(events[r.value])
    ensures r.Some? ==> forall k :: r.value < k < |events| ==> !p(events[k])
    ensures r.None? ==> forall k :: 0 <= k < |events| ==> !p(events[k])
  {
    if events == [] then None
    else if p(events[|events| - 1]) then Some(|events| - 1)
    else LastSuch(events[..|events| - 1], p)
  }

  /** When the two queries of a registration run. */
  datatype Clock = Clock(same: int, opposite: int)

  predicate ClockOk(event: Event, clock: Clock) {
    event.createdAt <= clock.same <= clock.opposite
  }

  /** What the opposite camera makes of a new event. */
  function ClassifyOpposite(events: seq<Event>, current: Event, lane: Lane, now: int): Registration {
    var echo := LastSuch(events, (e: Event) => EchoOf(e, current, lane, now));
    if echo.Some? then Echo(echo.value, Delta(events[echo.value], current).value)
    else
      var conflict := LastSuch(events, (e: Event) => ConflictWith(e, current, lane, now));
      if conflict.Some? then Conflict(conflict.value, Delta(events[conflict.value], current).value)
      else Accepted
  }

  /** What a new event means, looking at the whole history. */
  function Classify(events: seq<Event>, current: Event, lane: Lane, clock: Clock): Registration {
    if LastSuch(events, (e: Event) => SameDirection(e, current, clock.same)).Some? then SameDirectionDuplicate
    else ClassifyOpposite(events, current, lane, clock.opposite)
  }

  // ----- what a registration means -----

  /** When an event happened: by the camera's clock if that is within five minutes of the server's, else by the
      latter. */
  function HappenedAt(e: Event): int {
    match e.cameraAt
    case Some(at) => if -300_000 <= at - e.createdAt <= 300_000 then at else e.createdAt
    case None => e.createdAt
  }

  /** A delta is the time between the two happenings; cameras that disagree on the order are overruled by the server. */
  lemma DeltaMeans(previous: Event, current: Event)
    ensures var gap, stamps := HappenedAt(current) - HappenedAt(previous), current.createdAt - previous.createdAt;
            Delta(previous, current) == if gap >= 0 then Some(gap) else if stamps >= 0 then Some(stamps) else None
  {
  }

  /** The guard of a lane in milliseconds: what is configured if that is sensible, else a minute and a half. */
  lemma GuardMeans(lane: Lane)
    ensures match lane.configuredGuard
            case Some(seconds) => Guard(lane) == if 5 <= seconds <= 300 then 1000 * seconds else 90_000
            case None => Guard(lane) == 90_000
  {
  }

  /** Near plates: one edit apart, or the longer one has one or two more characters in front. */
  lemma NearPlateMeans(left: string, right: string)
    ensures NearPlate(left, right) <==>
              && 5 <= |left| <= 20 && 5 <= |right| <= 20
              && (forall k :: 0 <= k < |left| ==> 'A' <= left[k] <= 'Z' || '0' <= left[k] <= '9')
              && (forall k :: 0 <= k < |right| ==> 'A' <= right[k] <= 'Z' || '0' <= right[k] <= '9')
              && left != right
              && (Levenshtein(left, right) == 1 || LosesFront(left, right) || LosesFront(right, left))
  {
    LosesFrontMeans(left, right);
  }

  predicate LosesFront(longer: string, shorter: string) {
    || (|longer| >= 1 && shorter == longer[1..])
    || (|longer| >= 2 && shorter == longer[2..])
  }

  lemma LosesFrontMeans(left: string, right: string)
    ensures MissingLeadingCharacters(left, right) <==> LosesFront(left, right) || LosesFront(right, left)
  {
    if |left| >= |right| {
      OneLosesFront(left, right);
    } else {
      OneLosesFront(right, left);
    }
  }

  lemma OneLosesFront(longer: string, shorter: string)
    requires |shorter| <= |longer|
    ensures 1 <= |longer| - |shorter| <= 2 && EndsWith(longer, shorter) <==> LosesFront(longer, shorter)
  {
    var n := |longer| - |shorter|;
    if LosesFront(longer, shorter) {
      assert n == 1 || n == 2;
      assert shorter == longer[n..];
    } else if n == 1 {
      assert longer[n..] == longer[1..];
    } else if n == 2 {
      assert longer[n..] == longer[2..];
    }
  }

  /** An event whose outcome still lets it hold back others. */
  predicate Counts(e: Event) {
    e.outcome == Unset || e.outcome == OtherResult
  }

  /** The same plate in the same direction within ten seconds of the query. */
  predicate Repeats(e: Event, current: Event, now: int) {
    && Counts(e) && e.org == current.org && e.direction == current.direction
    && current.plate.Some? && current.plate.value != "" && e.plate == current.plate && now - e.createdAt <= 10_000
  }

  /** The other direction of a shared lane, recorded early enough, and near enough in time to be the same passage. */
  predicate SamePassage(e: Event, current: Event, lane: Lane, now: int) {
    && lane.shared && current.plate.Some? && current.plate.value != ""
    && Counts(e) && e.org == current.org && e.direction != current.direction
    && now - e.createdAt <= Guard(lane) + 600_000
    && match Delta(e, current)
       case Some(delta) => delta <= Guard(lane)
       case None => false
  }

  predicate Echoes(e: Event, current: Event, lane: Lane, now: int) {
    SamePassage(e, current, lane, now) && e.plate == current.plate
  }

  predicate Conflicts(e: Event, current: Event, lane: Lane, now: int) {
    SamePassage(e, current, lane, now) && e.plate.Some? && NearPlate(e.plate.value, current.plate.value)
  }

  ghost predicate IsLast(events: seq<Event>, p: Event -> bool, k: Id) {
    k < |events| && p(events[k]) && forall j :: k < j < |events| ==> !p(events[j])
  }

  /** A repetition is a duplicate; else the last event of the same plate from the other direction makes it an echo; else
      the last one of a near plate makes it a conflict; else it is accepted. */
  lemma ClassifyMeans(events: seq<Event>, current: Event, lane: Lane, clock: Clock)
    ensures var r := Classify(events, current, lane, clock);
            var echoes := (e: Event) => Echoes(e, current, lane, clock.opposite);
            var conflicts := (e: Event) => Conflicts(e, current, lane, clock.opposite);
            if exists k :: 0 <= k < |events| && Repeats(events[k], current, clock.same) then r == SameDirectionDuplicate
            else if exists k :: 0 <= k < |events| && echoes(events[k]) then
              exists k: Id :: IsLast(events, echoes, k) && Some(r) == EchoAt(events, current, k)
            else if exists k :: 0 <= k < |events| && conflicts(events[k]) then
              exists k: Id :: IsLast(events, conflicts, k) && Some(r) == ConflictAt(events, current, k)
            else r == Accepted
  {
    var same := LastSuch(events, (e: Event) => SameDirection(e, current, clock.same));
    forall e ensures SameDirection(e, current, clock.same) <==> Repeats(e, current, clock.same) {
    }
    if same.None? {
      ClassifyOppositeMeans(events, current, lane, clock.opposite);
    }
  }

  function EchoAt(events: seq<Event>, current: Event, k: Id): Option<Registration>
    requires k < |events|
  {
    match Delta(events[k], current)
    case Some(delta) => Some(Echo(k, delta))
    case None => None
  }

  function ConflictAt(events: seq<Event>, current: Event, k: Id): Option<Registration>
    requires k < |events|
  {
    match Delta(events[k], current)
    case Some(delta) => Some(Conflict(k, delta))
    case None => None
  }

  lemma ClassifyOppositeMeans(events: seq<Event>, current: Event, lane: Lane, now: int)
    ensures var r := ClassifyOpposite(events, current, lane, now);
            var echoes := (e: Event) => Echoes(e, current, lane, now);
            var conflicts := (e: Event) => Conflicts(e, current, lane, now);
            if exists k :: 0 <= k < |events| && echoes(events[k]) then
              exists k: Id :: IsLast(events, echoes, k) && Some(r) == EchoAt(events, current, k)
            else if exists k :: 0 <= k < |events| && conflicts(events[k]) then
              exists k: Id :: IsLast(events, conflicts, k) && Some(r) == ConflictAt(events, current, k)
            else r == Accepted
  {
    forall e ensures EchoOf(e, current, lane, now) <==> Echoes(e, current, lane, now) {
    }
    forall e ensures ConflictWith(e, current, lane, now) <==> Conflicts(e, current, lane, now) {
    }
    var echoes := (e: Event) => Echoes(e, current, lane, now);
    var conflicts := (e: Event) => Conflicts(e, current, lane, now);
    var echo := LastSuch(events, (e: Event) => EchoOf(e, current, lane, now));
    if echo.Some? {
      assert IsLast(events, echoes, echo.value);
    } else {
      var conflict := LastSuch(events, (e: Event) => ConflictWith(e, current, lane, now));
      if conflict.Some? {
        assert IsLast(events, conflicts, conflict.value);
      }
    }
  }

  function OutcomeOf(r: Registration): Outcome {
    match r
    case Accepted => Unset
    case SameDirectionDuplicate => DuplicateSameDirection
    case Echo(_, _) => OppositeCameraEcho
    case Conflict(_, _) => SharedLaneConflict
  }

  /** events: the table; asked: when each was looked up among the earlier ones (an audit row at its stamp);
      accepted: the registrations that went through; muted: those whose outcome was later set to a suppressed one. */
  datatype State = State(events: seq<Event>, asked: seq<int>, accepted: set<Id>, muted: set<Id>)

  function Register(s: State, event: Event, lane: Lane, clock: Clock): State {
    var r := Classify(s.events, event, lane, clock);
    State(s.events + [event.(outcome := OutcomeOf(r))],
          s.asked + [clock.same],
          if r.Accepted? then s.accepted + {|s.events|} else s.accepted,
          s.muted)
  }

  function UpdateOutcome(s: State, id: Id, outcome: Outcome): State {
    if id >= |s.events| then s
    else s.(events := s.events[id := s.events[id].(outcome := outcome)],
            muted := if Suppressed(outcome) then s.muted + {id} else s.muted)
  }

  datatype Step =
    | DoRegister(event: Event, lane: Lane, clock: Clock)
    | DoUpdateOutcome(id: Id, outcome: Outcome)
    | DoAudit(event: Event) // an event row recorded without registration

  /** Rows are stamped by the server clock, which does not go back; the queries run after the stamp. */
  predicate Timely(s: State, step: Step) {
    && (step.DoRegister? || step.DoAudit? ==>
          forall k :: 0 <= k < |s.events| ==> s.events[k].createdAt <= step.event.createdAt)
    && (step.DoRegister? ==> ClockOk(step.event, step.clock))
  }

  function Next(s: State, step: Step): State {
    match step
    case DoRegister(event, lane, clock) => Register(s, event, lane, clock)
    case DoUpdateOutcome(id, outcome) => UpdateOutcome(s, id, outcome)
    case DoAudit(event) => s.(events := s.events + [event], asked := s.asked + [event.createdAt])
  }

  ghost predicate Inv(s: State) {
    && Ordered(s.events) && |s.asked| == |s.events|
    && (forall id :: id in s.accepted || id in s.muted ==> id < |s.events|)
    && (forall id :: id in s.accepted && id !in s.muted ==> !Suppressed(s.events[id].outcome))
    && (forall i, j :: i in s.accepted && j in s.accepted && i < j && i !in s.muted
                       && SameKey(s.events[i], s.events[j]) ==>
          s.asked[j] - s.events[i].createdAt > DEDUPE_WINDOW)
  }

  const Initial := State([], [], {}, {})

  lemma RegisterKeepsInv(s: State, event: Event, lane: Lane, clock: Clock)
    requires Inv(s) && Timely(s, DoRegister(event, lane, clock))
    ensures Inv(Register(s, event, lane, clock))
  {
    var same := LastSuch(s.events, (e: Event) => SameDirection(e, event, clock.same));
    if same.None? {
      assert forall k :: 0 <= k < |s.events| ==> !SameDirection(s.events[k], event, clock.same);
    }
  }

  lemma NextKeepsInv(s: State, step: Step)
    requires Inv(s) && Timely(s, step)
    ensures Inv(Next(s, step))
  {
    if step.DoRegister? {
      RegisterKeepsInv(s, step.event, step.lane, step.clock);
    }
  }

  ghost predicate TimelyRun(steps: seq<Step>) {
    steps != [] ==>
      var earlier := steps[..|steps| - 1];
      TimelyRun(earlier) && Timely(Run(earlier), steps[|steps| - 1])
  }

  function Run(steps: seq<Step>): State {
    if steps == [] then Initial else Next(Run(steps[..|steps| - 1]), steps[|steps| - 1])
  }

  lemma {:induction false} RunKeepsInv(steps: seq<Step>)
    requires TimelyRun(steps)
    ensures Inv(Run(steps))
  {
    if steps != [] {
      RunKeepsInv(steps[..|steps| - 1]);
      NextKeepsInv(Run(steps[..|steps| - 1]), steps[|steps| - 1]);
    }
  }

  /** Over any run an accepted registration was looked up more than ten seconds after the stamp of every earlier
      accepted one of its plate and direction, provided the earlier one was never given a suppressed outcome. */
  lemma AcceptedAreApart(steps: seq<Step>, i: Id, j: Id)
    requires TimelyRun(steps)
    requires var s := Run(steps); i in s.accepted && j in s.accepted && i < j && i !in s.muted
    requires i < |Run(steps).events| && j < |Run(steps).events| && SameKey(Run(steps).events[i], Run(steps).events[j])
    ensures j < |Run(steps).asked| && Run(steps).asked[j] - Run(steps).events[i].createdAt > DEDUPE_WINDOW
  {
    RunKeepsInv(steps);
  }

  /** Every accepted registration was looked up more than ten seconds after the earlier ones of its plate and
      direction. */
  ghost predicate AllApart(s: State)
    requires |s.asked| == |s.events|
  {
    forall i, j :: i in s.accepted && j in s.accepted && i < j < |s.events| && SameKey(s.events[i], s.events[j]) ==>
      s.asked[j] - s.events[i].createdAt > DEDUPE_WINDOW
  }

  predicate Recent(events: seq<Event>, k: Id, current: Event, now: int) {
    k < |events| && SameKey(events[k], current) && events[k].createdAt >= now - DEDUPE_WINDOW
  }

  /** Exactly when a registration breaks that gap: an accepted event of its key is recent, every recent event of
      its key has been given a suppressed outcome, and the opposite camera does not hold it back. */
  lemma GapBreaksExactlyWhen(s: State, event: Event, lane: Lane, clock: Clock)
    requires Inv(s) && Timely(s, DoRegister(event, lane, clock)) && AllApart(s)
    ensures AllApart(Register(s, event, lane, clock)) <==>
            !(&& (exists i :: i in s.accepted && Recent(s.events, i, event, clock.same))
              && (forall k :: 0 <= k < |s.events| && Recent(s.events, k, event, clock.same) ==>
                    Suppressed(s.events[k].outcome))
              && (forall k :: 0 <= k < |s.events| ==>
                    && !EchoOf(s.events[k], event, lane, clock.opposite)
                    && !ConflictWith(s.events[k], event, lane, clock.opposite)))
  {
    var s', n := Register(s, event, lane, clock), |s.events|;
    assert forall k :: 0 <= k < n ==>
        (SameDirection(s.events[k], event, clock.same) <==>
           Recent(s.events, k, event, clock.same) && !Suppressed(s.events[k].outcome));
    var held := Classify(s.events, event, lane, clock);
    if held.Accepted? && exists i :: i in s.accepted && Recent(s.events, i, event, clock.same) {
      var i :| i in s.accepted && Recent(s.events, i, event, clock.same);
      assert s'.events[i] == s.events[i] && SameKey(s'.events[i], s'.events[n]);
      assert !AllApart(s');
    }
  }

  /** The stamps themselves can be ten seconds apart or less: the repetition of an event that is stamped at the very end
      of the window is accepted exactly if its query runs later than its stamp. */
  lemma DelayNarrowsTheGap(event: Event, lane: Lane, delay: nat)
    requires HasPlate(event) && event.outcome == Unset && !lane.shared
    ensures var again := event.(createdAt := event.createdAt + DEDUPE_WINDOW);
            var clock := Clock(again.createdAt + delay, again.createdAt + delay);
            Classify([event], again, lane, clock) == Accepted <==> delay > 0
  {
    var again := event.(createdAt := event.createdAt + DEDUPE_WINDOW);
    var clock := Clock(again.createdAt + delay, again.createdAt + delay);
    assert SameDirection([event][0], again, clock.same) <==> delay == 0;
    if delay > 0 {
      QuietMeansAccepted([event], again, lane, clock);
    }
  }

  lemma QuietMeansAccepted(events: seq<Event>, current: Event, lane: Lane, clock: Clock)
    requires forall k :: 0 <= k < |events| ==> !SameDirection(events[k], current, clock.same)
    requires !lane.shared
    ensures Classify(events, current, lane, clock) == Accepted
  {
  }

  /** The proviso is needed: an event set to wait for a valid plate format no longer holds back its repetition. */
  lemma MutedEventsDoNotDedupe(event: Event, lane: Lane)
    requires HasPlate(event) && event.outcome == Unset && !lane.shared
    ensures var at := Clock(event.createdAt, event.createdAt);
            var first := Register(Initial, event, lane, at);
            var muted := UpdateOutcome(first, 0, PlateFormatWaiting);
            && Classify(first.events, event, lane, at) == SameDirectionDuplicate
            && Classify(muted.events, event, lane, at) == Accepted
            && Register(muted, event, lane, at).accepted == {0, 1}
  {
    var at := Clock(event.createdAt, event.createdAt);
    QuietMeansAccepted([], event, lane, at);
    assert Initial.events + [event] == [event];
    var first := Register(Initial, event, lane, at);
    assert first == State([event], [event.createdAt], {0}, {});
    assert SameDirection(first.events[0], event, at.same);
    var muted := UpdateOutcome(first, 0, PlateFormatWaiting);
    QuietMeansAccepted(muted.events, event, lane, at);
  }

  // ----- the table -----

  class WebhookEventTable {
    var events: seq<Event>

    constructor ()
      ensures events == []
    {
      events := [];
    }

    /** Insert, then the queries; the clock says when they run. */
    method RegisterWebhookEvent(event: Event, lane: Lane, clock: Clock)
      returns (eventId: Id, registration: Registration)
      requires Ordered(events) && forall k :: 0 <= k < |events| ==> events[k].createdAt <= event.createdAt
      requires ClockOk(event, clock)
      modifies this
      ensures Ordered(events) && eventId == |old(events)|
      ensures registration == Classify(old(events), event, lane, clock)
      ensures events == old(events) + [event.(outcome := OutcomeOf(registration))]
      ensures events[eventId].outcome == match registration
                                         case Accepted => Unset
                                         case SameDirectionDuplicate => DuplicateSameDirection
                                         case Echo(_, _) => OppositeCameraEcho
                                         case Conflict(_, _) => SharedLaneConflict
    {
      eventId := |events|;
      events := events + [event.(outcome := Unset)];
      var rows := events[..eventId];
      assert rows == old(events);
      var same := SearchWindow(rows, clock.same - DEDUPE_WINDOW, (e: Event) => SameDirection(e, event, clock.same));
      if same.Some? {
        events := events[eventId := event.(outcome := DuplicateSameDirection)];
        registration := SameDirectionDuplicate;
        return;
      }
      registration := FindOpposite(rows, event, lane, clock.opposite);
      events := events[eventId := event.(outcome := OutcomeOf(registration))];
    }

    /** The opposite camera's events in the coarse window: an equal plate first, then a near one. */
    method FindOpposite(rows: seq<Event>, event: Event, lane: Lane, now: int) returns (registration: Registration)
      requires Ordered(rows)
      ensures registration == ClassifyOpposite(rows, event, lane, now)
    {
      var windowStart := now - (Guard(lane) + 2 * MAX_SKEW);
      var exact := SearchWindow(rows, windowStart, (e: Event) => EchoOf(e, event, lane, now));
      if exact.Some? {
        return Echo(exact.value, Delta(rows[exact.value], event).value);
      }
      var near := SearchWindow(rows, windowStart, (e: Event) => ConflictWith(e, event, lane, now));
      if near.Some? {
        return Conflict(near.value, Delta(rows[near.value], event).value);
      }
      registration := Accepted;
    }

    /** Newest first, down to the start of the window. */
    method SearchWindow(rows: seq<Event>, windowStart: int, p: Event -> bool) returns (found: Option<Id>)
      requires Ordered(rows) && forall e :: p(e) ==> e.createdAt >= windowStart
      ensures found == LastSuch(rows, p)
    {
      var k := |rows|;
      while k > 0 && rows[k - 1].createdAt >= windowStart
        invariant 0 <= k <= |rows|
        invariant LastSuch(rows, p) == LastSuch(rows[..k], p)
      {
        assert rows[..k][..k - 1] == rows[..k - 1];
        if p(rows[k - 1]) {
          return Some(k - 1);
        }
        k := k - 1;
      }
      assert forall e :: 0 <= e < k ==> rows[e].createdAt < windowStart;
      found := None;
    }
  }
}
