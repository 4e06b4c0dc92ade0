/** The per-key promise chain that serialises plate-format checks, and the claim that protects a check record.
    A caller is cut at its await: entering, proceeding once the previous promise is resolved, and releasing. */
module ObservationLock {
  import opened Wrappers

  type Id = nat
  type Key = string

  /** finalizing: the check record a holder has claimed. */
  datatype Stage = Waiting | Holding(finalizing: Option<Id>) | Released
  datatype Task = Task(key: Key, previous: Option<Id>, stage: Stage)
  datatype CheckStatus = PendingCheck | Finalizing | Removed
  datatype Check = Check(key: Key, status: CheckStatus)

  /** tasks: every caller so far, in order of entry. locks: whose `queued` promise is stored for a key. */
  datatype State = State(tasks: seq<Task>, locks: map<Key, Id>, checks: seq<Check>)

  const Initial := State([], map[], [])

  /** `queued` of task t: its own release and everything before it in the chain. */
  predicate QueuedResolved(tasks: seq<Task>, t: Id)
    requires t < |tasks|
    decreases t, 1
  {
    tasks[t].stage.Released? && PreviousDone(tasks, t)
  }

  /** What a caller awaits: the promise it found in the map, if any. */
  predicate PreviousDone(tasks: seq<Task>, t: Id)
    requires t < |tasks|
    decreases t, 0
  {
    match tasks[t].previous
    case None => true
    case Some(p) => p < t && QueuedResolved(tasks, p)
  }

  predicate MayProceed(tasks: seq<Task>, t: Id)
    requires t < |tasks|
  {
    tasks[t].stage.Waiting? && PreviousDone(tasks, t)
  }

  function SetStage(s: State, t: Id, stage: Stage): State
    requires t < |s.tasks|
  {
    s.(tasks := s.tasks[t := s.tasks[t].(stage := stage)])
  }

  function Enter(s: State, key: Key): State {
    var previous := if key in s.locks then Some(s.locks[key]) else None;
    s.(tasks := s.tasks + [Task(key, previous, Waiting)], locks := s.locks[key := |s.tasks|])
  }

  function Proceed(s: State, t: Id): State
    requires t < |s.tasks|
  {
    if MayProceed(s.tasks, t) then SetStage(s, t, Holding(None)) else s
  }

  function Release(s: State, t: Id): State
    requires t < |s.tasks|
  {
    if s.tasks[t].stage != Holding(None) then s
    else
      var s' := SetStage(s, t, Released);
      var key := s.tasks[t].key;
      if key in s.locks && s.locks[key] == t then s'.(locks := s.locks - {key}) else s'
  }

  /** A holder starts tracking a new observation. */
  function AddCheck(s: State, t: Id): State
    requires t < |s.tasks|
  {
    if s.tasks[t].stage == Holding(None) then s.(checks := s.checks + [Check(s.tasks[t].key, PendingCheck)]) else s
  }

  /** The conditional update pending -> finalizing; it succeeds for at most one caller. */
  function Claim(s: State, t: Id, c: Id): State
    requires t < |s.tasks|
  {
    if s.tasks[t].stage == Holding(None) && c < |s.checks| && s.checks[c] == Check(s.tasks[t].key, PendingCheck)
    then SetStage(s, t, Holding(Some(c))).(checks := s.checks[c := s.checks[c].(status := Finalizing)])
    else s
  }

  /** The end of a finalisation: the record is removed, or put back after an error. */
  function Finish(s: State, t: Id, failed: bool): State
    requires t < |s.tasks|
  {
    match s.tasks[t].stage
    case Holding(Some(c)) =>
      if c < |s.checks|
      then SetStage(s, t, Holding(None))
           .(checks := s.checks[c := s.checks[c].(status := if failed then PendingCheck else Removed)])
      else s
    case _ => s
  }

  datatype Step =
    | DoEnter(key: Key)
    | DoProceed(t: Id)
    | DoRelease(t: Id)
    | DoAddCheck(t: Id)
    | DoClaim(t: Id, c: Id)
    | DoFinish(t: Id, failed: bool)

  function Next(s: State, step: Step): State {
    match step
    case DoEnter(key) => Enter(s, key)
    case DoProceed(t) => if t < |s.tasks| then Proceed(s, t) else s
    case DoRelease(t) => if t < |s.tasks| then Release(s, t) else s
    case DoAddCheck(t) => if t < |s.tasks| then AddCheck(s, t) else s
    case DoClaim(t, c) => if t < |s.tasks| then Claim(s, t, c) else s
    case DoFinish(t, failed) => if t < |s.tasks| then Finish(s, t, failed) else s
  }

  // ----- what every interleaving keeps -----

  predicate DoneBefore(tasks: seq<Task>, t: Id, key: Key) {
    forall e :: 0 <= e < t && e < |tasks| && tasks[e].key == key ==> tasks[e].stage.Released?
  }

  /** The chain of a key: each link is the latest earlier caller, or every earlier caller is done. */
  ghost predicate ChainOk(tasks: seq<Task>) {
    forall t :: 0 <= t < |tasks| ==>
      match tasks[t].previous
      case None => DoneBefore(tasks, t, tasks[t].key)
      case Some(p) => p < t && tasks[p].key == tasks[t].key && NoneBetween(tasks, p, t, tasks[t].key)
  }

  predicate NoneBetween(tasks: seq<Task>, p: Id, t: Id, key: Key) {
    forall e :: p < e < t && e < |tasks| ==> tasks[e].key != key
  }

  /** Whoever got the lock got it after every earlier caller of the key let go. */
  ghost predicate InOrder(tasks: seq<Task>) {
    forall t :: 0 <= t < |tasks| && !tasks[t].stage.Waiting? ==> DoneBefore(tasks, t, tasks[t].key)
  }

  /** A key has a map entry exactly while somebody holds or waits, and the entry is the last caller. */
  ghost predicate LocksOk(tasks: seq<Task>, locks: map<Key, Id>) {
    && (forall key :: key in locks ==>
          && locks[key] < |tasks| && tasks[locks[key]].key == key
          && !tasks[locks[key]].stage.Released?
          && NoneBetween(tasks, locks[key], |tasks|, key))
    && (forall t :: 0 <= t < |tasks| && !tasks[t].stage.Released? ==> tasks[t].key in locks)
  }

  ghost predicate OrderOk(tasks: seq<Task>, locks: map<Key, Id>) {
    ChainOk(tasks) && InOrder(tasks) && LocksOk(tasks, locks)
  }

  predicate ClaimOk(task: Task, checks: seq<Check>) {
    task.stage.Holding? && task.stage.finalizing.Some? ==>
      task.stage.finalizing.value < |checks| && checks[task.stage.finalizing.value] == Check(task.key, Finalizing)
  }

  predicate ClaimedBy(tasks: seq<Task>, c: Id, t: Id) {
    t < |tasks| && tasks[t].stage == Holding(Some(c))
  }

  /** A record is being finalised exactly by the one holder that claimed it. */
  ghost predicate ClaimsOk(tasks: seq<Task>, checks: seq<Check>) {
    && (forall t :: 0 <= t < |tasks| ==> ClaimOk(tasks[t], checks))
    && (forall c :: 0 <= c < |checks| && checks[c].status.Finalizing? ==> exists t: Id :: ClaimedBy(tasks, c, t))
  }

  ghost predicate Inv(s: State) {
    OrderOk(s.tasks, s.locks) && ClaimsOk(s.tasks, s.checks)
  }

  /** The promise of a caller is resolved exactly when all callers of the key up to it have let go. */
  lemma {:induction false} ResolvedMeansDone(tasks: seq<Task>, t: Id)
    requires ChainOk(tasks) && t < |tasks|
    ensures QueuedResolved(tasks, t) <==> tasks[t].stage.Released? && DoneBefore(tasks, t, tasks[t].key)
    decreases t
  {
    if tasks[t].previous.Some? {
      ResolvedMeansDone(tasks, tasks[t].previous.value);
    }
  }

  lemma OneHolder(s: State, t: Id, u: Id)
    requires Inv(s) && t < u < |s.tasks| && s.tasks[t].key == s.tasks[u].key
    ensures !(s.tasks[t].stage.Holding? && s.tasks[u].stage.Holding?)
    ensures !s.tasks[u].stage.Waiting? ==> s.tasks[t].stage.Released?
  {
  }

  lemma EnterKeepsInv(s: State, key: Key)
    requires Inv(s)
    ensures Inv(Enter(s, key))
  {
    EnterKeepsOrder(s, key);
    var tasks' := Enter(s, key).tasks;
    forall c | 0 <= c < |s.checks| && s.checks[c].status.Finalizing? ensures exists t: Id :: ClaimedBy(tasks', c, t) {
      var t: Id :| ClaimedBy(s.tasks, c, t);
      assert ClaimedBy(tasks', c, t);
    }
  }

  lemma EnterKeepsOrder(s: State, key: Key)
    requires OrderOk(s.tasks, s.locks)
    ensures OrderOk(Enter(s, key).tasks, Enter(s, key).locks)
  {
  }

  /** The same callers, of whom at least as many have let go. */
  ghost predicate Progress(tasks: seq<Task>, tasks': seq<Task>) {
    && |tasks| == |tasks'|
    && forall e :: 0 <= e < |tasks| ==>
         && tasks'[e].key == tasks[e].key && tasks'[e].previous == tasks[e].previous
         && (tasks[e].stage.Released? ==> tasks'[e].stage.Released?)
  }

  lemma ChainKept(tasks: seq<Task>, tasks': seq<Task>)
    requires ChainOk(tasks) && Progress(tasks, tasks')
    ensures ChainOk(tasks')
  {
    forall u | 0 <= u < |tasks|
      ensures DoneBefore(tasks, u, tasks[u].key) ==> DoneBefore(tasks', u, tasks[u].key)
      ensures tasks[u].previous.Some? && NoneBetween(tasks, tasks[u].previous.value, u, tasks[u].key) ==>
                NoneBetween(tasks', tasks[u].previous.value, u, tasks[u].key)
    {
    }
  }

  lemma OrderKept(tasks: seq<Task>, tasks': seq<Task>, t: Id)
    requires InOrder(tasks) && Progress(tasks, tasks') && t < |tasks| && DoneBefore(tasks, t, tasks[t].key)
    requires forall e :: 0 <= e < |tasks| && e != t ==> tasks'[e].stage == tasks[e].stage
    ensures InOrder(tasks')
  {
    forall u | 0 <= u < |tasks| && !tasks'[u].stage.Waiting? ensures DoneBefore(tasks', u, tasks'[u].key) {
      assert DoneBefore(tasks, u, tasks[u].key);
    }
  }

  lemma LocksKept(tasks: seq<Task>, tasks': seq<Task>, locks: map<Key, Id>, locks': map<Key, Id>)
    requires LocksOk(tasks, locks) && Progress(tasks, tasks')
    requires forall key :: key in locks' ==> key in locks && locks'[key] == locks[key]
    requires forall key :: key in locks' ==> !tasks'[locks[key]].stage.Released?
    requires forall u :: 0 <= u < |tasks'| && !tasks'[u].stage.Released? && tasks'[u].key in locks ==>
               tasks'[u].key in locks'
    ensures LocksOk(tasks', locks')
  {
    forall key | key in locks' ensures NoneBetween(tasks', locks'[key], |tasks'|, key) {
      assert NoneBetween(tasks, locks[key], |tasks|, key);
    }
  }

  /** A stage change that neither releases nor overtakes. */
  lemma StageKeepsOrder(tasks: seq<Task>, locks: map<Key, Id>, t: Id, stage: Stage)
    requires OrderOk(tasks, locks) && t < |tasks| && !tasks[t].stage.Released? && stage.Holding?
    requires DoneBefore(tasks, t, tasks[t].key)
    ensures OrderOk(tasks[t := tasks[t].(stage := stage)], locks)
  {
    var tasks' := tasks[t := tasks[t].(stage := stage)];
    ChainKept(tasks, tasks');
    OrderKept(tasks, tasks', t);
    LocksKept(tasks, tasks', locks, locks);
  }

  lemma ReleaseKeepsOrder(tasks: seq<Task>, locks: map<Key, Id>, t: Id)
    requires OrderOk(tasks, locks) && t < |tasks| && tasks[t].stage.Holding?
    ensures var key := tasks[t].key;
            OrderOk(tasks[t := tasks[t].(stage := Released)],
                    if key in locks && locks[key] == t then locks - {key} else locks)
  {
    var key, tasks' := tasks[t].key, tasks[t := tasks[t].(stage := Released)];
    var locks' := if key in locks && locks[key] == t then locks - {key} else locks;
    ChainKept(tasks, tasks');
    OrderKept(tasks, tasks', t);
    if key in locks && locks[key] == t {
      LastReleased(tasks, t);
    }
    LocksKept(tasks, tasks', locks, locks');
  }

  /** Nobody of the key entered after its last caller, and everybody before it has let go. */
  lemma LastReleased(tasks: seq<Task>, t: Id)
    requires InOrder(tasks) && t < |tasks| && tasks[t].stage.Holding? && NoneBetween(tasks, t, |tasks|, tasks[t].key)
    ensures forall u :: 0 <= u < |tasks| && u != t && tasks[u].key == tasks[t].key ==> tasks[u].stage.Released?
  {
  }

  /** Changing the stage of a task that claims nothing touches no claim. */
  lemma ClaimsSurvive(tasks: seq<Task>, checks: seq<Check>, t: Id, stage: Stage)
    requires ClaimsOk(tasks, checks) && t < |tasks|
    requires tasks[t].stage.Holding? ==> tasks[t].stage.finalizing.None?
    requires stage.Holding? ==> stage.finalizing.None?
    ensures ClaimsOk(tasks[t := tasks[t].(stage := stage)], checks)
  {
    var tasks' := tasks[t := tasks[t].(stage := stage)];
    forall c | 0 <= c < |checks| && checks[c].status.Finalizing? ensures exists u: Id :: ClaimedBy(tasks', c, u) {
      var u: Id :| ClaimedBy(tasks, c, u);
      assert ClaimedBy(tasks', c, u);
    }
  }

  lemma ProceedKeepsInv(s: State, t: Id)
    requires Inv(s) && t < |s.tasks|
    ensures Inv(Proceed(s, t))
  {
    if MayProceed(s.tasks, t) {
      if s.tasks[t].previous.Some? {
        ResolvedMeansDone(s.tasks, s.tasks[t].previous.value);
      }
      StageKeepsOrder(s.tasks, s.locks, t, Holding(None));
      ClaimsSurvive(s.tasks, s.checks, t, Holding(None));
    }
  }

  lemma ReleaseKeepsInv(s: State, t: Id)
    requires Inv(s) && t < |s.tasks|
    ensures Inv(Release(s, t))
  {
    if s.tasks[t].stage == Holding(None) {
      ReleaseKeepsOrder(s.tasks, s.locks, t);
      ClaimsSurvive(s.tasks, s.checks, t, Released);
    }
  }

  lemma AddCheckKeepsInv(s: State, t: Id)
    requires Inv(s) && t < |s.tasks|
    ensures Inv(AddCheck(s, t))
  {
  }

  lemma ClaimKeepsInv(s: State, t: Id, c: Id)
    requires Inv(s) && t < |s.tasks|
    ensures Inv(Claim(s, t, c))
  {
    var s' := Claim(s, t, c);
    if s' != s {
      StageKeepsOrder(s.tasks, s.locks, t, Holding(Some(c)));
      ClaimKeepsClaims(s, t, c);
    }
  }

  lemma ClaimKeepsClaims(s: State, t: Id, c: Id)
    requires ClaimsOk(s.tasks, s.checks) && t < |s.tasks|
    ensures ClaimsOk(Claim(s, t, c).tasks, Claim(s, t, c).checks)
  {
    var s' := Claim(s, t, c);
    if s' != s {
      assert ClaimedBy(s'.tasks, c, t);
      forall d | 0 <= d < |s'.checks| && s'.checks[d].status.Finalizing? && d != c
        ensures exists u: Id :: ClaimedBy(s'.tasks, d, u)
      {
        var u: Id :| ClaimedBy(s.tasks, d, u);
        assert ClaimedBy(s'.tasks, d, u);
      }
    }
  }

  lemma FinishKeepsInv(s: State, t: Id, failed: bool)
    requires Inv(s) && t < |s.tasks|
    ensures Inv(Finish(s, t, failed))
  {
    var s' := Finish(s, t, failed);
    if s' != s {
      StageKeepsOrder(s.tasks, s.locks, t, Holding(None));
      FinishKeepsClaims(s, t, failed);
    }
  }

  lemma FinishKeepsClaims(s: State, t: Id, failed: bool)
    requires Inv(s) && t < |s.tasks| && s.tasks[t].stage.Holding? && s.tasks[t].stage.finalizing.Some?
    ensures ClaimsOk(Finish(s, t, failed).tasks, Finish(s, t, failed).checks)
  {
    var s', c := Finish(s, t, failed), s.tasks[t].stage.finalizing.value;
    assert ClaimOk(s.tasks[t], s.checks);
    forall u | 0 <= u < |s.tasks| && u != t ensures ClaimOk(s'.tasks[u], s'.checks) {
      assert ClaimOk(s.tasks[u], s.checks);
      if s.tasks[u].key == s.tasks[t].key {
        OneHolder(s, if u < t then u else t, if u < t then t else u);
      }
    }
    forall d | 0 <= d < |s'.checks| && s'.checks[d].status.Finalizing?
      ensures exists u: Id :: ClaimedBy(s'.tasks, d, u)
    {
      var u: Id :| ClaimedBy(s.tasks, d, u);
      assert ClaimedBy(s'.tasks, d, u);
    }
  }

  lemma NextKeepsInv(s: State, step: Step)
    requires Inv(s)
    ensures Inv(Next(s, step))
  {
    match step
    case DoEnter(key) => EnterKeepsInv(s, key);
    case DoProceed(t) => if t < |s.tasks| { ProceedKeepsInv(s, t); }
    case DoRelease(t) => if t < |s.tasks| { ReleaseKeepsInv(s, t); }
    case DoAddCheck(t) => if t < |s.tasks| { AddCheckKeepsInv(s, t); }
    case DoClaim(t, c) => if t < |s.tasks| { ClaimKeepsInv(s, t, c); }
    case DoFinish(t, failed) => if t < |s.tasks| { FinishKeepsInv(s, t, failed); }
  }

  /** A run written down state by state. */
  ghost predicate Trace(states: seq<State>, steps: seq<Step>) {
    && |states| == |steps| + 1 && states[0] == Initial
    && forall i {:trigger steps[i]} :: 0 <= i < |steps| ==> states[i + 1] == Next(states[i], steps[i])
  }

  ghost predicate Reachable(s: State) {
    exists states: seq<State>, steps: seq<Step> :: Trace(states, steps) && states[|steps|] == s
  }

  lemma {:induction false} TraceKeepsInv(states: seq<State>, steps: seq<Step>, k: nat)
    requires Trace(states, steps) && k <= |steps|
    ensures Inv(states[k])
  {
    if k > 0 {
      TraceKeepsInv(states, steps, k - 1);
      NextKeepsInv(states[k - 1], steps[k - 1]);
    }
  }

  lemma ReachableKeepsInv(s: State)
    requires Reachable(s)
    ensures Inv(s)
  {
    var states: seq<State>, steps: seq<Step> :| Trace(states, steps) && states[|steps|] == s;
    TraceKeepsInv(states, steps, |steps|);
  }

  /** In every reachable state: one holder per key, served in order of entry, and a map entry exactly while
      somebody holds or waits. */
  lemma LockIsFifo(s: State, t: Id, u: Id, key: Key)
    requires Reachable(s)
    ensures t < u < |s.tasks| && s.tasks[t].key == s.tasks[u].key ==>
              && !(s.tasks[t].stage.Holding? && s.tasks[u].stage.Holding?)
              && (!s.tasks[u].stage.Waiting? ==> s.tasks[t].stage.Released?)
    ensures key in s.locks <==>
              exists w :: 0 <= w < |s.tasks| && s.tasks[w].key == key && !s.tasks[w].stage.Released?
  {
    ReachableKeepsInv(s);
    if t < u < |s.tasks| && s.tasks[t].key == s.tasks[u].key {
      OneHolder(s, t, u);
    }
    if key in s.locks {
      assert s.tasks[s.locks[key]].key == key;
    }
  }

  /** Nobody waits behind an idle lock: the first caller that has not let go holds it or may proceed. */
  lemma LockIsLive(s: State, t: Id)
    requires Reachable(s) && t < |s.tasks| && !s.tasks[t].stage.Released?
    requires DoneBefore(s.tasks, t, s.tasks[t].key)
    ensures s.tasks[t].stage.Holding? || MayProceed(s.tasks, t)
  {
    ReachableKeepsInv(s);
    if s.tasks[t].previous.Some? {
      ResolvedMeansDone(s.tasks, s.tasks[t].previous.value);
    }
  }

  /** No record is finalised by two callers at once; and whoever holds the key without a claim of its own
      finds none of the key's records being finalised. */
  lemma OneFinaliser(s: State, t: Id, u: Id, c: Id)
    requires Reachable(s) && t < |s.tasks| && u < |s.tasks| && c < |s.checks|
    ensures s.tasks[t].stage == Holding(Some(c)) && s.tasks[u].stage == Holding(Some(c)) ==> t == u
    ensures s.tasks[t].stage == Holding(None) && s.checks[c].key == s.tasks[t].key ==> !s.checks[c].status.Finalizing?
  {
    ReachableKeepsInv(s);
    if t != u && s.tasks[t].key == s.tasks[u].key {
      OneHolder(s, if t < u then t else u, if t < u then u else t);
    }
    if s.tasks[t].stage == Holding(None) {
      forall w | 0 <= w < |s.tasks| && w != t && s.tasks[w].key == s.tasks[t].key ensures !s.tasks[w].stage.Holding? {
        OneHolder(s, if t < w then t else w, if t < w then w else t);
      }
    }
  }

  // ----- the module's maps -----

  class PlateFormatChecks {
    var locks: map<Key, Id>
    var tasks: seq<Task>
    var checks: seq<Check>

    function Model(): State
      reads this
    {
      State(tasks, locks, checks)
    }

    ghost predicate Valid()
      reads this
    {
      Inv(Model())
    }

    constructor ()
      ensures Valid() && Model() == Initial
    {
      locks, tasks, checks := map[], [], [];
    }

    /** Up to `await previous`. */
    method WithObservationLock(key: Key) returns (me: Id)
      requires Valid()
      modifies this`locks, this`tasks
      ensures Valid() && Model() == Enter(old(Model()), key)
      ensures me == |old(tasks)| && locks == old(locks)[key := me]
      ensures tasks == old(tasks) + [Task(key, if key in old(locks) then Some(old(locks)[key]) else None, Waiting)]
    {
      EnterKeepsInv(Model(), key);
      var previous := None;
      if key in locks {
        previous := Some(locks[key]);
      }
      me := |tasks|;
      tasks := tasks + [Task(key, previous, Waiting)];
      locks := locks[key := me];
    }

    /** The await returns: the action may start. */
    method PreviousResolved(me: Id)
      requires Valid() && me < |tasks| && MayProceed(tasks, me)
      modifies this`tasks
      ensures Valid() && Model() == Proceed(old(Model()), me)
      ensures tasks == old(tasks)[me := Task(old(tasks)[me].key, old(tasks)[me].previous, Holding(None))]
      ensures forall other :: 0 <= other < |tasks| && other != me && tasks[other].key == tasks[me].key ==>
                !tasks[other].stage.Holding?
    {
      ProceedKeepsInv(Model(), me);
      tasks := tasks[me := tasks[me].(stage := Holding(None))];
      forall other | 0 <= other < |tasks| && other != me && tasks[other].key == tasks[me].key
        ensures !tasks[other].stage.Holding?
      {
        OneHolder(Model(), if other < me then other else me, if other < me then me else other);
      }
    }

    /** The finally block. */
    method Finally(me: Id)
      requires Valid() && me < |tasks| && tasks[me].stage == Holding(None)
      modifies this`locks, this`tasks
      ensures Valid() && Model() == Release(old(Model()), me)
      ensures tasks == old(tasks)[me := Task(old(tasks)[me].key, old(tasks)[me].previous, Released)]
      ensures var key := old(tasks)[me].key;
              locks == if key in old(locks) && old(locks)[key] == me then old(locks) - {key} else old(locks)
    {
      ReleaseKeepsInv(Model(), me);
      var key := tasks[me].key;
      tasks := tasks[me := tasks[me].(stage := Released)];
      if key in locks && locks[key] == me {
        locks := locks - {key};
      }
    }

    /** The claim at the head of a finalisation. */
    method ClaimCheck(me: Id, c: Id) returns (claimed: bool)
      requires Valid() && me < |tasks| && tasks[me].stage == Holding(None)
      requires c < |checks| && checks[c].key == tasks[me].key
      modifies this`tasks, this`checks
      ensures Valid() && Model() == Claim(old(Model()), me, c)
      ensures claimed == old(checks)[c].status.PendingCheck?
      ensures checks == if claimed then old(checks)[c := old(checks)[c].(status := Finalizing)] else old(checks)
      ensures tasks == if claimed then old(tasks)[me := old(tasks)[me].(stage := Holding(Some(c)))] else old(tasks)
    {
      ClaimKeepsInv(Model(), me, c);
      claimed := checks[c].status.PendingCheck?;
      if claimed {
        checks := checks[c := checks[c].(status := Finalizing)];
        tasks := tasks[me := tasks[me].(stage := Holding(Some(c)))];
      }
    }

    /** The end of a finalisation; an error puts the record back. */
    method FinishCheck(me: Id, failed: bool)
      requires Valid() && me < |tasks| && tasks[me].stage.Holding? && tasks[me].stage.finalizing.Some?
      modifies this`tasks, this`checks
      ensures Valid() && Model() == Finish(old(Model()), me, failed)
      ensures tasks == old(tasks)[me := old(tasks)[me].(stage := Holding(None))]
      ensures var c := old(tasks)[me].stage.finalizing.value;
              && c < |old(checks)|
              && checks == old(checks)[c := old(checks)[c].(status := if failed then PendingCheck else Removed)]
    {
      FinishKeepsInv(Model(), me, failed);
      assert ClaimOk(tasks[me], checks);
      var c := tasks[me].stage.finalizing.value;
      checks := checks[c := checks[c].(status := if failed then PendingCheck else Removed)];
      tasks := tasks[me := tasks[me].(stage := Holding(None))];
    }
  }
}
