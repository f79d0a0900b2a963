/**
 * Who replaces a room's runner, and when: `repairRunner`, `runnerOwner`, `anotherRunner` and the lock around them in
 * server/agent-cli.ts, by any number of actors at once.
 *
 * The lock is the one of FileLock, file operation by file operation. Actors and runners die at any time, also between a start
 * and the write of the runner's pid; that write may fail; and a bridge from before the lock (a stranger) may start a runner at
 * any time. A look goes by the recorded pid: it finds that runner while it lives, and never any other.
 */
module RunnerRepair {
  import opened Wrappers
  import L = FileLock

  type Pid = nat
  type Actor = L.Actor

  const REPAIR_BACKOFF_MS := 5 * 60_000
  const RUNNER_ISOLATED_MS := 60_000

  datatype Owner = Daemon | Watcher | Command

  /** Whether the room's watcher and the machine's daemon run. */
  datatype Running = Running(watcher: bool, daemon: bool)

  function RunnerOwner(inWake: bool, runs: Running): Owner {
    if inWake then Watcher else if runs.daemon then Daemon else if runs.watcher then Watcher else Command
  }

  /** The room service not answering the runner: since when, and whether it was reached at all. */
  datatype Silence = Silence(since: int, reached: bool)

  datatype Found = Found(pid: Pid, verified: bool, outdated: bool, stuck: bool, silence: Option<Silence>)

  /**
   * One look at the runner, and what is asked about it: what runs when its silence is judged and when the repair is decided,
   * and what the room service answers this process.
   */
  datatype Sight = Sight(found: Option<Found>, asked: Running, probe: bool, runs: Running)

  datatype Why = Missing | Outdated | Stuck | Broken | Isolated

  predicate Silent(found: Found, asked: Running, now: int) {
    && found.silence.Some? && !found.silence.value.reached && now - found.silence.value.since > RUNNER_ISOLATED_MS
    && RunnerOwner(false, asked) == Command
  }

  /** Why the runner needs a repair, if it does; the room service is asked once per repair. */
  function Needs(s: Sight, broken: bool, probed: Option<bool>, now: int): Option<Why> {
    if s.found.None? then Some(Missing)
    else if s.found.value.outdated then Some(Outdated)
    else if s.found.value.stuck then Some(Stuck)
    else if broken then Some(Broken)
    else if Silent(s.found.value, s.asked, now) && (if probed.Some? then probed.value else s.probe) then Some(Isolated)
    else None
  }

  /** What is known of the room service after the look. */
  function Probed(s: Sight, broken: bool, probed: Option<bool>, now: int): Option<bool> {
    if probed.None? && s.found.Some? && !s.found.value.outdated && !s.found.value.stuck && !broken && Silent(s.found.value, s.asked, now)
    then Some(s.probe) else probed
  }

  /** The room service answers this process, no daemon or watcher runs, and the runner hasn't reached the service for over a minute. */
  predicate CutOff(s: Sight, silence: Silence, now: int) {
    !silence.reached && now - silence.since > 60_000 && !s.asked.daemon && !s.asked.watcher && s.probe
  }

  /** The runner runs another version, or its loop stands still, or the caller found it broken, or its own networking is. */
  predicate Ails(s: Sight, f: Found, broken: bool, now: int) {
    f.outdated || f.stuck || broken || (f.silence.Some? && CutOff(s, f.silence.value, now))
  }

  /** A repair is needed exactly where none is found or the one found ails; another version comes before all else. */
  lemma NeedsWhenAiling(s: Sight, broken: bool, probed: Option<bool>, now: int)
    ensures Needs(s, broken, probed, now) == Some(Missing) <==> s.found.None?
    ensures s.found.Some? ==> (Needs(s, broken, probed, now) == Some(Outdated) <==> s.found.value.outdated)
    ensures (probed.Some? ==> probed.value == s.probe) ==>
      && (s.found.Some? ==> (Needs(s, broken, probed, now).Some? <==> Ails(s, s.found.value, broken, now)))
      && (Probed(s, broken, probed, now).Some? ==> Probed(s, broken, probed, now).value == s.probe)
  {
  }

  datatype Outcome =
    | InAWake | OwnedBy(owner: Owner) | Kept | Started | Restarted | Replaced | Unverified | NotStopped | Backoff | Busy
    /** The start failed: the repair throws. */
    | Threw

  /** Where an actor is in `repairRunner`: what it does next, and what it remembers. */
  datatype Place =
    | Out
    | FirstLook(broken: bool)
    | Waiting(broken: bool, first: Option<Pid>, probed: Option<bool>)
    | SecondLook(broken: bool, first: Option<Pid>, probed: Option<bool>)
    | Stopping(pid: Pid, why: Why)
    | Recording(pid: Pid, why: Why)
    | ThirdLook(stopped: Pid, why: Why)
    | Starting(why: Why)
    /** A child was spawned (one that failed to has no pid): runner.pid, then runner.json, are written. */
    | Writing(child: Option<Pid>, why: Why)
    | Noting(why: Why)
    | Leaving(outcome: Outcome)

  /** Under the lock. */
  predicate InHand(p: Place) {
    !p.Out? && !p.FirstLook? && !p.Waiting?
  }

  /** `Spawned(None)`: a child without a pid, which never ran. */
  datatype Deed = Stopped(pid: Pid) | Recorded(at: int) | Spawned(child: Option<Pid>)

  /** How a start goes: it throws before it spawns (the room isn't wanted any more, the version is refused), or it spawns. */
  datatype Spawn = Refused | Spawns(child: Option<Pid>)

  /** A runner spawned by a living actor that hasn't written its pid yet. */
  datatype Birth = Birth(parent: Actor, pid: Pid)

  /**
   * `recorded`: the pid in runner.pid; `ours`: the living runners that repairs started; `strangers`: the others; `past`: every
   * process that was a runner; `birth`: the one spawned and not recorded yet, while its actor lives; `lost`: the runners whose
   * pid was never recorded, because the write failed or the actor died before it, and those that a stranger started or recorded
   * its own over. `repairs`: when replacements were recorded; `deeds`: what each actor did, in order.
   */
  datatype World = World(lock: L.State, places: map<Actor, Place>, recorded: Option<Pid>, ours: set<Pid>, strangers: set<Pid>,
    past: set<Pid>, birth: Option<Birth>, lost: set<Pid>, lastRepair: Option<int>, repairs: seq<int>, deeds: map<Actor, seq<Deed>>, clock: int)
  {
    function At(a: Actor): Place {
      if a in places then places[a] else Out
    }

    function Deeds(a: Actor): seq<Deed> {
      if a in deeds then deeds[a] else []
    }

    function Goto(a: Actor, p: Place): World {
      this.(places := places[a := p])
    }

    function Did(a: Actor, d: Deed): World {
      this.(deeds := deeds[a := Deeds(a) + [d]])
    }

    function Without(pid: Pid): World {
      this.(ours := ours - {pid}, strangers := strangers - {pid})
    }

    function Living(): set<Pid> {
      ours + strangers
    }
  }

  /** A world with at most one runner, whose pid is recorded. */
  function Initial(runner: Option<Pid>, now: int): World {
    var pids := if runner.Some? then {runner.value} else {};
    World(L.Fresh, map[], runner, pids, {}, pids, None, {}, None, [], map[], now)
  }

  datatype Step =
    | Begin(a: Actor, inWake: bool, broken: bool)
    | Sees(a: Actor, s: Sight)
    | Enters(a: Actor)
    | GivesUp(a: Actor)
    /** `died`: a stop that failed killed it all the same. */
    | Stops(a: Actor, ok: bool, died: bool)
    | Records(a: Actor)
    | Starts(a: Actor, spawn: Spawn)
    /** The write of runner.pid, and of runner.json, each of which may fail. */
    | WritesPid(a: Actor, ok: bool)
    | WritesNote(a: Actor, ok: bool)
    | Leaves(a: Actor)
    /** A file operation of the lock, by anyone, or the death of a process. */
    | OnLock(step: L.Step)
    | RunnerDies(pid: Pid)
    | StrangerStarts(pid: Pid)
    | StrangerRecords(pid: Pid)
    | ClockMoves(now: int)

  /** The recorded runner is living. */
  predicate RecordedLives(w: World) {
    w.recorded.Some? && w.recorded.value in w.Living()
  }

  /** A look finds the recorded process or nothing, and finds it while it lives; for a moment it may still seem there after. */
  predicate LookSound(w: World, found: Option<Found>) {
    && (found.Some? ==> w.recorded == Some(found.value.pid))
    && (RecordedLives(w) ==> found.Some?)
  }

  function PidOf(found: Option<Found>): Option<Pid> {
    if found.Some? then Some(found.value.pid) else None
  }

  function AfterFirst(broken: bool, s: Sight, now: int): Place {
    if Needs(s, broken, None, now).None? || RunnerOwner(false, s.runs) != Command then Out
    else Waiting(broken, PidOf(s.found), Probed(s, broken, None, now))
  }

  /** Under the lock a runner other than the one found broken gets its own time. */
  function Reason(p: Place, s: Sight, now: int): Option<Why>
    requires p.SecondLook?
  {
    if s.found.Some? && p.broken && Some(s.found.value.pid) != p.first && !s.found.value.stuck && !s.found.value.outdated then None
    else Needs(s, p.broken, p.probed, now)
  }

  function AfterSecond(p: Place, s: Sight, now: int, last: Option<int>): Place
    requires p.SecondLook?
  {
    var why := Reason(p, s, now);
    if why.None? then Leaving(Kept)
    else if s.found.None? then Starting(Missing)
    else if !s.found.value.verified then Leaving(Unverified)
    else if why != Some(Outdated) && last.Some? && now - last.value < REPAIR_BACKOFF_MS then Leaving(Backoff)
    else Stopping(s.found.value.pid, why.value)
  }

  predicate AnotherRunner(found: Option<Found>, stopped: Pid) {
    found.Some? && found.value.pid != stopped
  }

  function AfterThird(p: Place, s: Sight): Place
    requires p.ThirdLook?
  {
    if AnotherRunner(s.found, p.stopped) then Leaving(Kept) else Starting(p.why)
  }

  function AfterStop(w: World, a: Actor, ok: bool, died: bool): World
    requires w.At(a).Stopping?
  {
    var p := w.At(a);
    if ok then w.Without(p.pid).Did(a, Stopped(p.pid)).Goto(a, if p.why.Outdated? then ThirdLook(p.pid, p.why) else Recording(p.pid, p.why))
    else (if died then w.Without(p.pid) else w).Goto(a, Leaving(NotStopped))
  }

  function AfterRecord(w: World, a: Actor): World
    requires w.At(a).Recording?
  {
    w.(lastRepair := Some(w.clock), repairs := w.repairs + [w.clock]).Did(a, Recorded(w.clock)).Goto(a, ThirdLook(w.At(a).pid, w.At(a).why))
  }

  function OutcomeOf(why: Why): Outcome {
    if why.Missing? then Started else if why.Outdated? then Replaced else Restarted
  }

  function AfterSpawn(w: World, a: Actor, spawn: Spawn): World
    requires w.At(a).Starting?
  {
    if spawn.Refused? then w.Goto(a, Leaving(Threw))
    else
      var v := w.Did(a, Spawned(spawn.child)).Goto(a, Writing(spawn.child, w.At(a).why));
      if spawn.child.None? then v
      else v.(ours := w.ours + {spawn.child.value}, past := w.past + {spawn.child.value}, birth := Some(Birth(a, spawn.child.value)))
  }

  function AfterPidWrite(w: World, a: Actor, ok: bool): World
    requires w.At(a).Writing?
  {
    var child, v := w.At(a).child, w.(birth := None);
    if ok then v.(recorded := child).Goto(a, Noting(w.At(a).why))
    else v.(lost := if child.Some? then w.lost + {child.value} else w.lost).Goto(a, Leaving(Threw))
  }

  /** The runner whose actor dies before it recorded it is lost. */
  function AfterDeath(w: World, pid: L.Pid): World {
    if w.birth.Some? && w.birth.value.parent.pid == pid then w.(birth := None, lost := w.lost + {w.birth.value.pid}) else w
  }

  /** Only live processes act, what a look reports is sound, and process ids aren't used again. */
  predicate Enabled(w: World, step: Step) {
    match step
    case Begin(a, _, _) => w.lock.Live(a) && w.At(a).Out?
    case Sees(a, s) => w.lock.Live(a) && LookSound(w, s.found) && (w.At(a).FirstLook? || w.At(a).SecondLook? || w.At(a).ThirdLook?)
    case Enters(a) => w.lock.Live(a) && w.At(a).Waiting? && w.lock.At(a).Holding?
    case GivesUp(a) => w.lock.Live(a) && w.At(a).Waiting? && w.lock.At(a).Idle?
    case Stops(a, _, _) => w.lock.Live(a) && w.At(a).Stopping?
    case Records(a) => w.lock.Live(a) && w.At(a).Recording?
    case Starts(a, spawn) =>
      w.lock.Live(a) && w.At(a).Starting? && (spawn.Spawns? && spawn.child.Some? ==> spawn.child.value !in w.past)
    case WritesPid(a, _) => w.lock.Live(a) && w.At(a).Writing?
    case WritesNote(a, _) => w.lock.Live(a) && w.At(a).Noting?
    case Leaves(a) => w.lock.Live(a) && w.At(a).Leaving?
    case OnLock(step) => step.Release? ==> !InHand(w.At(step.a))
    case RunnerDies(_) => true
    case StrangerStarts(pid) => pid !in w.past
    case StrangerRecords(pid) => pid in w.past && pid !in w.ours
    case ClockMoves(now) => w.clock <= now
  }

  function Advance(w: World, step: Step): World
    requires Enabled(w, step)
  {
    match step
    case Begin(a, inWake, broken) => if inWake then w else w.Goto(a, FirstLook(broken))
    case Sees(a, s) =>
      var p := w.At(a);
      w.Goto(a, if p.FirstLook? then AfterFirst(p.broken, s, w.clock)
                else if p.SecondLook? then AfterSecond(p, s, w.clock, w.lastRepair)
                else AfterThird(p, s))
    case Enters(a) => w.Goto(a, SecondLook(w.At(a).broken, w.At(a).first, w.At(a).probed))
    case GivesUp(a) => w.Goto(a, Out)
    case Stops(a, ok, died) => AfterStop(w, a, ok, died)
    case Records(a) => AfterRecord(w, a)
    case Starts(a, spawn) => AfterSpawn(w, a, spawn)
    case WritesPid(a, ok) => AfterPidWrite(w, a, ok)
    case WritesNote(a, ok) => w.Goto(a, Leaving(if ok then OutcomeOf(w.At(a).why) else Threw))
    case Leaves(a) => w.(lock := L.Do(w.lock, L.Release(a))).Goto(a, Out)
    case OnLock(step) => (if step.Crash? then AfterDeath(w, step.pid) else w).(lock := L.Do(w.lock, step))
    case RunnerDies(pid) => w.Without(pid)
    case StrangerStarts(pid) => w.(strangers := w.strangers + {pid}, past := w.past + {pid}, lost := w.lost + {pid})
    case StrangerRecords(pid) =>
      w.(recorded := Some(pid), lost := if w.recorded.Some? then w.lost + {w.recorded.value} else w.lost)
    case ClockMoves(now) => w.(clock := now)
  }

  function Do(w: World, step: Step): World {
    if Enabled(w, step) then Advance(w, step) else w
  }

  function Exec(w: World, steps: seq<Step>): World
    decreases |steps|
  {
    if steps == [] then w else Exec(Do(w, steps[0]), steps[1..])
  }

  // ---- What every step keeps ----

  predicate Rested(last: Option<int>, now: int) {
    last.None? || now - last.value >= REPAIR_BACKOFF_MS
  }

  /** The living runners that repairs started and nothing lost. */
  function Known(w: World): set<Pid> {
    w.ours - w.lost
  }

  /** What one live actor's place says about the world. */
  predicate Sound(w: World, a: Actor) {
    var p := w.At(a);
    w.lock.Live(a) ==>
      && (InHand(p) ==> w.lock.At(a).Holding?)
      && (p.Stopping? ==> p.pid in w.past && Known(w) <= {p.pid})
      && (p.Recording? ==> p.pid in w.past && p.pid !in w.Living() && !p.why.Outdated? && Known(w) == {})
      && (p.ThirdLook? ==> p.stopped in w.past && p.stopped !in w.Living() && Known(w) == {})
      && (p.Starting? ==> Known(w) == {})
      && (p.Writing? ==> w.birth == if p.child.Some? then Some(Birth(a, p.child.value)) else None)
      && (p.Writing? && p.child.None? ==> Known(w) == {})
      && ((p.Stopping? || p.Recording?) && !p.why.Outdated? ==> Rested(w.lastRepair, w.clock))
  }

  /** A runner not lost is the recorded one, or is being recorded, and then it is the only one. */
  predicate RunnersKnown(w: World) {
    && w.Living() <= w.past && (w.recorded.Some? ==> w.recorded.value in w.past) && w.strangers <= w.lost
    && match w.birth
       case None => Known(w) <= (if w.recorded.Some? then {w.recorded.value} else {})
       case Some(b) => b.pid in w.past && Known(w) <= {b.pid} && w.lock.Live(b.parent) && w.At(b.parent).Writing? && w.At(b.parent).child == Some(b.pid)
  }

  predicate AtMostOne(s: set<Pid>) {
    forall p, q :: p in s && q in s ==> p == q
  }

  ghost predicate Spaced(times: seq<int>) {
    forall i, j :: 0 <= i < j < |times| ==> times[j] - times[i] >= REPAIR_BACKOFF_MS
  }

  ghost predicate RepairsSpaced(w: World) {
    && Spaced(w.repairs)
    && w.lastRepair == (if w.repairs == [] then None else Some(w.repairs[|w.repairs| - 1]))
  }

  ghost predicate Inv(w: World) {
    && L.Inv(w.lock)
    && (forall a :: Sound(w, a))
    && RunnersKnown(w)
    && RepairsSpaced(w)
  }

  /** The lock is one actor's at a time. */
  lemma OneInHand(w: World, a: Actor, b: Actor)
    requires Inv(w) && w.lock.Live(a) && w.lock.Live(b) && InHand(w.At(a)) && InHand(w.At(b))
    ensures a == b
  {
    assert Sound(w, a) && Sound(w, b);
    assert L.Holds(w.lock, a) && L.Holds(w.lock, b);
  }

  /** The actor of a step, if it is one of `repairRunner`'s. */
  predicate Acts(step: Step) {
    !step.OnLock? && !step.RunnerDies? && !step.StrangerStarts? && !step.StrangerRecords? && !step.ClockMoves?
  }

  lemma OthersStay(w: World, step: Step, b: Actor)
    requires Enabled(w, step) && (Acts(step) ==> b != step.a)
    ensures Do(w, step).At(b) == w.At(b) && Do(w, step).Deeds(b) == w.Deeds(b)
  {
  }

  lemma LockStepStays(w: World, step: L.Step, b: Actor)
    requires Inv(w) && Enabled(w, OnLock(step)) && InHand(w.At(b)) && w.lock.Live(b)
    ensures L.Do(w.lock, step).At(b) == w.lock.At(b)
  {
    assert Sound(w, b);
    if L.Enabled(w.lock, step) && step.Move? && step.a != b {
      L.OthersStay(w.lock, step.a, step.stamp, step.gone, b);
    }
  }

  lemma LockKeepsSound(w: World, step: L.Step, b: Actor)
    requires Inv(w) && Enabled(w, OnLock(step))
    ensures Sound(Do(w, OnLock(step)), b)
  {
    assert Sound(w, b);
    if L.Enabled(w.lock, step) && step.Move? {
      L.OthersStay(w.lock, step.a, step.stamp, step.gone, if step.a == b then L.Actor(b.pid, b.task + 1) else b);
    }
    if InHand(w.At(b)) && w.lock.Live(b) {
      LockStepStays(w, step, b);
    }
  }

  /** A place that is not under the lock asks nothing of the world. */
  lemma OutsideIsSound(w: World, b: Actor)
    requires !InHand(w.At(b))
    ensures Sound(w, b)
  {
  }

  /** A step of an actor that isn't under the lock only moves that actor. */
  lemma OutsideOnlyMoves(w: World, step: Step)
    requires Enabled(w, step) && Acts(step) && !InHand(w.At(step.a))
    ensures Do(w, step) == w || Do(w, step) == w.Goto(step.a, Do(w, step).At(step.a))
  {
    var v := Do(w, step);
    if step.a in v.places {
      assert v.places == w.places[step.a := v.places[step.a]];
    }
  }

  lemma MoveKeepsSound(w: World, a: Actor, p: Place, b: Actor)
    requires Sound(w, b) && a != b
    ensures Sound(w.Goto(a, p), b)
  {
  }

  /** An actor's step leaves the others' places sound: none of them is under the lock beside it. */
  lemma ActKeepsOthersSound(w: World, step: Step, b: Actor)
    requires Inv(w) && Enabled(w, step) && Acts(step) && step.a != b
    ensures Sound(Do(w, step), b)
  {
    hide Advance, Enabled, Sound;
    OthersStay(w, step, b);
    assert Sound(w, b) && Sound(w, step.a);
    if !InHand(w.At(b)) {
      OutsideIsSound(Do(w, step), b);
    } else if !InHand(w.At(step.a)) {
      OutsideOnlyMoves(w, step);
      MoveKeepsSound(w, step.a, Do(w, step).At(step.a), b);
    } else if w.lock.Live(b) {
      ActorLives(w, step);
      OneInHand(w, step.a, b);
    } else {
      DeadIsSound(w, step, b);
    }
  }

  lemma ActorLives(w: World, step: Step)
    requires Enabled(w, step) && Acts(step)
    ensures w.lock.Live(step.a)
  {
  }

  lemma DeadIsSound(w: World, step: Step, b: Actor)
    requires Enabled(w, step) && Acts(step) && !w.lock.Live(b)
    ensures Sound(Do(w, step), b)
  {
  }

  /** Under the lock and not writing a pid, an actor finds no runner being recorded. */
  lemma NoBirthBeside(w: World, a: Actor)
    requires Inv(w) && w.lock.Live(a) && InHand(w.At(a)) && !w.At(a).Writing?
    ensures w.birth.None?
  {
    if w.birth.Some? {
      OneInHand(w, a, w.birth.value.parent);
    }
  }

  lemma SightIsSound(w: World, step: Step)
    requires Inv(w) && Enabled(w, step) && step.Sees?
    ensures Sound(Do(w, step), step.a)
  {
    assert Sound(w, step.a);
    if InHand(w.At(step.a)) {
      NoBirthBeside(w, step.a);
    }
  }

  lemma StopIsSound(w: World, step: Step)
    requires Inv(w) && Enabled(w, step) && (step.Stops? || step.Records?)
    ensures Sound(Do(w, step), step.a)
  {
    assert Sound(w, step.a);
    NoBirthBeside(w, step.a);
  }

  lemma StartIsSound(w: World, step: Step)
    requires Inv(w) && Enabled(w, step) && (step.Starts? || step.WritesPid? || step.WritesNote?)
    ensures Sound(Do(w, step), step.a)
  {
    assert Sound(w, step.a);
    if !step.WritesPid? {
      NoBirthBeside(w, step.a);
    }
  }

  lemma ActKeepsOwnSound(w: World, step: Step)
    requires Inv(w) && Enabled(w, step) && Acts(step)
    ensures Sound(Do(w, step), step.a)
  {
    if step.Sees? {
      SightIsSound(w, step);
    } else if step.Stops? || step.Records? {
      StopIsSound(w, step);
    } else if step.Starts? || step.WritesPid? || step.WritesNote? {
      StartIsSound(w, step);
    } else {
      assert Sound(w, step.a);
    }
  }

  lemma ElseKeepsSound(w: World, step: Step, b: Actor)
    requires Inv(w) && Enabled(w, step) && !Acts(step) && !step.OnLock?
    ensures Sound(Do(w, step), b)
  {
    assert Sound(w, b);
  }

  lemma StepKeepsLock(w: World, step: Step)
    requires Inv(w) && Enabled(w, step)
    ensures L.Inv(Do(w, step).lock)
  {
    if step.OnLock? {
      L.StepKeepsInv(w.lock, step.step);
    } else if step.Leaves? {
      L.StepKeepsInv(w.lock, L.Release(step.a));
    }
  }

  lemma ActKeepsRunners(w: World, step: Step)
    requires Inv(w) && Enabled(w, step) && Acts(step) && InHand(w.At(step.a))
    ensures RunnersKnown(Do(w, step))
  {
    assert Sound(w, step.a);
    if !w.At(step.a).Writing? {
      NoBirthBeside(w, step.a);
    }
  }

  lemma OutsideKeepsRunners(w: World, step: Step)
    requires Inv(w) && Enabled(w, step) && Acts(step) && !InHand(w.At(step.a))
    ensures RunnersKnown(Do(w, step))
  {
    hide Advance, Enabled;
    OutsideOnlyMoves(w, step);
  }

  lemma ElseKeepsRunners(w: World, step: Step)
    requires Inv(w) && Enabled(w, step) && !Acts(step)
    ensures RunnersKnown(Do(w, step))
  {
  }

  lemma StepKeepsRunners(w: World, step: Step)
    requires Inv(w) && Enabled(w, step)
    ensures RunnersKnown(Do(w, step))
  {
    hide Advance, Enabled, Inv, RunnersKnown;
    if !Acts(step) {
      ElseKeepsRunners(w, step);
    } else if InHand(w.At(step.a)) {
      ActKeepsRunners(w, step);
    } else {
      OutsideKeepsRunners(w, step);
    }
  }

  lemma OneMoreSpaced(times: seq<int>, now: int)
    requires Spaced(times) && (times != [] ==> now - times[|times| - 1] >= REPAIR_BACKOFF_MS)
    ensures Spaced(times + [now])
  {
    var n, more := |times|, times + [now];
    forall i, j | 0 <= i < j < |more| ensures more[j] - more[i] >= REPAIR_BACKOFF_MS {
      if j == n && i < n - 1 {
        assert times[n - 1] - times[i] >= REPAIR_BACKOFF_MS;
      }
    }
  }

  lemma StepKeepsSpacing(w: World, step: Step)
    requires Inv(w) && Enabled(w, step)
    ensures RepairsSpaced(Do(w, step))
  {
    hide Spaced, RunnersKnown, LookSound, Needs;
    if step.Records? {
      assert Sound(w, step.a);
      OneMoreSpaced(w.repairs, w.clock);
    }
  }

  lemma StepKeepsInv(w: World, step: Step)
    requires Inv(w)
    ensures Inv(Do(w, step))
  {
    if Enabled(w, step) {
      StepKeepsLock(w, step);
      StepKeepsRunners(w, step);
      StepKeepsSpacing(w, step);
      forall b ensures Sound(Do(w, step), b) {
        if step.OnLock? {
          LockKeepsSound(w, step.step, b);
        } else if !Acts(step) {
          ElseKeepsSound(w, step, b);
        } else if b == step.a {
          ActKeepsOwnSound(w, step);
        } else {
          ActKeepsOthersSound(w, step, b);
        }
      }
    }
  }

  lemma {:induction false} RunKeepsInv(w: World, steps: seq<Step>)
    requires Inv(w)
    ensures Inv(Exec(w, steps))
    decreases |steps|
  {
    if steps != [] {
      StepKeepsInv(w, steps[0]);
      RunKeepsInv(Do(w, steps[0]), steps[1..]);
    }
  }

  lemma InitialInv(runner: Option<Pid>, now: int)
    ensures Inv(Initial(runner, now))
  {
    var w := Initial(runner, now);
    assert forall a :: L.Sound(L.Fresh, a);
    assert forall a :: Sound(w, a);
  }

  /**
   * The step loses a runner: the write of its pid fails, its actor dies between the start and that write, or a stranger starts one
   * or records its own.
   */
  predicate Loses(w: World, step: Step) {
    || (step.WritesPid? && !step.ok && w.At(step.a).Writing? && w.At(step.a).child.Some?)
    || (step.OnLock? && step.step.Crash? && w.birth.Some? && w.birth.value.parent.pid == step.step.pid)
    || step.StrangerStarts? || step.StrangerRecords?
  }

  ghost predicate NothingLost(w: World, steps: seq<Step>)
    decreases |steps|
  {
    steps != [] ==> !Loses(w, steps[0]) && NothingLost(Do(w, steps[0]), steps[1..])
  }

  lemma {:induction false} LostOnlySo(w: World, steps: seq<Step>)
    requires NothingLost(w, steps)
    ensures Exec(w, steps).lost == w.lost
    decreases |steps|
  {
    if steps != [] {
      LostOnlySo(Do(w, steps[0]), steps[1..]);
    }
  }

  predicate TwoOf(s: set<Pid>) {
    exists p, q :: p in s && q in s && p != q
  }

  lemma OneIsLost(w: World, p: Pid, q: Pid)
    requires AtMostOne(Known(w)) && w.strangers <= w.lost && p in w.Living() && q in w.Living() && p != q
    ensures p in w.lost || q in w.lost
  {
    assert p in w.lost || p in Known(w);
    assert q in w.lost || q in Known(w);
  }

  /**
   * Over every interleaving of any number of repairs, lock operations, deaths of runners and of actors: two runners live exactly
   * if a lost one lives beside another; and none is ever lost unless the write of its pid failed, its actor died before that, or a
   * stranger came in.
   */
  lemma NeverTwoRunners(runner: Option<Pid>, now: int, steps: seq<Step>)
    ensures var w := Exec(Initial(runner, now), steps);
      && AtMostOne(w.Living() - w.lost)
      && (TwoOf(w.Living()) <==> exists p, q :: p in w.Living() && p in w.lost && q in w.Living() && p != q)
      && (NothingLost(Initial(runner, now), steps) ==> AtMostOne(w.Living()))
  {
    InitialInv(runner, now);
    RunKeepsInv(Initial(runner, now), steps);
    if NothingLost(Initial(runner, now), steps) {
      LostOnlySo(Initial(runner, now), steps);
    }
    var w := Exec(Initial(runner, now), steps);
    assert w.Living() - w.lost == Known(w);
    if TwoOf(w.Living()) {
      var p, q :| p in w.Living() && q in w.Living() && p != q;
      OneIsLost(w, p, q);
    }
  }

  lemma OnlyLostLive(w: World)
    requires Known(w) == {} && w.strangers <= w.lost
    ensures w.Living() <= w.lost
  {
    forall p | p in w.Living() ensures p in w.lost {
      assert p in w.ours && p !in w.lost ==> p in Known(w);
    }
  }

  /** A start is decided on only where no recorded runner lives, nor any other but lost ones. */
  lemma StartsInAnEmptyRoom(runner: Option<Pid>, now: int, steps: seq<Step>, a: Actor, s: Sight)
    ensures var w := Exec(Initial(runner, now), steps);
      && (w.lock.Live(a) && w.At(a).Starting? ==> w.Living() <= w.lost)
      && (Enabled(w, Sees(a, s)) && Do(w, Sees(a, s)).At(a).Starting? ==> !RecordedLives(w) && w.Living() <= w.lost)
  {
    var start := Initial(runner, now);
    InitialInv(runner, now);
    RunKeepsInv(start, steps);
    var w := Exec(start, steps);
    assert Sound(w, a);
    if w.lock.Live(a) && w.At(a).Starting? {
      OnlyLostLive(w);
    }
    if Enabled(w, Sees(a, s)) {
      var v := Do(w, Sees(a, s));
      StepKeepsInv(w, Sees(a, s));
      assert Sound(v, a);
      if v.At(a).Starting? {
        OnlyLostLive(v);
      }
    }
  }

  /** Any two recorded replacements of a stuck, broken or isolated runner are REPAIR_BACKOFF_MS apart at least. */
  lemma ReplacementsSpaced(runner: Option<Pid>, now: int, steps: seq<Step>, i: nat, j: nat)
    requires i < j < |Exec(Initial(runner, now), steps).repairs|
    ensures var times := Exec(Initial(runner, now), steps).repairs; times[j] - times[i] >= REPAIR_BACKOFF_MS
  {
    InitialInv(runner, now);
    RunKeepsInv(Initial(runner, now), steps);
  }

  // ---- How two come to live ----

  const NothingThere := Sight(None, Running(false, false), false, Running(false, false))

  function OnLocks(moves: seq<L.Step>): seq<Step> {
    if moves == [] then [] else [OnLock(moves[0])] + OnLocks(moves[1..])
  }

  lemma {:induction false} OnLocksRun(w: World, moves: seq<L.Step>)
    requires forall i :: 0 <= i < |moves| ==> moves[i].Move?
    ensures Exec(w, OnLocks(moves)) == w.(lock := L.Exec(w.lock, moves))
    decreases |moves|
  {
    if moves != [] {
      assert moves[0].Move?;
      OnLocksRun(Do(w, OnLock(moves[0])), moves[1..]);
      assert OnLocks(moves)[1..] == OnLocks(moves[1..]);
    }
  }

  lemma {:induction false} ExecJoins(w: World, first: seq<Step>, second: seq<Step>)
    ensures Exec(w, first + second) == Exec(Exec(w, first), second)
    decreases |first|
  {
    if first == [] {
      assert first + second == second;
    } else {
      assert (first + second)[1..] == first[1..] + second;
      ExecJoins(Do(w, first[0]), first[1..], second);
    }
  }

  /** Under the lock: a second look that finds nothing, and a spawn. */
  function SpawnsUnderLock(a: Actor, pid: Pid): seq<Step> {
    [Enters(a), Sees(a, NothingThere), Starts(a, Spawns(Some(pid)))]
  }

  /** A whole undisturbed repair that finds no runner, up to the spawn. */
  function SpawnsMissing(w: World, a: Actor, pid: Pid): seq<Step> {
    [Begin(a, false, false), Sees(a, NothingThere)] + OnLocks(L.TakesAlone(w.lock, a, 0)) + SpawnsUnderLock(a, pid)
  }

  /** The actor is in no repair, and the lock is there for it to take. */
  predicate CanTake(w: World, a: Actor) {
    w.At(a).Out? && w.lock.Live(a) && w.lock.At(a) == L.Idle && L.Takable(w.lock)
  }

  lemma UnderLockSpawns(w: World, a: Actor, pid: Pid)
    requires w.At(a) == Waiting(false, None, None) && w.lock.Live(a) && w.lock.At(a).Holding? && !RecordedLives(w) && pid !in w.past
    ensures Exec(w, SpawnsUnderLock(a, pid))
      == AfterSpawn(w.Goto(a, Starting(Missing)), a, Spawns(Some(pid)))
  {
    var es := SpawnsUnderLock(a, pid);
    var w1 := w.Goto(a, SecondLook(false, None, None));
    var w2 := w1.Goto(a, Starting(Missing));
    assert Do(w, es[0]) == w1 && Do(w1, es[1]) == w2;
    assert w2 == w.Goto(a, Starting(Missing));
    assert es[1..] == [es[1], es[2]] && [es[1], es[2]][1..] == [es[2]] && [es[2]][1..] == [];
    assert Exec(w, es) == Exec(w1, [es[1], es[2]]) == Exec(w2, [es[2]]) == Exec(Do(w2, es[2]), []);
  }

  lemma OneStep(w: World, s: Step)
    ensures Exec(w, [s]) == Do(w, s)
  {
    assert [s][1..] == [];
    assert Exec(w, [s]) == Exec(Do(w, s), []);
  }

  lemma TwoSteps(w: World, s: Step, t: Step)
    ensures Exec(w, [s, t]) == Do(Do(w, s), t)
  {
    assert [s, t][1..] == [t];
    OneStep(Do(w, s), t);
  }

  lemma ComesToWait(w: World, a: Actor)
    requires w.At(a).Out? && w.lock.Live(a) && !RecordedLives(w)
    ensures Exec(w, [Begin(a, false, false), Sees(a, NothingThere)]) == w.Goto(a, Waiting(false, None, None))
  {
    var w1 := w.Goto(a, FirstLook(false));
    var w2 := w1.Goto(a, Waiting(false, None, None));
    assert Do(w, Begin(a, false, false)) == w1 && Do(w1, Sees(a, NothingThere)) == w2;
    TwoSteps(w, Begin(a, false, false), Sees(a, NothingThere));
    assert w2 == w.Goto(a, Waiting(false, None, None));
  }

  /** What an undisturbed repair that spawns leaves: its runner, living and not yet recorded. */
  lemma MissingIsSpawned(w: World, a: Actor, pid: Pid)
    requires CanTake(w, a) && !RecordedLives(w) && pid !in w.past
    ensures Exec(w, SpawnsMissing(w, a, pid)) ==
      AfterSpawn(w.(lock := L.Exec(w.lock, L.TakesAlone(w.lock, a, 0))).Goto(a, Starting(Missing)), a, Spawns(Some(pid)))
    ensures L.Exec(w.lock, L.TakesAlone(w.lock, a, 0)).Live(a)
  {
    hide Do, AfterSpawn, L.Exec, L.TakesAlone, OnLocks;
    var moves, looks := L.TakesAlone(w.lock, a, 0), [Begin(a, false, false), Sees(a, NothingThere)];
    var w2 := w.Goto(a, Waiting(false, None, None));
    ComesToWait(w, a);
    L.TakesAloneHolds(w.lock, a, 0);
    OnLocksRun(w2, moves);
    var w3 := w2.(lock := L.Exec(w.lock, moves));
    UnderLockSpawns(w3, a, pid);
    ExecJoins(w, looks, OnLocks(moves));
    ExecJoins(w, looks + OnLocks(moves), SpawnsUnderLock(a, pid));
    assert w3.Goto(a, Starting(Missing)) == w.(lock := L.Exec(w.lock, moves)).Goto(a, Starting(Missing));
  }

  /** While a lost runner goes on, the next repair that finds the recorded one gone starts a second. */
  lemma LostRunnerIsDoubled(w: World, a: Actor, lost: Pid, pid: Pid)
    requires CanTake(w, a) && !RecordedLives(w) && lost in w.Living() && w.Living() <= w.past && pid !in w.past
    ensures var v := Exec(w, SpawnsMissing(w, a, pid) + [WritesPid(a, true)]);
      v.recorded == Some(pid) && {lost, pid} <= v.Living() && lost != pid && TwoOf(v.Living())
  {
    hide Exec, SpawnsMissing, L.Exec, L.TakesAlone;
    MissingIsSpawned(w, a, pid);
    ExecJoins(w, SpawnsMissing(w, a, pid), [WritesPid(a, true)]);
    OneStep(Exec(w, SpawnsMissing(w, a, pid)), WritesPid(a, true));
  }

  /** From an empty room: the write of a first runner's pid fails, and the repair throws. */
  function ThrownStart(now: int, a: Actor): seq<Step> {
    SpawnsMissing(Initial(None, now), a, 7) + [WritesPid(a, false), Leaves(a)]
  }

  /** From an empty room: the process of a repair dies between the spawn and the write. */
  function DeadStart(now: int, a: Actor): seq<Step> {
    SpawnsMissing(Initial(None, now), a, 7) + [OnLock(L.Crash(a.pid))]
  }

  lemma FreshTakenAlone(a: Actor)
    ensures L.Exec(L.Fresh, L.TakesAlone(L.Fresh, a, 0)) == L.State(Some(L.LockFile(0, a.pid)), None, {}, map[a := L.Holding])
  {
    var moves := L.TakesAlone(L.Fresh, a, 0);
    var held := L.State(Some(L.LockFile(0, a.pid)), None, {}, map[a := L.Holding]);
    assert L.Next(L.Fresh, a, 0) == held && L.StepsAlone(held, a, 0, 10) == [];
    assert moves == [L.Move(a, 0, false)] && moves[1..] == [];
    assert L.Do(L.Fresh, moves[0]) == held;
    assert L.Exec(L.Fresh, moves) == L.Exec(held, []);
  }

  /** What is left: a lost runner, and a lock that the next repair can take. */
  predicate LeavesLost(w: World, next: Actor) {
    CanTake(w, next) && w.ours == {7} == w.past && w.strangers == {} && w.recorded == None && w.lost == {7}
  }

  lemma FirstSpawn(now: int, a: Actor)
    ensures var u := Exec(Initial(None, now), SpawnsMissing(Initial(None, now), a, 7));
      && u.lock == L.State(Some(L.LockFile(0, a.pid)), None, {}, map[a := L.Holding]) && u.places == map[a := Writing(Some(7), Missing)]
      && u.ours == {7} == u.past && u.strangers == {} && u.recorded == None && u.lost == {} && u.birth == Some(Birth(a, 7))
  {
    hide Exec, SpawnsMissing, L.Exec, L.TakesAlone, Do;
    FreshTakenAlone(a);
    MissingIsSpawned(Initial(None, now), a, 7);
  }

  lemma ThrownLeavesLost(now: int, a: Actor)
    ensures LeavesLost(Exec(Initial(None, now), ThrownStart(now, a)), a)
  {
    hide Exec, SpawnsMissing;
    var w0 := Initial(None, now);
    FirstSpawn(now, a);
    ExecJoins(w0, SpawnsMissing(w0, a, 7), [WritesPid(a, false), Leaves(a)]);
    TwoSteps(Exec(w0, SpawnsMissing(w0, a, 7)), WritesPid(a, false), Leaves(a));
  }

  lemma DeadLeavesLost(now: int, a: Actor, b: Actor)
    requires b.pid != a.pid
    ensures LeavesLost(Exec(Initial(None, now), DeadStart(now, a)), b)
  {
    hide Exec, SpawnsMissing;
    var w0 := Initial(None, now);
    FirstSpawn(now, a);
    ExecJoins(w0, SpawnsMissing(w0, a, 7), [OnLock(L.Crash(a.pid))]);
    OneStep(Exec(w0, SpawnsMissing(w0, a, 7)), OnLock(L.Crash(a.pid)));
  }

  /** So two runners come to live: after a write that failed, the next repair starts one beside it. */
  lemma ThrownWriteDoubles(now: int, a: Actor)
    ensures var w := Exec(Initial(None, now), ThrownStart(now, a));
      TwoOf(Exec(w, SpawnsMissing(w, a, 8) + [WritesPid(a, true)]).Living())
  {
    hide Exec, SpawnsMissing, ThrownStart;
    ThrownLeavesLost(now, a);
    LostRunnerIsDoubled(Exec(Initial(None, now), ThrownStart(now, a)), a, 7, 8);
  }

  /** And so they do when the process dies: another takes over its lock, and starts one beside it. */
  lemma DeadStarterDoubles(now: int, a: Actor, b: Actor)
    requires a.pid != b.pid
    ensures var w := Exec(Initial(None, now), DeadStart(now, a));
      TwoOf(Exec(w, SpawnsMissing(w, b, 8) + [WritesPid(b, true)]).Living())
  {
    hide Exec, SpawnsMissing, DeadStart;
    DeadLeavesLost(now, a, b);
    LostRunnerIsDoubled(Exec(Initial(None, now), DeadStart(now, a)), b, 7, 8);
  }
}
