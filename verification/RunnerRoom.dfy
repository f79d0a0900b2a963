/**
 * `repairRunner` as the source writes it: looks, a wait for the lock, a stop, a record and a start, in a room that other
 * actors, dying processes and strangers change between any two of them.
 *
 * Every operation is a step of the machine of RunnerRepair, so a call is part of a run of it, and what is proved there about
 * every run holds of it.
 */
module RunnerRoom {
  import opened Wrappers
  import L = FileLock
  import opened RunnerRepair

  /** What the caller can't foresee: the others' steps before each of its operations, and what the system reports. */
  datatype Environment = Environment(others: nat -> seq<Step>, sights: nat -> Sight, stamps: nat -> nat, gone: nat -> bool,
    stops: bool, dies: bool, spawn: Spawn, writesPid: bool, writesNote: bool, tries: nat)

  /** Steps of anyone but `me`, in which `me`'s process doesn't die. */
  predicate Spares(step: Step, me: Actor) {
    if step.OnLock? then
      if step.step.Crash? then step.step.pid != me.pid else step.step.a != me
    else Acts(step) ==> step.a != me
  }

  ghost predicate Foreign(steps: seq<Step>, me: Actor) {
    forall i :: 0 <= i < |steps| ==> Spares(steps[i], me)
  }

  /** The others never act for the caller. */
  ghost predicate Fair(e: Environment, me: Actor) {
    forall k :: Foreign(e.others(k), me)
  }

  // ---- What an undisturbed repair does ----

  /** Nobody else does anything, the verdicts about the lock's owners are right, and the second look sees what the first did. */
  ghost predicate Quiet(e: Environment) {
    (forall k :: e.others(k) == [] && e.gone(k)) && e.sights(22) == e.sights(1)
  }

  predicate HeldBack(w: World) {
    w.lastRepair.Some? && w.clock - w.lastRepair.value < 5 * 60_000
  }

  /** The same runners, recorded the same, and no replacement more. */
  predicate NothingDone(w: World, v: World) {
    v.recorded == w.recorded && v.ours == w.ours && v.strangers == w.strangers && v.repairs == w.repairs && v.lastRepair == w.lastRepair
  }

  /** The start goes through: a new child, both of its files written. */
  predicate StartsWell(w: World, e: Environment) {
    e.spawn.Spawns? && e.spawn.child.Some? && e.spawn.child.value !in w.past && e.writesPid && e.writesNote
  }

  /** The child runs and is the recorded runner. */
  predicate Began(w: World, e: Environment, v: World)
    requires StartsWell(w, e)
  {
    v.recorded == e.spawn.child && v.ours == w.ours + {e.spawn.child.value}
  }

  /** The look after the stop finds nothing, or the stopped runner, which may still seem there for a moment. */
  predicate NoOther(e: Environment, stopped: Pid) {
    e.sights(26).found.None? || e.sights(26).found.value.pid == stopped
  }

  /** The runner is stopped, which is recorded unless it was outdated, and another started unless one appeared. */
  ghost predicate ReplacedRight(w: World, e: Environment, pid: Pid, outdated: bool, outcome: Outcome, v: World) {
    if !e.stops then outcome.NotStopped? && v.recorded == w.recorded && v.repairs == w.repairs && v.ours <= w.ours
    else
      && pid !in v.ours + v.strangers
      && v.repairs == w.repairs + (if outdated then [] else [w.clock])
      && (NoOther(e, pid) && StartsWell(w, e) ==>
            outcome == (if outdated then Replaced else Restarted) && Began(w.Without(pid), e, v))
  }

  /** What an undisturbed repair does about the runner it sees under the lock, where that one ails, or about none. */
  ghost predicate MendedRight(w: World, e: Environment, s: Sight, outcome: Outcome, v: World) {
    if s.found.None? then v.repairs == w.repairs && (StartsWell(w, e) ==> outcome.Started? && Began(w, e, v))
    else if !s.found.value.verified then outcome.Unverified? && NothingDone(w, v)
    else if !s.found.value.outdated && HeldBack(w) then outcome.Backoff? && NothingDone(w, v)
    else ReplacedRight(w, e, s.found.value.pid, s.found.value.outdated, outcome, v)
  }

  ghost predicate LockedRight(w: World, e: Environment, s: Sight, broken: bool, outcome: Outcome, v: World) {
    if s.found.Some? && !Ails(s, s.found.value, broken, w.clock) then outcome.Kept? && NothingDone(w, v)
    else MendedRight(w, e, s, outcome, v)
  }

  /** What a whole undisturbed repair answers and does. */
  ghost predicate RepairsRight(w: World, e: Environment, broken: bool, outcome: Outcome, v: World) {
    var s := e.sights(1);
    if s.found.Some? && !Ails(s, s.found.value, broken, w.clock) then outcome.Kept? && NothingDone(w, v)
    else if s.runs.daemon || s.runs.watcher then
      outcome == OwnedBy(if s.runs.daemon then Daemon else Watcher) && NothingDone(w, v)
    else InTurnRight(w, e, broken, outcome, v)
  }

  ghost predicate InTurnRight(w: World, e: Environment, broken: bool, outcome: Outcome, v: World) {
    if !L.Takable(w.lock) then outcome.Busy? && NothingDone(w, v)
    else LockedRight(w, e, e.sights(1), broken, outcome, v)
  }

  /** The two worlds differ in the lock, the actors' places and deeds at most. */
  predicate Alike(w: World, v: World) {
    v == w.(lock := v.lock, places := v.places, deeds := v.deeds)
  }

  /** A child that is there, its pid not written yet. */
  function WithChild(w: World, a: Actor, child: Option<Pid>): World {
    if child.None? then w
    else w.(ours := w.ours + {child.value}, past := w.past + {child.value}, birth := Some(Birth(a, child.value)))
  }

  /** What is left once the runner was stopped, or not, and that recorded. */
  function AfterStopping(w: World, pid: Pid, why: Why, ok: bool, died: bool): World {
    if !ok then (if died then w.Without(pid) else w)
    else if why.Outdated? then w.Without(pid)
    else w.Without(pid).(lastRepair := Some(w.clock), repairs := w.repairs + [w.clock])
  }

  /** A start adds new runners at most, and no replacement. */
  predicate OnlyStarts(w: World, v: World) {
    v.repairs == w.repairs && v.strangers == w.strangers && v.ours * w.past == w.ours * w.past
  }

  /** The child once it is recorded. */
  function WithRecorded(w: World, child: Option<Pid>): World {
    w.(ours := if child.Some? then w.ours + {child.value} else w.ours,
       past := if child.Some? then w.past + {child.value} else w.past, birth := None, recorded := child)
  }

  lemma StoppedThenStarted(w: World, e: Environment, pid: Pid, why: Why, outcome: Outcome, u: World, v: World)
    requires w.recorded == Some(pid) && pid in w.past && e.stops && !why.Missing?
    requires Alike(AfterStopping(w, pid, why, true, e.dies), u) && OnlyStarts(u, v)
    requires NoOther(e, pid) && StartsWell(u, e) ==> outcome == OutcomeOf(why) && Alike(WithRecorded(u, e.spawn.child), v)
    ensures ReplacedRight(w, e, pid, why.Outdated?, outcome, v)
  {
    assert pid !in u.ours * u.past;
    assert pid !in v.ours * u.past;
  }

  lemma StoppedOrNot(w: World, e: Environment, pid: Pid, why: Why, u: World)
    requires w.recorded == Some(pid) && Alike(AfterStopping(w, pid, why, e.stops, e.dies), u)
    ensures if e.stops then u.recorded == Some(pid) && !RecordedLives(u) else ReplacedRight(w, e, pid, why.Outdated?, NotStopped, u)
  {
  }

  /** Places, deeds and the lock make no difference to what is done. */
  lemma RightAlike(w: World, u: World, e: Environment, broken: bool, outcome: Outcome, v: World)
    requires Alike(w, u) && L.Takable(w.lock) == L.Takable(u.lock)
    ensures RepairsRight(u, e, broken, outcome, v) ==> RepairsRight(w, e, broken, outcome, v)
  {
    hide InTurnRight;
    InTurnAlike(w, u, e, broken, outcome, v);
  }

  lemma MendedAlike(w: World, u: World, e: Environment, s: Sight, outcome: Outcome, v: World)
    ensures Alike(w, u) && MendedRight(u, e, s, outcome, v) ==> MendedRight(w, e, s, outcome, v)
  {
  }

  lemma InTurnAlike(w: World, u: World, e: Environment, broken: bool, outcome: Outcome, v: World)
    ensures Alike(w, u) && L.Takable(w.lock) == L.Takable(u.lock) && InTurnRight(u, e, broken, outcome, v) ==>
      InTurnRight(w, e, broken, outcome, v)
  {
    hide LockedRight;
    if Alike(w, u) { LockedAlike(w, u, e, e.sights(1), broken, outcome, v, v); }
  }

  lemma LockedAlike(w: World, u: World, e: Environment, s: Sight, broken: bool, outcome: Outcome, u1: World, v: World)
    requires Alike(w, u) && Alike(u1, v)
    ensures LockedRight(u, e, s, broken, outcome, u1) ==> LockedRight(w, e, s, broken, outcome, v)
  {
  }

  // ---- What the others leave alone ----

  lemma ForeignStepLeavesMe(w: World, step: Step, me: Actor)
    requires Spares(step, me) && w.lock.Live(me)
    ensures var v := Do(w, step);
      v.At(me) == w.At(me) && v.Deeds(me) == w.Deeds(me) && v.lock.At(me) == w.lock.At(me) && v.lock.Live(me)
  {
    if Enabled(w, step) {
      OthersStay(w, step, me);
      if step.OnLock? && L.Enabled(w.lock, step.step) && step.step.Move? {
        L.OthersStay(w.lock, step.step.a, step.step.stamp, step.step.gone, me);
      }
    }
  }

  lemma {:induction false} ForeignStepsLeaveMe(w: World, steps: seq<Step>, me: Actor)
    requires Foreign(steps, me) && w.lock.Live(me)
    ensures var v := Exec(w, steps);
      v.At(me) == w.At(me) && v.Deeds(me) == w.Deeds(me) && v.lock.At(me) == w.lock.At(me) && v.lock.Live(me)
    decreases |steps|
  {
    if steps != [] {
      assert Spares(steps[0], me);
      ForeignStepLeavesMe(w, steps[0], me);
      ForeignStepsLeaveMe(Do(w, steps[0]), steps[1..], me);
    }
  }

  lemma MoveCounts(s: L.State, a: Actor, stamp: nat, gone: bool)
    ensures var t := L.Advance(s, a, stamp, gone);
      (L.Left(s.At(a)) > 0 ==> L.Left(t.At(a)) < L.Left(s.At(a)))
      && t.dead == s.dead
  {
  }

  /** What an outcome says the call did, in order. */
  predicate Fits(outcome: Outcome, deeds: seq<Deed>) {
    match outcome
    case InAWake => deeds == []
    case OwnedBy(owner) => !owner.Command? && deeds == []
    case Kept => deeds == [] || StoppedFirst(deeds)
    case Started => |deeds| == 1 && deeds[0].Spawned?
    case Replaced => |deeds| == 2 && deeds[0].Stopped? && deeds[1].Spawned?
    case Restarted => |deeds| == 3 && deeds[0].Stopped? && deeds[1].Recorded? && deeds[2].Spawned?
    case Unverified => deeds == []
    case NotStopped => deeds == []
    case Backoff => deeds == []
    case Busy => deeds == []
    case Threw =>
      var before := if deeds != [] && deeds[|deeds| - 1].Spawned? then deeds[..|deeds| - 1] else deeds;
      before == [] || StoppedFirst(before)
  }

  /** A stop, and its record unless the runner was an outdated one. */
  predicate StoppedFor(deeds: seq<Deed>, outdated: bool) {
    |deeds| == (if outdated then 1 else 2) && deeds[0].Stopped? && (outdated || deeds[1].Recorded?)
  }

  predicate StoppedFirst(deeds: seq<Deed>) {
    StoppedFor(deeds, true) || StoppedFor(deeds, false)
  }

  /** A start after a stop, and one that throws before or after its spawn, fit their outcomes. */
  lemma StartFits(was: seq<Deed>, stopped: seq<Deed>, spawn: Spawn, outcome: Outcome, why: Why)
    requires was <= stopped && StoppedFor(stopped[|was|..], why.Outdated?) && !why.Missing?
    requires outcome.Threw? || (spawn.Spawns? && outcome == OutcomeOf(why))
    ensures var did := stopped + DeedsOf(spawn); was <= did && Fits(outcome, did[|was|..])
  {
    var did := stopped + DeedsOf(spawn);
    assert did[|was|..] == stopped[|was|..] + DeedsOf(spawn);
    if spawn.Spawns? {
      assert did[|was|..][..|did| - |was| - 1] == stopped[|was|..];
    }
  }

  /** Where nothing was stopped: a start of a missing runner, and every end that did nothing. */
  lemma NothingStoppedFits(spawn: Spawn, outcome: Outcome)
    ensures outcome.Threw? || (spawn.Spawns? && outcome.Started?) ==> Fits(outcome, DeedsOf(spawn))
    ensures outcome.Kept? || outcome.Unverified? || outcome.Backoff? || outcome.Busy? || (outcome.OwnedBy? && !outcome.owner.Command?) ==>
      Fits(outcome, [])
  {
    if spawn.Spawns? {
      assert DeedsOf(spawn)[..0] == [];
    }
  }

  function DeedsOf(spawn: Spawn): seq<Deed> {
    if spawn.Spawns? then [Spawned(spawn.child)] else []
  }

  class Room {
    var lock: L.State
    var places: map<Actor, Place>
    var recorded: Option<Pid>
    var ours: set<Pid>
    var strangers: set<Pid>
    var past: set<Pid>
    var birth: Option<Birth>
    var lost: set<Pid>
    var lastRepair: Option<int>
    var repairs: seq<int>
    var deeds: map<Actor, seq<Deed>>
    var clock: int
    /** The run so far: the steps, by everyone, that led from the world the room had at first to the one it has. */
    ghost var start: World
    ghost var run: seq<Step>

    function View(): World
      reads this
    {
      World(lock, places, recorded, ours, strangers, past, birth, lost, lastRepair, repairs, deeds, clock)
    }

    /** The room is where its run leads, and the caller's process lives. */
    ghost predicate Valid(me: Actor)
      reads this
    {
      Inv(start) && View() == Exec(start, run) && lock.Live(me)
    }

    constructor (runner: Option<Pid>, now: int)
      ensures View() == Initial(runner, now) && forall me :: Valid(me)
    {
      var pids := if runner.Some? then {runner.value} else {};
      lock, places, recorded, ours, strangers, past := L.Fresh, map[], runner, pids, {}, pids;
      birth, lost := None, {};
      lastRepair, repairs, deeds, clock := None, [], map[], now;
      start, run := Initial(runner, now), [];
      new;
      InitialInv(runner, now);
    }

    /** Whatever the others do before `me`'s next operation. */
    method Interfere(me: Actor, steps: seq<Step>)
      requires Valid(me) && Foreign(steps, me)
      modifies this
      ensures Valid(me) && start == old(start) && run == old(run) + steps
      ensures View().At(me) == old(View().At(me)) && View().Deeds(me) == old(View().Deeds(me)) && lock.At(me) == old(lock.At(me))
    {
      hide Exec, Inv, Advance, Enabled, Foreign;
      ForeignStepsLeaveMe(View(), steps, me);
      ExecJoins(start, run, steps);
      var w := Exec(View(), steps);
      lock, places, recorded, ours, strangers, past := w.lock, w.places, w.recorded, w.ours, w.strangers, w.past;
      birth, lost := w.birth, w.lost;
      lastRepair, repairs, deeds, clock := w.lastRepair, w.repairs, w.deeds, w.clock;
      run := run + steps;
    }

    /** What the others do before the caller's `k`-th operation: nothing, if they are quiet. */
    method Meanwhile(me: Actor, e: Environment, k: nat)
      requires Valid(me) && Fair(e, me)
      modifies this
      ensures Valid(me) && start == old(start) && run == old(run) + e.others(k)
      ensures View().At(me) == old(View().At(me)) && View().Deeds(me) == old(View().Deeds(me)) && lock.At(me) == old(lock.At(me))
      ensures Quiet(e) ==> View() == old(View())
    {
      hide Exec, Inv, Foreign;
      if e.others(k) == [] {
        assert run + e.others(k) == run;
      } else {
        Interfere(me, e.others(k));
      }
    }

    /** The caller performed its next operation: the run is one step longer. */
    ghost method Perform(me: Actor, before: World, step: Step)
      requires Inv(start) && before == Exec(start, run)
      requires View() == Do(before, step) && lock.Live(me)
      modifies this`run
      ensures Valid(me) && run == old(run) + [step]
    {
      hide Inv;
      ExecJoins(start, run, [step]);
      run := run + [step];
    }

    /** One look at the runner: sound, and otherwise whatever it happens to be. */
    method Look(me: Actor, e: Environment, k: nat) returns (s: Sight)
      requires Valid(me) && (View().At(me).FirstLook? || View().At(me).SecondLook? || View().At(me).ThirdLook?) && Fair(e, me)
      modifies this
      ensures Valid(me) && start == old(start) && old(run) < run && run[|run| - 1] == Sees(me, s) && LookSound(View(), s.found)
      ensures View().Deeds(me) == old(View().Deeds(me)) && lock.At(me) == old(lock.At(me))
      ensures var p := old(View().At(me));
        View().At(me) == if p.FirstLook? then AfterFirst(p.broken, s, clock)
                         else if p.SecondLook? then AfterSecond(p, s, clock, lastRepair) else AfterThird(p, s)
      ensures Quiet(e) ==> Alike(old(View()), View()) && lock == old(lock)
      ensures Quiet(e) && LookSound(old(View()), e.sights(k).found) ==> s == e.sights(k)
    {
      hide Exec, Inv;
      Meanwhile(me, e, k);
      s := SoundSight(e.sights(k));
      ghost var before := View();
      assert Enabled(before, Sees(me, s));
      places := Advance(View(), Sees(me, s)).places;
      Perform(me, before, Sees(me, s));
    }

    /** What the system reports of the recorded process, as far as it is true. */
    method SoundSight(reported: Sight) returns (s: Sight)
      ensures LookSound(View(), s.found)
      ensures LookSound(View(), reported.found) ==> s == reported
    {
      s := reported;
      if s.found.Some? && recorded != Some(s.found.value.pid) { s := s.(found := None); }
      if s.found.None? && recorded.Some? && recorded.value in ours + strangers {
        s := s.(found := Some(Found(recorded.value, true, false, false, None)));
      }
    }

    /** `needs`, asked of a look; `probed` is what the room service answered this repair, if it was asked. */
    method NeedsOf(s: Sight, broken: bool, probed: Option<bool>) returns (why: Option<Why>, known: Option<bool>)
      ensures why == Needs(s, broken, probed, clock) && known == Probed(s, broken, probed, clock)
    {
      known := probed;
      if s.found.None? { return Some(Missing), known; }
      var runner := s.found.value;
      if runner.outdated { return Some(Outdated), known; }
      if runner.stuck { return Some(Stuck), known; }
      if broken { return Some(Broken), known; }
      var failing := runner.silence.Some? && !runner.silence.value.reached && clock - runner.silence.value.since > RUNNER_ISOLATED_MS;
      if !failing || RunnerOwner(false, s.asked) != Command { return None, known; }
      if known.None? { known := Some(s.probe); }
      why := if known.value then Some(Isolated) else None;
    }

    /** One call of `tryLock`, its file operations among everyone's. */
    method TryLock(me: Actor, e: Environment) returns (won: bool)
      requires Valid(me) && lock.At(me).Idle? && Fair(e, me)
      modifies this
      ensures Valid(me) && start == old(start) && lock.At(me) == (if won then L.Holding else L.Idle)
      ensures View().At(me) == old(View().At(me)) && View().Deeds(me) == old(View().Deeds(me))
      ensures Quiet(e) ==> View() == old(View()).(lock := lock) && (won <==> L.Takable(old(lock))) && (!won ==> !L.Takable(lock))
    {
      hide Exec, Inv, L.OnCourse, L.Next;
      Move(me, e, 20);
      if Quiet(e) { L.StaysOnCourse(old(lock), old(lock), me, e.stamps(20)); }
      while !lock.At(me).Idle? && !lock.At(me).Holding?
        invariant Valid(me) && start == old(start)
        invariant Quiet(e) ==> View() == old(View()).(lock := lock) && L.OnCourse(old(lock), lock, me)
        invariant View().At(me) == old(View().At(me)) && View().Deeds(me) == old(View().Deeds(me))
        decreases L.Left(lock.At(me))
      {
        ghost var before := lock;
        Move(me, e, L.Left(lock.At(me)));
        if Quiet(e) { L.StaysOnCourse(old(lock), before, me, e.stamps(L.Left(before.At(me)))); }
      }
      won := lock.At(me).Holding?;
      if Quiet(e) { L.EndsOnCourse(old(lock), lock, me); }
    }

    /** The caller's next file operation of the lock; `gone` never calls a live process gone. */
    method Move(me: Actor, e: Environment, k: nat)
      requires Valid(me) && Fair(e, me)
      modifies this
      ensures Valid(me) && start == old(start)
      ensures View().At(me) == old(View().At(me)) && View().Deeds(me) == old(View().Deeds(me))
      ensures L.Left(old(lock.At(me))) > 0 ==> L.Left(lock.At(me)) < L.Left(old(lock.At(me)))
      ensures Quiet(e) ==> View() == old(View()).(lock := L.Next(old(lock), me, e.stamps(k)))
    {
      hide Exec, Inv;
      Meanwhile(me, e, k);
      var judged := L.Judged(lock.At(me));
      var gone := e.gone(k) && judged.Some? && judged.value in lock.dead;
      ghost var before := View();
      MoveCounts(lock, me, e.stamps(k), gone);
      lock := L.Advance(lock, me, e.stamps(k), gone);
      Perform(me, before, OnLock(L.Move(me, e.stamps(k), gone)));
    }

    /** Calls of `tryLock`, one after another, until one takes the lock or there were enough. */
    method Try(me: Actor, e: Environment) returns (won: bool)
      requires Valid(me) && lock.At(me).Idle? && Fair(e, me)
      modifies this
      ensures Valid(me) && start == old(start) && lock.At(me) == (if won then L.Holding else L.Idle)
      ensures View().At(me) == old(View().At(me)) && View().Deeds(me) == old(View().Deeds(me))
      ensures Quiet(e) ==> View() == old(View()).(lock := lock) && (won <==> L.Takable(old(lock)))
    {
      hide Exec, Inv, L.Takable;
      won := TryLock(me, e);
      var tries := e.tries;
      while !won && tries > 0
        invariant Valid(me) && start == old(start) && lock.At(me) == (if won then L.Holding else L.Idle)
        invariant View().At(me) == old(View().At(me)) && View().Deeds(me) == old(View().Deeds(me))
        invariant Quiet(e) ==> View() == old(View()).(lock := lock) && (won <==> L.Takable(old(lock))) && (!won ==> !L.Takable(lock))
        decreases tries
      {
        won := TryLock(me, e);
        tries := tries - 1;
      }
    }

    /** `withLock`'s wait: tries until it holds the lock, or gives up. */
    method Wait(me: Actor, e: Environment) returns (won: bool)
      requires Valid(me) && View().At(me).Waiting? && lock.At(me).Idle? && Fair(e, me)
      modifies this
      ensures Valid(me) && start == old(start) && View().Deeds(me) == old(View().Deeds(me))
      ensures lock.At(me) == (if won then L.Holding else L.Idle)
      ensures var p := old(View().At(me)); View().At(me) == if won then SecondLook(p.broken, p.first, p.probed) else Out
      ensures Quiet(e) ==> Alike(old(View()), View()) && (won <==> L.Takable(old(lock)))
    {
      hide Exec, Inv, L.Takable;
      won := Try(me, e);
      ghost var before := View();
      var p := View().At(me);
      if won {
        places := places[me := SecondLook(p.broken, p.first, p.probed)];
        Perform(me, before, Enters(me));
      } else {
        places := places[me := Out];
        Perform(me, before, GivesUp(me));
      }
    }

    /** Stops the runner found; false when it couldn't be confirmed as the runner or didn't go. */
    method Stop(me: Actor, e: Environment) returns (ok: bool)
      requires Valid(me) && View().At(me).Stopping?
      modifies this
      ensures Valid(me) && start == old(start) && run == old(run) + [Stops(me, ok, e.dies)] && ok == e.stops && lock == old(lock)
      ensures var p := old(View().At(me));
        && View().Deeds(me) == old(View().Deeds(me)) + (if ok then [Stopped(p.pid)] else [])
        && View().At(me) == if !ok then Leaving(NotStopped) else if p.why.Outdated? then ThirdLook(p.pid, p.why) else Recording(p.pid, p.why)
      ensures Alike(if ok || e.dies then old(View()).Without(old(View().At(me)).pid) else old(View()), View())
      ensures ok ==> old(View().At(me)).pid !in ours + strangers
    {
      hide Exec, Inv, AfterSpawn, AfterPidWrite, AfterRecord, AfterDeath, LookSound, AfterFirst, AfterSecond, AfterThird;
      ok := e.stops;
      ghost var before := View();
      var p := View().At(me);
      if ok || e.dies { ours, strangers := ours - {p.pid}, strangers - {p.pid}; }
      if ok {
        deeds := deeds[me := View().Deeds(me) + [Stopped(p.pid)]];
        places := places[me := if p.why.Outdated? then ThirdLook(p.pid, p.why) else Recording(p.pid, p.why)];
      } else {
        places := places[me := Leaving(NotStopped)];
      }
      Perform(me, before, Stops(me, ok, e.dies));
    }

    method RecordRepair(me: Actor)
      requires Valid(me) && View().At(me).Recording?
      modifies this
      ensures Valid(me) && start == old(start) && run == old(run) + [Records(me)] && lock == old(lock)
      ensures Alike(old(View()).(lastRepair := Some(clock), repairs := old(repairs) + [clock]), View())
      ensures lastRepair == Some(clock) && View().Deeds(me) == old(View().Deeds(me)) + [Recorded(clock)]
      ensures View().At(me) == ThirdLook(old(View().At(me)).pid, old(View().At(me)).why)
    {
      hide Exec, Inv, AfterSpawn, AfterPidWrite, AfterStop, AfterDeath, LookSound, AfterFirst, AfterSecond, AfterThird;
      ghost var before := View();
      var p := View().At(me);
      lastRepair, repairs := Some(clock), repairs + [clock];
      deeds := deeds[me := View().Deeds(me) + [Recorded(clock)]];
      places := places[me := ThirdLook(p.pid, p.why)];
      Perform(me, before, Records(me));
    }

    /** Spawns a runner, under an id that no runner had; or throws before that. */
    method SpawnOne(me: Actor, e: Environment) returns (spawn: Spawn)
      requires Valid(me) && View().At(me).Starting?
      modifies this
      ensures Valid(me) && start == old(start) && run == old(run) + [Starts(me, spawn)] && lock == old(lock)
      ensures View().Deeds(me) == old(View().Deeds(me)) + DeedsOf(spawn)
      ensures View().At(me) == if spawn.Spawns? then Writing(spawn.child, old(View().At(me)).why) else Leaving(Threw)
      ensures Alike(if spawn.Spawns? then WithChild(old(View()), me, spawn.child) else old(View()), View())
      ensures spawn.Spawns? && spawn.child.Some? ==> spawn.child.value !in old(past)
      ensures e.spawn.Spawns? && (e.spawn.child.Some? ==> e.spawn.child.value !in old(past)) ==> spawn == e.spawn
    {
      hide Exec, Inv;
      spawn := e.spawn;
      if spawn.Spawns? && spawn.child.Some? && spawn.child.value in past { spawn := Refused; }
      if spawn.Refused? {
        Refuse(me);
      } else {
        SpawnChild(me, spawn.child);
      }
    }

    method Refuse(me: Actor)
      requires Valid(me) && View().At(me).Starting?
      modifies this
      ensures Valid(me) && start == old(start) && run == old(run) + [Starts(me, Refused)] && lock == old(lock)
      ensures View().Deeds(me) == old(View().Deeds(me)) && View().At(me) == Leaving(Threw) && Alike(old(View()), View())
    {
      hide Exec, Inv, AfterPidWrite, AfterStop, AfterRecord, AfterDeath, LookSound, AfterFirst, AfterSecond, AfterThird;
      ghost var before := View();
      places := places[me := Leaving(Threw)];
      Perform(me, before, Starts(me, Refused));
    }

    method SpawnChild(me: Actor, child: Option<Pid>)
      requires Valid(me) && View().At(me).Starting? && (child.Some? ==> child.value !in past)
      modifies this
      ensures Valid(me) && start == old(start) && run == old(run) + [Starts(me, Spawns(child))] && lock == old(lock)
      ensures View().Deeds(me) == old(View().Deeds(me)) + [Spawned(child)] && View().At(me) == Writing(child, old(View().At(me)).why)
      ensures Alike(WithChild(old(View()), me, child), View())
    {
      hide Exec, Inv, AfterPidWrite, AfterStop, AfterRecord, AfterDeath, LookSound, AfterFirst, AfterSecond, AfterThird;
      ghost var before := View();
      if child.Some? {
        ours, past, birth := ours + {child.value}, past + {child.value}, Some(Birth(me, child.value));
      }
      deeds := deeds[me := View().Deeds(me) + [Spawned(child)]];
      places := places[me := Writing(child, View().At(me).why)];
      Perform(me, before, Starts(me, Spawns(child)));
    }

    /** Writes the spawned runner's pid; a write that fails throws, with the runner spawned. */
    method WritePid(me: Actor, ok: bool)
      requires Valid(me) && View().At(me).Writing?
      modifies this
      ensures Valid(me) && start == old(start) && run == old(run) + [WritesPid(me, ok)] && lock == old(lock)
      ensures View().Deeds(me) == old(View().Deeds(me))
      ensures View().At(me) == if ok then Noting(old(View().At(me)).why) else Leaving(Threw)
      ensures var was, child := old(View()), old(View().At(me)).child;
        Alike(if ok then was.(birth := None, recorded := child)
              else was.(birth := None, lost := if child.Some? then was.lost + {child.value} else was.lost), View())
    {
      hide Exec, Inv, AfterSpawn, AfterStop, AfterRecord, AfterDeath, LookSound, AfterFirst, AfterSecond, AfterThird;
      ghost var before := View();
      var p := View().At(me);
      birth := None;
      if ok {
        recorded := p.child;
        places := places[me := Noting(p.why)];
      } else {
        if p.child.Some? { lost := lost + {p.child.value}; }
        places := places[me := Leaving(Threw)];
      }
      Perform(me, before, WritesPid(me, ok));
    }

    method WriteNote(me: Actor, ok: bool)
      requires Valid(me) && View().At(me).Noting?
      modifies this
      ensures Valid(me) && start == old(start) && run == old(run) + [WritesNote(me, ok)] && lock == old(lock)
      ensures View().Deeds(me) == old(View().Deeds(me))
      ensures View().At(me) == Leaving(if ok then OutcomeOf(old(View().At(me)).why) else Threw) && Alike(old(View()), View())
    {
      hide Exec, Inv;
      ghost var before := View();
      places := places[me := Leaving(if ok then OutcomeOf(View().At(me).why) else Threw)];
      Perform(me, before, WritesNote(me, ok));
    }

    /** The lock is released, whatever happened under it. */
    method Leave(me: Actor, e: Environment)
      requires Valid(me) && View().At(me).Leaving? && lock.At(me).Holding? && Fair(e, me)
      modifies this
      ensures Valid(me) && start == old(start) && View().At(me).Out? && lock.At(me).Idle? && lock.lock.None?
      ensures View().Deeds(me) == old(View().Deeds(me)) && (Quiet(e) ==> Alike(old(View()), View()))
    {
      hide Exec, Inv, AfterSpawn, AfterPidWrite, AfterStop, AfterRecord, AfterDeath, LookSound, AfterFirst, AfterSecond, AfterThird;
      Meanwhile(me, e, 40);
      ghost var before := View();
      lock := L.State(None, lock.reclaim, lock.dead, lock.at[me := L.Idle]);
      places := places[me := Out];
      Perform(me, before, Leaves(me));
    }

    /** A start, the last thing done under the lock: a spawn, and the writes that record it. */
    method StartAndSay(me: Actor, e: Environment, why: Why) returns (outcome: Outcome, spawn: Spawn)
      requires Valid(me) && View().At(me) == Starting(why) && lock.At(me).Holding? && Fair(e, me)
      modifies this
      ensures Valid(me) && start == old(start) && View().At(me) == Leaving(outcome) && lock.At(me).Holding?
      ensures outcome.Threw? || (outcome == OutcomeOf(why) && spawn.Spawns?)
      ensures View().Deeds(me) == old(View().Deeds(me)) + DeedsOf(spawn)
      ensures Quiet(e) && StartsWell(old(View()), e) ==> outcome == OutcomeOf(why) && Alike(WithRecorded(old(View()), e.spawn.child), View())
      ensures Quiet(e) ==> OnlyStarts(old(View()), View())
    {
      hide Exec, Inv;
      Meanwhile(me, e, 30);
      spawn := SpawnOne(me, e);
      if spawn.Refused? { return Threw, spawn; }
      outcome := Note(me, e, spawn.child, why);
    }

    method Note(me: Actor, e: Environment, child: Option<Pid>, why: Why) returns (outcome: Outcome)
      requires Valid(me) && View().At(me) == Writing(child, why) && lock.At(me).Holding? && Fair(e, me)
      modifies this
      ensures Valid(me) && start == old(start) && View().At(me) == Leaving(outcome) && lock.At(me).Holding?
      ensures outcome.Threw? || outcome == OutcomeOf(why)
      ensures View().Deeds(me) == old(View().Deeds(me))
      ensures Quiet(e) && e.writesPid && e.writesNote ==>
        outcome == OutcomeOf(why) && Alike(old(View()).(birth := None, recorded := child), View())
      ensures Quiet(e) ==> Alike(old(View()).(birth := None, recorded := recorded, lost := lost), View())
    {
      hide Exec, Inv;
      Meanwhile(me, e, 31);
      WritePid(me, e.writesPid);
      if !e.writesPid { return Threw; }
      Meanwhile(me, e, 32);
      WriteNote(me, e.writesNote);
      outcome := if e.writesNote then OutcomeOf(why) else Threw;
    }

    /** The runner found is stopped, and that recorded, unless it was an outdated one. */
    method StopFirst(me: Actor, e: Environment, pid: Pid, why: Why) returns (ok: bool)
      requires Valid(me) && View().At(me) == Stopping(pid, why) && lock.At(me).Holding? && Fair(e, me)
      modifies this
      ensures Valid(me) && start == old(start) && lock.At(me).Holding?
      ensures View().At(me) == if ok then ThirdLook(pid, why) else Leaving(NotStopped)
      ensures var did, was := View().Deeds(me), old(View().Deeds(me));
        was <= did && if ok then StoppedFor(did[|was|..], why.Outdated?) else did == was
      ensures Quiet(e) ==> ok == e.stops && Alike(AfterStopping(old(View()), pid, why, ok, e.dies), View())
    {
      hide Exec, Inv;
      Meanwhile(me, e, 24);
      ok := Stop(me, e);
      if ok && !why.Outdated? {
        Meanwhile(me, e, 25);
        RecordRepair(me);
      }
    }

    /** Another is started only if none appeared since the stop. */
    method StartUnlessAnother(me: Actor, e: Environment, stopped: Pid, why: Why) returns (outcome: Outcome, spawn: Spawn)
      requires Valid(me) && View().At(me) == ThirdLook(stopped, why) && lock.At(me).Holding? && Fair(e, me)
      modifies this
      ensures Valid(me) && start == old(start) && View().At(me) == Leaving(outcome) && lock.At(me).Holding?
      ensures outcome.Threw? || (outcome.Kept? && spawn.Refused?) || (outcome == OutcomeOf(why) && spawn.Spawns?)
      ensures View().Deeds(me) == old(View().Deeds(me)) + DeedsOf(spawn)
      ensures Quiet(e) && NoOther(e, stopped) && old(recorded) == Some(stopped) && !RecordedLives(old(View())) && StartsWell(old(View()), e) ==>
        outcome == OutcomeOf(why) && Alike(WithRecorded(old(View()), e.spawn.child), View())
      ensures Quiet(e) ==> OnlyStarts(old(View()), View())
    {
      hide Exec, Inv;
      var after := Look(me, e, 26);
      if after.found.Some? && after.found.value.pid != stopped { return Kept, Refused; }
      outcome, spawn := StartAndSay(me, e, why);
    }

    /** A runner about to be stopped was one. */
    lemma PidKnown(me: Actor)
      requires Valid(me) && View().At(me).Stopping?
      ensures View().At(me).pid in past
    {
      RunKeepsInv(start, run);
      assert Sound(View(), me);
    }

    method Replace(me: Actor, e: Environment, pid: Pid, why: Why) returns (outcome: Outcome)
      requires Valid(me) && View().At(me) == Stopping(pid, why) && !why.Missing? && lock.At(me).Holding? && Fair(e, me)
      modifies this
      ensures Valid(me) && start == old(start) && View().At(me) == Leaving(outcome) && lock.At(me).Holding?
      ensures var did, was := View().Deeds(me), old(View().Deeds(me)); was <= did && Fits(outcome, did[|was|..])
      ensures !outcome.InAWake?
      ensures Quiet(e) && old(recorded) == Some(pid) ==> ReplacedRight(old(View()), e, pid, why.Outdated?, outcome, View())
    {
      hide Exec, Inv, ReplacedRight, AfterStopping, WithRecorded, OnlyStarts, StartsWell, NoOther, Alike, RecordedLives;
      PidKnown(me);
      ghost var before := View();
      ghost var was := before.Deeds(me);
      var ok := StopFirst(me, e, pid, why);
      if Quiet(e) && before.recorded == Some(pid) { StoppedOrNot(before, e, pid, why, View()); }
      if !ok { return NotStopped; }
      ghost var between := View();
      ghost var stopped := between.Deeds(me);
      var spawn;
      outcome, spawn := StartUnlessAnother(me, e, pid, why);
      if Quiet(e) && before.recorded == Some(pid) {
        StoppedThenStarted(before, e, pid, why, outcome, between, View());
      }
      if !outcome.Kept? {
        StartFits(was, stopped, spawn, outcome, why);
      }
    }

    /** The work under the lock: the second look, and what it calls for. */
    method UnderLock(me: Actor, e: Environment, broken: bool, first: Option<Pid>, probed: Option<bool>) returns (outcome: Outcome)
      requires Valid(me) && View().At(me) == SecondLook(broken, first, probed) && lock.At(me).Holding?
      requires Fair(e, me)
      modifies this
      ensures Valid(me) && start == old(start) && View().At(me) == Leaving(outcome) && lock.At(me).Holding?
      ensures var did, was := View().Deeds(me), old(View().Deeds(me)); was <= did && Fits(outcome, did[|was|..])
      ensures !outcome.InAWake?
      ensures var s := e.sights(22);
        Quiet(e) && LookSound(old(View()), s.found) && first == PidOf(s.found) && (probed.Some? ==> probed.value == s.probe) ==>
          LockedRight(old(View()), e, s, broken, outcome, View())
    {
      hide Exec, Inv, Needs, Probed, Fits, Ails, MendedRight;
      NothingStoppedFits(Refused, Kept);
      ghost var before := View();
      ghost var was := before.Deeds(me);
      var s := Look(me, e, 22);
      assert View().Deeds(me)[|was|..] == [];
      NeedsWhenAiling(s, broken, probed, clock);
      var why, _ := NeedsOf(s, broken, probed);
      if s.found.Some? && broken && PidOf(s.found) != first && !s.found.value.stuck && !s.found.value.outdated {
        return Kept;
      }
      if why.None? { return Kept; }
      ghost var seen := View();
      outcome := Mend(me, e, s, why.value);
      MendedAlike(before, seen, e, s, outcome, View());
    }

    /** A runner is started where there was none; one that ails is left, or replaced. */
    method Mend(me: Actor, e: Environment, s: Sight, why: Why) returns (outcome: Outcome)
      requires Valid(me) && lock.At(me).Holding? && Fair(e, me) && (why.Missing? <==> s.found.None?)
      requires View().At(me) == (
        if s.found.None? then Starting(Missing)
        else if !s.found.value.verified then Leaving(Unverified)
        else if !why.Outdated? && lastRepair.Some? && clock - lastRepair.value < REPAIR_BACKOFF_MS then Leaving(Backoff)
        else Stopping(s.found.value.pid, why))
      modifies this
      ensures Valid(me) && start == old(start) && View().At(me) == Leaving(outcome) && lock.At(me).Holding?
      ensures var did, was := View().Deeds(me), old(View().Deeds(me)); was <= did && Fits(outcome, did[|was|..])
      ensures !outcome.InAWake?
      ensures Quiet(e) && (s.found.Some? ==> old(recorded) == PidOf(s.found) && (why.Outdated? <==> s.found.value.outdated)) ==>
        MendedRight(old(View()), e, s, outcome, View())
    {
      hide Exec, Inv, Fits, ReplacedRight;
      NothingStoppedFits(Refused, Unverified);
      NothingStoppedFits(Refused, Backoff);
      ghost var was := View().Deeds(me);
      assert View().Deeds(me)[|was|..] == [];
      if s.found.None? {
        var spawn;
        outcome, spawn := StartAndSay(me, e, Missing);
        NothingStoppedFits(spawn, outcome);
        assert View().Deeds(me)[|was|..] == DeedsOf(spawn);
        return;
      }
      if !s.found.value.verified { return Unverified; }
      if !why.Outdated? {
        if lastRepair.Some? && clock - lastRepair.value < REPAIR_BACKOFF_MS { return Backoff; }
      }
      outcome := Replace(me, e, s.found.value.pid, why);
    }

    /**
     * `repairRunner`. Whatever the others do meanwhile, the outcome says exactly what the call did: what it stopped,
     * recorded and spawned, in order; one that throws may have spawned last. The call ends without the lock, and of the runners
     * that live then at most one isn't lost.
     */
    method RepairRunner(me: Actor, e: Environment, inWake: bool, broken: bool) returns (outcome: Outcome)
      requires Valid(me) && View().At(me).Out? && lock.At(me).Idle? && Fair(e, me)
      modifies this
      ensures Valid(me) && start == old(start) && View().At(me).Out? && lock.At(me).Idle?
      ensures var did, was := View().Deeds(me), old(View().Deeds(me)); was <= did && Fits(outcome, did[|was|..])
      ensures outcome.InAWake? <==> inWake
      ensures Quiet(e) && LookSound(old(View()), e.sights(1).found) && !inWake ==> RepairsRight(old(View()), e, broken, outcome, View())
      ensures AtMostOne(ours + strangers - lost)
    {
      hide Exec, RepairsRight;
      RunKeepsInv(start, run);
      assert ours + strangers - lost == Known(View());
      if inWake { return InAWake; }
      ghost var before := View();
      places := places[me := FirstLook(broken)];
      Perform(me, before, Begin(me, false, broken));
      ghost var begun := View();
      outcome := Repair(me, e, broken);
      RightAlike(before, begun, e, broken, outcome, View());
      RunKeepsInv(start, run);
      assert ours + strangers - lost == Known(View());
    }

    method Repair(me: Actor, e: Environment, broken: bool) returns (outcome: Outcome)
      requires Valid(me) && View().At(me) == FirstLook(broken) && lock.At(me).Idle? && Fair(e, me)
      modifies this
      ensures Valid(me) && start == old(start) && View().At(me).Out? && lock.At(me).Idle?
      ensures var did, was := View().Deeds(me), old(View().Deeds(me)); was <= did && Fits(outcome, did[|was|..])
      ensures !outcome.InAWake?
      ensures Quiet(e) && LookSound(old(View()), e.sights(1).found) ==> RepairsRight(old(View()), e, broken, outcome, View())
    {
      hide Exec, Inv, Needs, Probed, Ails, InTurnRight, Fits;
      ghost var before := View();
      ghost var was := before.Deeds(me);
      assert was[|was|..] == [];
      NothingStoppedFits(Refused, Kept);
      var first := Look(me, e, 1);
      NeedsWhenAiling(first, broken, None, clock);
      var why, probed := NeedsOf(first, broken, None);
      if why.None? { return Kept; }
      var owner := RunnerOwner(false, first.runs);
      NothingStoppedFits(Refused, OwnedBy(owner));
      if owner != Command { return OwnedBy(owner); }
      ghost var looked := View();
      outcome := InTurn(me, e, broken, PidOf(first.found), probed);
      InTurnAlike(before, looked, e, broken, outcome, View());
    }

    /** The wait for the lock, the work under it, and its release. */
    method InTurn(me: Actor, e: Environment, broken: bool, first: Option<Pid>, probed: Option<bool>) returns (outcome: Outcome)
      requires Valid(me) && View().At(me) == Waiting(broken, first, probed) && lock.At(me).Idle? && Fair(e, me)
      modifies this
      ensures Valid(me) && start == old(start) && View().At(me).Out? && lock.At(me).Idle?
      ensures var did, was := View().Deeds(me), old(View().Deeds(me)); was <= did && Fits(outcome, did[|was|..])
      ensures !outcome.InAWake?
      ensures var s := e.sights(1);
        Quiet(e) && LookSound(old(View()), s.found) && first == PidOf(s.found) && (probed.Some? ==> probed.value == s.probe) ==>
          InTurnRight(old(View()), e, broken, outcome, View())
    {
      hide Exec, Inv, Fits, LockedRight;
      ghost var before := View();
      ghost var was := before.Deeds(me);
      assert was[|was|..] == [];
      NothingStoppedFits(Refused, Busy);
      var got := Wait(me, e);
      if !got { return Busy; }
      ghost var waited := View();
      outcome := UnderLock(me, e, broken, first, probed);
      ghost var done := View();
      Leave(me, e);
      if Quiet(e) { LockedAlike(before, waited, e, e.sights(1), broken, outcome, done, View()); }
    }
  }
}
