/**
 * The supervisor over whole runs: how far apart it starts a process that keeps failing, that a room it let go stays let
 * go, and beside which living watchers it calls for the start of another.
 */
module SupervisorRuns {
  import opened Wrappers
  import opened Supervisor

  // ---- Backoff ----

  /** The failures in a row so far: when the first and the last were, and how many. */
  datatype Track = Track(first: int, last: int, count: nat)

  /** The sum of the delays after the first `n` failures in a row. */
  function Delays(n: nat, t: Timing): nat {
    if n == 0 then 0 else Delays(n - 1, t) + RestartDelay(n, t)
  }

  function Failure(tr: Track, at: int, anew: bool): Track {
    if anew || tr.count == 0 then Track(at, at, 1) else Track(tr.first, at, tr.count + 1)
  }

  /**
   * One process of the supervisor in time: its record, the failures it has on its account, and the clock. The record is a
   * runner's or a watcher's; ticks of both kinds on one record make more runs than the supervisor has.
   */
  datatype World = World(p: Proc, lastFull: int, since: int, track: Track, clock: int)

  datatype Event =
    /** The process the supervisor holds ends. */
    | Exit(at: int)
    /** A tick looks at the runner, or at the watcher. */
    | RunnerTick(look: Look, now: int, lookup: bool, repair: Repair)
    | WatcherTick(binding: Binding, now: int, lookup: bool, found: Found, start: Start)

  predicate StableRun(p: Proc, t: Timing) {
    p.handle.Some? && p.handle.value.exit.Some? && RanStably(p, t)
  }

  /** The failure an exit found by the tick counts as, if there is one. */
  function AfterExit(w: World, t: Timing): Track {
    if w.p.handle.Some? && w.p.handle.value.exit.Some? then Failure(w.track, w.p.handle.value.exit.value, StableRun(w.p, t)) else w.track
  }

  /**
   * The clock doesn't go back, and a start is dated when it happens and starts a process that runs; a repair may still throw
   * after it. The watcher stays wanted and its binding unchanged.
   */
  predicate Allowed(w: World, e: Event, t: Timing) {
    match e
    case Exit(at) => w.clock <= at && w.p.handle.Some? && w.p.handle.value.exit.None?
    case RunnerTick(_, now, _, repair) =>
      && w.clock <= now
      && (repair.started.Some? ==> now <= repair.startedAt && repair.started.value.exit.None?)
    case WatcherTick(binding, now, lookup, found, start) =>
      && w.clock <= now && binding.enabled
      && (start.New? ==> now <= start.at && start.handle.exit.None? && Runs(start.runs, binding) == binding.stamp)
      && (start.Adopted? ==> Runs(start.runs, binding) == binding.stamp)
      && var known := KnownWatcher(w.p, Some(binding), now, lookup, found, t);
         Alive(known) ==> known.stamp == Some(binding.stamp)
  }

  /** The tick calls for a start: `repairRunner` or `startWatcher`. */
  predicate Starts(w: World, e: Event, t: Timing) {
    match e
    case Exit(_) => false
    case RunnerTick(look, now, lookup, repair) => RunnerStep(w.p, w.lastFull, w.since, look, now, lookup, repair, t).called
    case WatcherTick(binding, now, lookup, found, start) => StartWatcher in WatcherStep(w.p, Some(binding), now, lookup, found, start, t).calls
  }

  function Later(a: int, b: int): int {
    if a < b then b else a
  }

  function Do(w: World, e: Event, t: Timing): World {
    if !Allowed(w, e, t) then w else
      match e
      case Exit(at) => w.(p := w.p.(handle := Some(Handle(w.p.handle.value.pid, Some(at)))), clock := at)
      case RunnerTick(look, now, lookup, repair) =>
        var c := RunnerStep(w.p, w.lastFull, w.since, look, now, lookup, repair, t);
        var track := AfterExit(w, t);
        World(c.p, c.lastFull, c.since, if c.called && repair.answer.Threw? then Failure(track, now, false) else track,
              if repair.started.Some? then Later(now, repair.startedAt) else now)
      case WatcherTick(binding, now, lookup, found, start) =>
        var c := WatcherStep(w.p, Some(binding), now, lookup, found, start, t);
        var track := AfterExit(w, t);
        World(c.p, w.lastFull, w.since, if Starts(w, e, t) && start.StartThrew? then Failure(track, now, false) else track,
              if start.New? then Later(now, start.at) else now)
  }

  /** The earliest the next start may come. */
  function NotBefore(track: Track, t: Timing): int {
    track.last + RestartDelay(track.count, t)
  }

  /** The delay after the last failure is past, or the backoff covers it. */
  predicate Waits(p: Proc, track: Track, clock: int, t: Timing) {
    track.count == p.failures
    && (track.count > 0 ==> NotBefore(track, t) <= clock || (p.backoffUntil.Some? && NotBefore(track, t) <= p.backoffUntil.value))
  }

  lemma ExitWaits(w: World, now: int, t: Timing)
    requires Waits(w.p, w.track, w.clock, t) && w.clock <= now
    ensures Waits(Settled(w.p, t), AfterExit(w, t), now, t)
  {
  }

  lemma FailureWaits(p: Proc, track: Track, now: int, t: Timing)
    requires track.count == p.failures
    ensures Waits(FailedProc(p, now, t), Failure(track, now, false), now, t)
  {
  }

  lemma RepairWaits(p: Proc, repair: Repair, track: Track, now: int, t: Timing)
    requires track.count == p.failures && (track.count > 0 ==> NotBefore(track, t) <= now)
    requires repair.started.Some? ==> now <= repair.startedAt
    ensures Waits(AfterRepair(p, repair, now, t), if repair.answer.Threw? then Failure(track, now, false) else track,
                  if repair.started.Some? then Later(now, repair.startedAt) else now, t)
  {
    if repair.answer.Threw? {
      FailureWaits(Held(p, repair), track, now, t);
    }
  }

  lemma RunnerTickWaits(w: World, e: Event, t: Timing)
    requires Waits(w.p, w.track, w.clock, t) && e.RunnerTick? && Allowed(w, e, t)
    ensures Waits(Do(w, e, t).p, Do(w, e, t).track, Do(w, e, t).clock, t)
    ensures Starts(w, e, t) && AfterExit(w, t).count > 0 ==> NotBefore(AfterExit(w, t), t) <= e.now
  {
    hide AfterRepair, NotBefore, EndedProc, RanStably;
    ExitWaits(w, e.now, t);
    if Starts(w, e, t) {
      RepairWaits(Settled(w.p, t).(restartDue := false, backoffUntil := None), e.repair, AfterExit(w, t), e.now, t);
    }
  }

  lemma WatcherTickWaits(w: World, e: Event, t: Timing)
    requires Waits(w.p, w.track, w.clock, t) && e.WatcherTick? && Allowed(w, e, t)
    ensures Waits(Do(w, e, t).p, Do(w, e, t).track, Do(w, e, t).clock, t)
    ensures Starts(w, e, t) ==> !Alive(KnownWatcher(w.p, Some(e.binding), e.now, e.lookup, e.found, t))
    ensures Starts(w, e, t) && AfterExit(w, t).count > 0 ==> NotBefore(AfterExit(w, t), t) <= e.now
  {
    ExitWaits(w, e.now, t);
    var p, track := KnownWatcher(w.p, Some(e.binding), e.now, e.lookup, e.found, t), AfterExit(w, t);
    assert Waits(p, track, e.now, t);
    if Starts(w, e, t) && e.start.StartThrew? {
      FailureWaits(p, track, e.now, t);
    }
  }

  /** A tick keeps the wait, and calls for a start only once it is over. */
  lemma TickWaits(w: World, e: Event, t: Timing)
    requires Waits(w.p, w.track, w.clock, t)
    ensures Waits(Do(w, e, t).p, Do(w, e, t).track, Do(w, e, t).clock, t)
    ensures Allowed(w, e, t) && Starts(w, e, t) && AfterExit(w, t).count > 0 ==> NotBefore(AfterExit(w, t), t) <= e.now
  {
    if Allowed(w, e, t) {
      match e
      case Exit(_) =>
      case RunnerTick(_, _, _, _) => RunnerTickWaits(w, e, t);
      case WatcherTick(_, _, _, _, _) => WatcherTickWaits(w, e, t);
    }
  }

  function After(w: World, es: seq<Event>, k: nat, t: Timing): World
    requires k <= |es|
  {
    if k == 0 then w else Do(After(w, es, k - 1, t), es[k - 1], t)
  }

  function NewWorld(now: int): World {
    World(NewProc, 0, now, Track(0, 0, 0), now)
  }

  lemma {:induction false} RunWaits(now: int, es: seq<Event>, k: nat, t: Timing)
    requires k <= |es|
    ensures var w := After(NewWorld(now), es, k, t); Waits(w.p, w.track, w.clock, t)
    decreases k
  {
    if k > 0 {
      RunWaits(now, es, k - 1, t);
      TickWaits(After(NewWorld(now), es, k - 1, t), es[k - 1], t);
    }
  }

  /** Over every run, the start after the k-th failure in a row comes at least the k-th delay after that failure. */
  lemma StartsArePaced(now: int, es: seq<Event>, k: nat, t: Timing)
    requires k < |es|
    requires var w := After(NewWorld(now), es, k, t); Allowed(w, es[k], t) && Starts(w, es[k], t)
    ensures var failures := AfterExit(After(NewWorld(now), es, k, t), t);
      failures.count > 0 ==> failures.last + RestartDelay(failures.count, t) <= es[k].now
  {
    RunWaits(now, es, k, t);
    TickWaits(After(NewWorld(now), es, k, t), es[k], t);
  }

  /** The failures on the account took at least their delays. */
  predicate Counted(track: Track, t: Timing) {
    track.count > 0 ==> track.first + Delays(track.count - 1, t) <= track.last
  }

  /** An exit about to be counted in a row of failures comes no earlier than the delay after the last of them. */
  predicate ExitInPace(w: World, t: Timing) {
    w.p.handle.Some? && w.p.handle.value.exit.Some? && !StableRun(w.p, t) && w.track.count > 0 ==>
      NotBefore(w.track, t) <= w.p.handle.value.exit.value
  }

  lemma FailureCounts(track: Track, at: int, t: Timing)
    requires Counted(track, t) && (track.count > 0 ==> NotBefore(track, t) <= at)
    ensures Counted(Failure(track, at, false), t)
  {
  }

  lemma ExitCounts(w: World, t: Timing)
    requires Counted(w.track, t) && ExitInPace(w, t)
    ensures Counted(AfterExit(w, t), t)
  {
  }

  lemma TickKeepsCounted(w: World, e: Event, t: Timing)
    requires Waits(w.p, w.track, w.clock, t) && Counted(w.track, t) && ExitInPace(w, t)
    ensures Counted(Do(w, e, t).track, t)
  {
    hide Counted, NotBefore, Waits, AfterExit, RunnerStep, WatcherStep, ExitInPace;
    TickWaits(w, e, t);
    ExitCounts(w, t);
    if Allowed(w, e, t) && Starts(w, e, t) {
      FailureCounts(AfterExit(w, t), e.now, t);
    }
  }

  /**
   * And n failures in a row take at least the sum of the delays between them, in every run in which each exit comes in pace.
   * A start that fails always does.
   */
  lemma {:induction false} FailuresTakeTheirDelays(now: int, es: seq<Event>, k: nat, t: Timing)
    requires k <= |es| && forall i :: 0 <= i < k ==> ExitInPace(After(NewWorld(now), es, i, t), t)
    ensures var w := After(NewWorld(now), es, k, t);
      w.track.count == w.p.failures
      && (w.track.count > 0 ==> w.track.last - w.track.first >= Delays(w.track.count - 1, t))
    decreases k
  {
    hide Do, ExitInPace, NotBefore, RestartDelay;
    RunWaits(now, es, k, t);
    if k > 0 {
      FailuresTakeTheirDelays(now, es, k - 1, t);
      RunWaits(now, es, k - 1, t);
      var w := After(NewWorld(now), es, k - 1, t);
      assert ExitInPace(w, t);
      TickKeepsCounted(w, es[k - 1], t);
    }
  }

  // ---- When an exit comes out of pace ----

  /** A process the supervisor holds started no earlier than the delay after the last failure. */
  predicate HeldInPace(p: Proc, track: Track, clock: int, t: Timing) {
    p.handle.Some? ==>
      && p.startedAt.Some? && p.startedAt.value <= clock
      && (p.handle.value.exit.Some? ==> p.startedAt.value <= p.handle.value.exit.value <= clock)
      && (track.count > 0 ==> NotBefore(track, t) <= p.startedAt.value)
  }

  /** The repair throws while a runner is held: one from before, or the one it has just started itself. */
  predicate ThrowsBesideRunner(w: World, e: Event, t: Timing) {
    e.RunnerTick? && Starts(w, e, t) && e.repair.answer.Threw? && Held(Settled(w.p, t), e.repair).handle.Some?
  }

  lemma ExitKeepsHeld(w: World, now: int, t: Timing)
    requires HeldInPace(w.p, w.track, w.clock, t) && w.clock <= now
    ensures HeldInPace(Settled(w.p, t), AfterExit(w, t), now, t)
  {
  }

  lemma RepairKeepsHeld(p: Proc, repair: Repair, track: Track, now: int, t: Timing)
    requires HeldInPace(p, track, now, t) && (track.count > 0 ==> NotBefore(track, t) <= now)
    requires repair.started.Some? ==> now <= repair.startedAt && repair.started.value.exit.None?
    requires !(repair.answer.Threw? && Held(p, repair).handle.Some?)
    ensures HeldInPace(AfterRepair(p, repair, now, t), if repair.answer.Threw? then Failure(track, now, false) else track,
                       if repair.started.Some? then Later(now, repair.startedAt) else now, t)
  {
  }

  lemma RunnerTickKeepsHeld(w: World, e: Event, t: Timing)
    requires Waits(w.p, w.track, w.clock, t) && HeldInPace(w.p, w.track, w.clock, t)
    requires e.RunnerTick? && Allowed(w, e, t) && !ThrowsBesideRunner(w, e, t)
    ensures HeldInPace(Do(w, e, t).p, Do(w, e, t).track, Do(w, e, t).clock, t)
  {
    hide AfterRepair, NotBefore, Waits, EndedProc, RanStably;
    ExitKeepsHeld(w, e.now, t);
    RunnerTickWaits(w, e, t);
    if Starts(w, e, t) {
      RepairKeepsHeld(Settled(w.p, t).(restartDue := false, backoffUntil := None), e.repair, AfterExit(w, t), e.now, t);
    }
  }

  lemma WatcherTickKeepsHeld(w: World, e: Event, t: Timing)
    requires Waits(w.p, w.track, w.clock, t) && HeldInPace(w.p, w.track, w.clock, t) && e.WatcherTick? && Allowed(w, e, t)
    ensures HeldInPace(Do(w, e, t).p, Do(w, e, t).track, Do(w, e, t).clock, t)
  {
    ExitKeepsHeld(w, e.now, t);
    WatcherTickWaits(w, e, t);
    assert HeldInPace(KnownWatcher(w.p, Some(e.binding), e.now, e.lookup, e.found, t), AfterExit(w, t), e.now, t);
  }

  lemma TickKeepsHeld(w: World, e: Event, t: Timing)
    requires Waits(w.p, w.track, w.clock, t) && HeldInPace(w.p, w.track, w.clock, t) && !ThrowsBesideRunner(w, e, t)
    ensures HeldInPace(Do(w, e, t).p, Do(w, e, t).track, Do(w, e, t).clock, t)
  {
    if Allowed(w, e, t) {
      match e
      case Exit(_) =>
      case RunnerTick(_, _, _, _) => RunnerTickKeepsHeld(w, e, t);
      case WatcherTick(_, _, _, _, _) => WatcherTickKeepsHeld(w, e, t);
    }
  }

  lemma HeldMeansInPace(w: World, t: Timing)
    requires HeldInPace(w.p, w.track, w.clock, t)
    ensures ExitInPace(w, t)
  {
  }

  /** As long as no repair throws beside a runner, every exit comes in pace. */
  lemma {:induction false} ExitsComeInPace(now: int, es: seq<Event>, k: nat, t: Timing)
    requires k <= |es|
    requires forall i :: 0 <= i < k ==> !ThrowsBesideRunner(After(NewWorld(now), es, i, t), es[i], t)
    ensures var w := After(NewWorld(now), es, k, t); HeldInPace(w.p, w.track, w.clock, t) && ExitInPace(w, t)
    decreases k
  {
    hide Do, ExitInPace, ThrowsBesideRunner, Waits;
    if k > 0 {
      ExitsComeInPace(now, es, k - 1, t);
      RunWaits(now, es, k - 1, t);
      var w, e := After(NewWorld(now), es, k - 1, t), es[k - 1];
      assert !ThrowsBesideRunner(w, e, t);
      TickKeepsHeld(w, e, t);
    }
    HeldMeansInPace(After(NewWorld(now), es, k, t), t);
  }

  /** So in such runs n failures in a row take the sum of the delays between them. */
  lemma CalmFailuresTakeTheirDelays(now: int, es: seq<Event>, k: nat, t: Timing)
    requires k <= |es|
    requires forall i :: 0 <= i < k ==> !ThrowsBesideRunner(After(NewWorld(now), es, i, t), es[i], t)
    ensures var track := After(NewWorld(now), es, k, t).track;
      track.count > 0 ==> track.last - track.first >= Delays(track.count - 1, t)
  {
    forall i | 0 <= i < k ensures ExitInPace(After(NewWorld(now), es, i, t), t) {
      ExitsComeInPace(now, es, i, t);
    }
    FailuresTakeTheirDelays(now, es, k, t);
  }

  /** A tick that finds the held process ended, and does nothing else that counts. */
  predicate CountsExit(e: Event, at: int) {
    e.RunnerTick? && e.now == at && e.repair.started.None? && !e.repair.answer.Threw?
  }

  /**
   * A repair that throws beside a runner, held from before or just started by it, counts one failure, and that runner's end
   * a second: they are a delay apart exactly if the runner lasts that long, unless it ran stably and the count starts over.
   */
  lemma ThrowBesideRunner(w: World, e: Event, exit: int, next: Event, t: Timing)
    requires Allowed(w, e, t) && ThrowsBesideRunner(w, e, t) && Do(w, e, t).p.handle.value.exit.None?
    requires Do(w, e, t).clock <= exit && CountsExit(next, exit)
    ensures var w1 := Do(w, e, t); var w2 := Do(w1, Exit(exit), t); var w3 := Do(w2, next, t);
      && w1.track == Failure(AfterExit(w, t), e.now, false)
      && w3.track == Failure(w1.track, exit, StableRun(w2.p, t))
      && (ExitInPace(w2, t) <==> StableRun(w2.p, t) || exit - e.now >= RestartDelay(w1.track.count, t))
  {
  }

  /** A first repair that starts the runner and then throws, and the runner's end right after. */
  function FirstRunnerLost(pid: Pid, look: Look, now: int, exit: int, next: Event): seq<Event> {
    [RunnerTick(look, now, false, Repair(Threw, Some(Handle(pid, None)), now)), Exit(exit), next]
  }

  /** From a new supervisor: two failures in a row, which take their delay exactly if that runner lasts it. */
  lemma FirstRunnerLostAtOnce(pid: Pid, look: Look, now: int, exit: int, next: Event, t: Timing)
    requires now <= exit < now + t.stableMs && CountsExit(next, exit)
    ensures var track := After(NewWorld(now), FirstRunnerLost(pid, look, now, exit, next), 3, t).track;
      track == Track(now, exit, 2) && (track.last - track.first >= Delays(1, t) <==> exit >= now + RestartDelay(1, t))
  {
    var es := FirstRunnerLost(pid, look, now, exit, next);
    var w1 := Do(NewWorld(now), es[0], t);
    var w2 := Do(w1, es[1], t);
    assert After(NewWorld(now), es, 1, t) == w1 && After(NewWorld(now), es, 2, t) == w2;
    assert w1.track == Track(now, now, 1);
    assert Delays(1, t) == Delays(0, t) + RestartDelay(1, t);
  }

  /** A runner started well, a later repair beside it that throws, and that runner's end right after. */
  function HeldRunnerLost(pid: Pid, look: Look, start: int, now: int, exit: int, next: Event): seq<Event> {
    [RunnerTick(look, start, false, Repair(Repaired, Some(Handle(pid, None)), start)),
     RunnerTick(look.(trouble := true), now, false, Repair(Threw, None, 0)), Exit(exit), next]
  }

  lemma AfterOne(w: World, es: seq<Event>, k: nat, t: Timing)
    requires k < |es|
    ensures After(w, es, k + 1, t) == Do(After(w, es, k, t), es[k], t) && After(w, es, 0, t) == w
  {
  }

  lemma HeldRunnerLostAtOnce(pid: Pid, look: Look, start: int, now: int, exit: int, next: Event, t: Timing)
    requires start != 0 && start + t.troubleRecheckMs <= now <= exit < start + t.stableMs && CountsExit(next, exit)
    ensures var track := After(NewWorld(start), HeldRunnerLost(pid, look, start, now, exit, next), 4, t).track;
      track == Track(now, exit, 2) && (track.last - track.first >= Delays(1, t) <==> exit >= now + RestartDelay(1, t))
  {
    var es := HeldRunnerLost(pid, look, start, now, exit, next);
    AfterOne(NewWorld(start), es, 0, t);
    AfterOne(NewWorld(start), es, 1, t);
    AfterOne(NewWorld(start), es, 2, t);
    AfterOne(NewWorld(start), es, 3, t);
    hide After;
    var w1 := After(NewWorld(start), es, 1, t);
    var w2 := After(NewWorld(start), es, 2, t);
    assert w1.track.count == 0 && w2.track == Track(now, now, 1);
    assert Delays(1, t) == Delays(0, t) + RestartDelay(1, t);
  }

  /** The count only ever starts over, at one, with the end of a run of at least `stableMs`. */
  lemma CountStartsOverAfterStableRun(w: World, e: Event, t: Timing)
    ensures Do(w, e, t).track.count < w.track.count ==> !e.Exit? && StableRun(w.p, t)
    ensures !StableRun(w.p, t) ==> Do(w, e, t).track.first == w.track.first || w.track.count == 0
  {
  }

  /** The delays double from the first on, up to the longest, and never shrink. */
  lemma {:induction false} DelaysDouble(k: nat, t: Timing)
    requires k > 0
    ensures RestartDelay(1, t) == if t.restartBaseMs < t.restartMaxMs then t.restartBaseMs else t.restartMaxMs
    ensures RestartDelay(k + 1, t) == if 2 * RestartDelay(k, t) < t.restartMaxMs then 2 * RestartDelay(k, t) else t.restartMaxMs
    ensures RestartDelay(k, t) <= RestartDelay(k + 1, t) <= t.restartMaxMs
  {
    var p := Pow2(k - 1);
    assert Pow2(k) == 2 * p;
    assert t.restartBaseMs * (2 * p) == 2 * (t.restartBaseMs * p);
  }

  // ---- Rooms let go, and the room's watchers ----

  /** What the daemon recorded in the room folder when it let the room go. */
  datatype Retired = Retired(how: LetGoState, stamp: Stamp)

  /**
   * The room's watchers: those that live; the one watch.pid names; the living ones that are the supervisor's own, as it started,
   * found or adopted them; and of these the loose ones: a stop left it alive, a start spawned it and threw, or a look that gave
   * an answer didn't find it, and it wasn't found or adopted since.
   */
  datatype Watchers = Watchers(live: set<Pid>, written: Option<Pid>, own: set<Pid>, loose: set<Pid>)

  /** One room across daemons: the supervisor's record, what `retire` wrote, and its watchers. */
  datatype Site = Site(room: Room, retired: Option<Retired>, w: Watchers)

  datatype Happening =
    /** One tick's visit; `recorded`: its `retire`, if it makes one, is written. */
    | Tick(v: Visit, recorded: bool)
    | WatcherExits(pid: Pid, at: int)
    /** Something else starts a watcher, and writes its pid or fails to. */
    | StrangerStarts(pid: Pid, wrote: bool)
    | DaemonRestarts(now: int)

  /** watch.pid names this living watcher. */
  predicate Named(w: Watchers, pid: Pid) {
    pid in w.live && w.written == Some(pid)
  }

  predicate NamesOne(w: Watchers) {
    w.written.Some? && Named(w, w.written.value)
  }

  function Without(w: Watchers, pid: Pid): Watchers {
    w.(live := w.live - {pid}, own := w.own - {pid}, loose := w.loose - {pid})
  }

  function Spawned(w: Watchers, child: Pid, wrote: bool): Watchers {
    w.(live := w.live + {child}, own := w.own + {child}, written := if wrote then Some(child) else w.written)
  }

  function AfterCall(w: Watchers, c: Call, v: Visit): Watchers {
    match c
    case StopWatcher(pid) =>
      if v.ends then Without(w, pid)
      else if pid in w.live then w.(own := w.own + {pid}, loose := w.loose + {pid}) else w
    case StartWatcher =>
      (match v.start
       case StartThrew(Some(child), wrote) => Spawned(w, child, wrote).(loose := w.loose + {child})
       case StartThrew(None, wrote) => if wrote then w.(written := None) else w
       case NotStarted(wrote) => if wrote then w.(written := None) else w
       case StartSkipped => w
       case Adopted(pid, _) => w.(own := w.own + {pid}, loose := w.loose - {pid})
       case New(handle, _, _) => Spawned(w, handle.pid, true))
    case _ => w
  }

  /** The watchers after the calls of a visit, in order. */
  function AfterCalls(w: Watchers, calls: seq<Call>, v: Visit): Watchers
    decreases |calls|
  {
    if calls == [] then w else AfterCalls(AfterCall(w, calls[0], v), calls[1..], v)
  }

  function FoundBy(v: Visit): set<Pid> {
    if v.found.AWatcher? then {v.found.pid} else {}
  }

  /** The record has the watcher looked up, and the lookup answers. */
  predicate LookAnswers(before: Proc, v: Visit, t: Timing) {
    WatcherLooked(Settled(before, t), v.look.binding, v.now, v.watcherLookup, t) && !v.found.CantTell?
  }

  function AfterLooking(w: Watchers, before: Proc, v: Visit, t: Timing): Watchers {
    if LookAnswers(before, v, t) then w.(own := w.own + FoundBy(v), loose := w.own - FoundBy(v)) else w
  }

  /** The room as a supervision tends it, when it does. */
  predicate Tends(room: Room, v: Visit, t: Timing) {
    var revived := Revived(room, v);
    && !v.look.closed
    && !(v.look.removedSince.Some? && v.now - v.look.removedSince.value >= t.removedGraceMs)
    && !Recalled(revived, v).state.Gone? && !v.look.stopped
  }

  function Looked(s: Site, v: Visit, t: Timing): Watchers {
    if Tends(s.room, v, t) then AfterLooking(s.w, s.room.watcher, v, t) else s.w
  }

  /** The calls before the last: what was done before a start was asked for. */
  function AllBut(calls: seq<Call>): seq<Call> {
    if calls == [] then [] else calls[..|calls| - 1]
  }

  /** The watchers when the visit's last call is made. */
  function AtStart(s: Site, v: Visit, t: Timing): Watchers {
    AfterCalls(Looked(s, v, t), AllBut(Supervise(s.room, v, t).calls), v)
  }

  function AfterVisit(s: Site, v: Visit, t: Timing): Watchers {
    AfterCalls(Looked(s, v, t), Supervise(s.room, v, t).calls, v)
  }

  /** The look reports what `retire` wrote, as long as room.json is the one it was written for. */
  predicate LooksRight(s: Site, v: Visit) {
    v.look.retired == if s.retired.Some? && s.retired.value.stamp == v.look.stamp then Some(s.retired.value.how) else None
  }

  /** A lookup finds no other watcher than the living one watch.pid names; it may miss that one or be unable to tell. */
  predicate FindsRight(w: Watchers, found: Found) {
    found.AWatcher? ==> Named(w, found.pid)
  }

  /**
   * The start answers by its lookup under the watch lock: one found is adopted, one it can't tell about makes it throw, and
   * only where it found none is anything spawned or written.
   */
  predicate Answers(found: Found, start: Start) {
    match start
    case StartThrew(spawned, wrote) => spawned.Some? || wrote ==> found.Nothing?
    case StartSkipped => found.Nothing?
    case NotStarted(wrote) => wrote ==> found.Nothing?
    case Adopted(pid, runs) => found == AWatcher(pid) && runs.None?
    case New(handle, _, _) => found.Nothing? && handle.exit.None?
  }

  predicate SpawnsAnew(w: Watchers, start: Start) {
    match start
    case StartThrew(Some(child), _) => child !in w.live
    case New(handle, _, _) => handle.pid !in w.live
    case _ => true
  }

  /** What a visit sees and what its start answers is true of the site. */
  predicate Sound(s: Site, v: Visit, t: Timing) {
    && LooksRight(s, v) && FindsRight(s.w, v.found)
    && (StartWatcher in Supervise(s.room, v, t).calls ==>
          var w := AtStart(s, v, t);
          FindsRight(w, v.underLock) && Answers(v.underLock, v.start) && SpawnsAnew(w, v.start))
  }

  function RetiredAfter(retired: Option<Retired>, calls: seq<Call>, recorded: bool): Option<Retired> {
    if recorded && calls != [] && calls[0].Retire? then Some(Retired(calls[0].state, calls[0].stamp)) else retired
  }

  function Happen(s: Site, h: Happening, t: Timing): Site {
    match h
    case Tick(v, recorded) =>
      if !Sound(s, v, t) then s
      else
        var c := Supervise(s.room, v, t);
        Site(c.room, RetiredAfter(s.retired, c.calls, recorded), AfterVisit(s, v, t))
    case WatcherExits(pid, at) =>
      if pid !in s.w.live then s
      else
        var p := s.room.watcher;
        s.(w := Without(s.w, pid),
           room := if p.handle == Some(Handle(pid, None)) then s.room.(watcher := p.(handle := Some(Handle(pid, Some(at))))) else s.room)
    case StrangerStarts(pid, wrote) =>
      if pid in s.w.live then s
      else s.(w := s.w.(live := s.w.live + {pid}, written := if wrote then Some(pid) else s.w.written))
    case DaemonRestarts(now) => s.(room := NewRoom(now))
  }

  /** The stamp the room was let go with: what the supervisor holds, else what is recorded on disk. */
  function GoneWith(s: Site): Option<Stamp> {
    if s.room.state.Gone? then s.room.dropStamp
    else if s.retired.Some? then Some(s.retired.value.stamp) else None
  }

  predicate StartsNothing(calls: seq<Call>) {
    forall c <- calls :: !c.StartWatcher? && !c.RepairRunner?
  }

  /** A room let go gets no start from a look that finds it closed or its stamp unchanged, and stays let go. */
  lemma LetGoTick(s: Site, v: Visit, recorded: bool, t: Timing)
    requires GoneWith(s).Some? && LooksRight(s, v) && (v.look.closed || Some(v.look.stamp) == GoneWith(s))
    ensures StartsNothing(Supervise(s.room, v, t).calls)
    ensures Supervise(s.room, v, t).room.state.Gone? && Supervise(s.room, v, t).room.dropStamp.Some?
  {
  }

  /** A daemon that restarts still finds the room let go once `retire` was recorded. */
  predicate Remembers(s: Site, h: Happening) {
    h.DaemonRestarts? ==> s.retired.Some?
  }

  function Reach(s: Site, hs: seq<Happening>, k: nat, t: Timing): Site
    requires k <= |hs|
  {
    if k == 0 then s else Happen(Reach(s, hs, k - 1, t), hs[k - 1], t)
  }

  predicate DropsWithStamp(s: Site) {
    s.room.state.Gone? ==> s.room.dropStamp.Some?
  }

  lemma LetGoStep(s: Site, h: Happening, t: Timing)
    requires GoneWith(s).Some? && DropsWithStamp(s) && Remembers(s, h)
    requires h.Tick? ==> LooksRight(s, h.v) && (h.v.look.closed || Some(h.v.look.stamp) == GoneWith(s))
    ensures GoneWith(Happen(s, h, t)).Some? && DropsWithStamp(Happen(s, h, t))
  {
    if h.Tick? {
      LetGoTick(s, h.v, h.recorded, t);
    }
  }

  /**
   * A room let go, closed or removed, gets no `repairRunner` and no `startWatcher` over any ticks and looks, also after a
   * daemon restart once `retire` was recorded, until its stamp changes and it isn't closed.
   */
  lemma {:induction false} LetGoStaysLetGo(s: Site, hs: seq<Happening>, k: nat, t: Timing)
    requires k < |hs| && GoneWith(s).Some? && DropsWithStamp(s)
    requires forall i :: 0 <= i <= k ==> Remembers(Reach(s, hs, i, t), hs[i])
    requires forall i :: 0 <= i <= k && hs[i].Tick? ==>
      var r := Reach(s, hs, i, t); LooksRight(r, hs[i].v) && (hs[i].v.look.closed || Some(hs[i].v.look.stamp) == GoneWith(r))
    ensures GoneWith(Reach(s, hs, k, t)).Some? && DropsWithStamp(Reach(s, hs, k, t))
    ensures hs[k].Tick? ==> StartsNothing(Supervise(Reach(s, hs, k, t).room, hs[k].v, t).calls)
    decreases k
  {
    if k > 0 {
      LetGoStaysLetGo(s, hs, k - 1, t);
      LetGoStep(Reach(s, hs, k - 1, t), hs[k - 1], t);
    }
    if hs[k].Tick? {
      LetGoTick(Reach(s, hs, k, t), hs[k].v, hs[k].recorded, t);
    }
  }

  // ---- The supervisor's own watchers ----

  predicate Has(p: Proc, pid: Pid) {
    if p.handle.Some? then p.handle.value == Handle(pid, None) else p.pid == Some(pid)
  }

  /** Each watcher of its own that isn't loose is the one the record holds or knows, or the record has still to look. */
  ghost predicate Accounts(p: Proc, w: Watchers) {
    && w.loose <= w.own <= w.live
    && (p.handle.Some? && p.handle.value.exit.None? ==> p.handle.value.pid in w.own)
    && forall pid :: pid in w.own && pid !in w.loose ==> Has(p, pid) || (p.handle.None? && (p.unsure || p.lookedAt.None?))
  }

  ghost predicate Tracks(s: Site) {
    Accounts(s.room.watcher, s.w)
  }

  function StopsFor(p: Proc): seq<Call> {
    if Alive(p) then [StopWatcher(PidOf(p))] else []
  }

  lemma {:induction false} AfterLastCall(w: Watchers, calls: seq<Call>, c: Call, v: Visit)
    ensures AfterCalls(w, calls + [c], v) == AfterCall(AfterCalls(w, calls, v), c, v)
    ensures AllBut(calls + [c]) == calls
    decreases |calls|
  {
    assert (calls + [c])[..|calls|] == calls;
    if calls == [] {
      assert [] + [c] == [c];
    } else {
      AfterLastCall(AfterCall(w, calls[0], v), calls[1..], c, v);
      assert (calls + [c])[1..] == calls[1..] + [c];
    }
  }

  /** The runner's call, which comes before a watcher's, changes nothing about the watchers. */
  lemma AfterFirstCall(w: Watchers, broken: bool, rest: seq<Call>, v: Visit)
    ensures AfterCalls(w, [RepairRunner(broken)] + rest, v) == AfterCalls(w, rest, v)
  {
    assert ([RepairRunner(broken)] + rest)[1..] == rest;
  }

  lemma AfterStops(w: Watchers, p: Proc, v: Visit)
    ensures AfterCalls(w, StopsFor(p), v) == if Alive(p) then AfterCall(w, StopWatcher(PidOf(p)), v) else w
  {
    if Alive(p) {
      AfterLastCall(w, [], StopWatcher(PidOf(p)), v);
      assert [] + [StopWatcher(PidOf(p))] == StopsFor(p);
    }
  }

  function Known(before: Proc, v: Visit, t: Timing): Proc {
    KnownWatcher(before, v.look.binding, v.now, v.watcherLookup, v.found, t)
  }

  /** A look keeps the record true, counts an exit, and leaves nothing unlooked. */
  lemma KnownAccounts(before: Proc, w: Watchers, v: Visit, t: Timing)
    requires Accounts(before, w) && FindsRight(w, v.found)
    ensures var p := Known(before, v, t);
      && Accounts(p, AfterLooking(w, before, v, t))
      && (p.handle.Some? ==> p.handle.value.exit.None?)
      && (v.look.binding.Some? && p.handle.None? ==> p.lookedAt.Some?)
  {
  }

  predicate WatcherDue(known: Proc, v: Visit) {
    && v.look.binding.Some? && v.look.binding.value.enabled
    && !(Alive(known) && known.stamp == Some(v.look.binding.value.stamp))
    && !known.unsure
    && (Alive(known) || !(known.backoffUntil.Some? && v.now < known.backoffUntil.value))
  }

  /** Wakes are off, or the watcher runs another binding than the room has now. */
  predicate WatcherUnwanted(known: Proc, v: Visit) {
    v.look.binding.None? || !v.look.binding.value.enabled || known.stamp != Some(v.look.binding.value.stamp)
  }

  /** What a look at the watcher calls: at most a stop of the one it knows, then at most a start. */
  lemma WatcherCalls(before: Proc, v: Visit, t: Timing)
    ensures var c := WatcherStep(before, v.look.binding, v.now, v.watcherLookup, v.found, v.start, t);
      var known := Known(before, v, t);
      && (WatcherDue(known, v) ==> c.calls == StopsFor(known) + [StartWatcher])
      && (!WatcherDue(known, v) ==> c.calls == if WatcherUnwanted(known, v) then StopsFor(known) else [])
      && (StartWatcher in c.calls <==> WatcherDue(known, v))
  {
  }

  /** The loose ones when a start is asked for, by what the visit saw and whether its stop ended the watcher. */
  function LooseBy(before: Proc, w: Watchers, v: Visit, t: Timing): set<Pid> {
    var known := Known(before, v, t);
    var left := if LookAnswers(before, v, t) then w.own - FoundBy(v) else w.loose;
    if !Alive(known) then left
    else if v.ends then left - {PidOf(known)}
    else left + {PidOf(known)} * w.live
  }

  /** When a start is due, the stop before it leaves no living watcher of its own but the loose ones. */
  lemma DueLeavesLoose(before: Proc, w: Watchers, v: Visit, t: Timing)
    requires Accounts(before, w) && FindsRight(w, v.found) && WatcherDue(Known(before, v, t), v)
    ensures var at := AfterCalls(AfterLooking(w, before, v, t), StopsFor(Known(before, v, t)), v);
      at.own == at.loose == LooseBy(before, w, v, t) && at.own <= at.live
  {
    KnownAccounts(before, w, v, t);
    AfterStops(AfterLooking(w, before, v, t), Known(before, v, t), v);
  }

  /** The record once the watcher that is to be replaced was stopped. */
  function Cleared(known: Proc): Proc {
    if Alive(known) then known.(handle := None, pid := None, backoffUntil := None) else known
  }

  lemma StartAccounts(q: Proc, w: Watchers, v: Visit, t: Timing)
    requires !Alive(q) && w.own == w.loose && w.own <= w.live && v.look.binding.Some?
    requires FindsRight(w, v.underLock) && Answers(v.underLock, v.start) && SpawnsAnew(w, v.start)
    ensures Accounts(AfterStart(q, v.look.binding.value, v.start, v.now, t), AfterCall(w, StartWatcher, v))
  {
  }

  lemma LeftAloneAccounts(known: Proc, w: Watchers, v: Visit, t: Timing)
    requires Accounts(known, w) && !WatcherDue(known, v)
    requires known.handle.Some? ==> known.handle.value.exit.None?
    ensures var c := WatcherAct(known, v.look.binding, v.now, v.start, t); Accounts(c.p, AfterCalls(w, c.calls, v))
  {
    AfterStops(w, known, v);
  }

  lemma DueStep(before: Proc, v: Visit, t: Timing)
    requires WatcherDue(Known(before, v, t), v)
    ensures var known := Known(before, v, t);
      && v.look.binding.Some? && !Alive(Cleared(known))
      && WatcherStep(before, v.look.binding, v.now, v.watcherLookup, v.found, v.start, t)
         == WatcherChange(AfterStart(Cleared(known), v.look.binding.value, v.start, v.now, t), StopsFor(known) + [StartWatcher])
  {
  }

  // ---- The whole visit ----

  /** The calls of a visit that tends the room: the runner's, then the watcher's, whose start comes last. */
  lemma TendCalls(room: Room, v: Visit, t: Timing)
    ensures var c := Tend(room, v, t);
      var w := WatcherStep(room.watcher, v.look.binding, v.now, v.watcherLookup, v.found, v.start, t);
      && (c.calls == w.calls || c.calls == [RepairRunner(v.look.trouble)] + w.calls)
      && c.room.watcher == w.p && c.room.state == Supervised
  {
    var w := WatcherStep(room.watcher, v.look.binding, v.now, v.watcherLookup, v.found, v.start, t);
    assert [] + w.calls == w.calls;
  }

  /** A visit that tends the room keeps its watcher's record; any other starts nothing and forgets it, or leaves it. */
  lemma SuperviseShape(room: Room, v: Visit, t: Timing)
    ensures var c := Supervise(room, v, t);
      && (Tends(room, v, t) ==> c == Tend(Recalled(Revived(room, v), v), v, t) && Recalled(Revived(room, v), v).watcher == room.watcher)
      && (!Tends(room, v, t) ==>
            && StartWatcher !in c.calls
            && (c.room.watcher == ForgottenProc(room.watcher) || (c.room.watcher == room.watcher && c.calls == [])))
  {
  }

  /** A tended room's calls about the watcher, and the watchers before the start and after the visit. */
  lemma TendedVisit(s: Site, v: Visit, t: Timing)
    requires Tends(s.room, v, t)
    ensures var c := Supervise(s.room, v, t);
      var known := Known(s.room.watcher, v, t);
      var step := WatcherStep(s.room.watcher, v.look.binding, v.now, v.watcherLookup, v.found, v.start, t);
      var looked := AfterLooking(s.w, s.room.watcher, v, t);
      && c.room.watcher == step.p
      && (StartWatcher in c.calls <==> WatcherDue(known, v))
      && AfterVisit(s, v, t) == AfterCalls(looked, step.calls, v)
      && (WatcherDue(known, v) ==>
            && c.calls == AllBut(c.calls) + [StartWatcher] && StartWatcher !in AllBut(c.calls)
            && AtStart(s, v, t) == AfterCalls(looked, StopsFor(known), v)
            && AfterVisit(s, v, t) == AfterCall(AtStart(s, v, t), StartWatcher, v))
  {
    hide Supervise, Tend, Tends, WatcherStep, KnownWatcher, WatcherDue, AfterCall, AfterCalls, AfterLooking;
    var known, first := Known(s.room.watcher, v, t), RepairRunner(v.look.trouble);
    var step := WatcherStep(s.room.watcher, v.look.binding, v.now, v.watcherLookup, v.found, v.start, t);
    var calls, looked := Supervise(s.room, v, t).calls, AfterLooking(s.w, s.room.watcher, v, t);
    SuperviseShape(s.room, v, t);
    TendCalls(Recalled(Revived(s.room, v), v), v, t);
    WatcherCalls(s.room.watcher, v, t);
    if calls != step.calls {
      AfterFirstCall(looked, v.look.trouble, step.calls, v);
    }
    if WatcherDue(known, v) {
      AfterLastCall(looked, StopsFor(known), StartWatcher, v);
      AfterFirstCall(looked, v.look.trouble, StopsFor(known), v);
      var before := if calls == step.calls then StopsFor(known) else [first] + StopsFor(known);
      assert calls == before + [StartWatcher];
      AfterLastCall(looked, before, StartWatcher, v);
    }
  }

  /** Calls other than a start keep the sets within one another. */
  lemma {:induction false} CallsKeepSets(w: Watchers, calls: seq<Call>, v: Visit)
    requires w.loose <= w.own <= w.live && StartWatcher !in calls
    ensures var after := AfterCalls(w, calls, v); after.loose <= after.own <= after.live
    decreases |calls|
  {
    if calls != [] {
      assert calls[0] != StartWatcher;
      CallsKeepSets(AfterCall(w, calls[0], v), calls[1..], v);
    }
  }

  lemma UntendedAccounts(before: Proc, after: Proc, w: Watchers, calls: seq<Call>, v: Visit)
    requires Accounts(before, w) && StartWatcher !in calls
    requires after == ForgottenProc(before) || (after == before && calls == [])
    ensures Accounts(after, AfterCalls(w, calls, v))
  {
    CallsKeepSets(w, calls, v);
  }

  /**
   * A start comes last, and by then the living watchers of the supervisor's own are exactly the loose ones: so it is called for
   * beside a living one of its own exactly if one is loose.
   */
  ghost predicate StartsBesideLoose(s: Site, v: Visit, t: Timing) {
    var calls := Supervise(s.room, v, t).calls;
    StartWatcher in calls ==>
      && calls == AllBut(calls) + [StartWatcher] && StartWatcher !in AllBut(calls)
      && AtStart(s, v, t).own <= AtStart(s, v, t).live
      && AtStart(s, v, t).own == LooseBy(s.room.watcher, s.w, v, t)
  }

  lemma VisitTracks(s: Site, v: Visit, recorded: bool, t: Timing)
    requires Tracks(s) && FindsRight(s.w, v.found)
    ensures StartsBesideLoose(s, v, t)
    ensures Sound(s, v, t) ==> Tracks(Happen(s, Tick(v, recorded), t))
  {
    hide Supervise, Tend, Tends, WatcherDue, KnownWatcher, AfterCall, AfterCalls, AfterStart, LooseBy, WatcherAct, Answers;
    SuperviseShape(s.room, v, t);
    if Tends(s.room, v, t) {
      var before, known := s.room.watcher, Known(s.room.watcher, v, t);
      TendedVisit(s, v, t);
      KnownAccounts(before, s.w, v, t);
      if WatcherDue(known, v) {
        DueLeavesLoose(before, s.w, v, t);
        DueStep(before, v, t);
        if Sound(s, v, t) {
          StartAccounts(Cleared(known), AtStart(s, v, t), v, t);
        }
      } else {
        LeftAloneAccounts(known, AfterLooking(s.w, before, v, t), v, t);
      }
    } else {
      UntendedAccounts(s.room.watcher, Supervise(s.room, v, t).room.watcher, s.w, Supervise(s.room, v, t).calls, v);
    }
  }

  lemma HappenTracks(s: Site, h: Happening, t: Timing)
    requires Tracks(s)
    ensures Tracks(Happen(s, h, t))
  {
    match h
    case Tick(v, recorded) =>
      if Sound(s, v, t) {
        VisitTracks(s, v, recorded, t);
      }
    case WatcherExits(_, _) =>
    case StrangerStarts(_, _) =>
    case DaemonRestarts(_) =>
  }

  /** A new supervisor in a room where others may have started watchers. */
  function NewSite(now: int, live: set<Pid>, written: Option<Pid>): Site {
    Site(NewRoom(now), None, Watchers(live, written, {}, {}))
  }

  /**
   * Over any ticks, exits, daemon restarts and watchers others start: the supervisor calls for a start beside a living watcher
   * it started, found or adopted exactly if that one is loose.
   */
  lemma {:induction false} StartsBesideLooseOnly(now: int, live: set<Pid>, written: Option<Pid>, hs: seq<Happening>, k: nat, t: Timing)
    requires k < |hs|
    ensures var s := Reach(NewSite(now, live, written), hs, k, t);
      && Tracks(s)
      && (hs[k].Tick? && FindsRight(s.w, hs[k].v.found) ==> StartsBesideLoose(s, hs[k].v, t))
    decreases k
  {
    hide Happen, Accounts, StartsBesideLoose, FindsRight;
    var site := NewSite(now, live, written);
    if k > 0 {
      StartsBesideLooseOnly(now, live, written, hs, k - 1, t);
      HappenTracks(Reach(site, hs, k - 1, t), hs[k - 1], t);
    } else {
      NewSiteTracks(now, live, written);
    }
    var s := Reach(site, hs, k, t);
    if hs[k].Tick? && FindsRight(s.w, hs[k].v.found) {
      VisitTracks(s, hs[k].v, hs[k].recorded, t);
    }
  }

  lemma NewSiteTracks(now: int, live: set<Pid>, written: Option<Pid>)
    ensures Tracks(NewSite(now, live, written))
  {
  }

  /** The visit lets the watcher loose: its stop leaves it alive, its start throws after spawning it, or its look doesn't find it. */
  predicate LetsLoose(s: Site, v: Visit, t: Timing, pid: Pid) {
    var calls := Supervise(s.room, v, t).calls;
    || (StopWatcher(pid) in calls && !v.ends)
    || (StartWatcher in calls && v.start.StartThrew? && v.start.spawned == Some(pid))
    || (Tends(s.room, v, t) && LookAnswers(s.room.watcher, v, t) && pid in s.w.own && pid !in FoundBy(v))
  }

  predicate StartsOrAdopts(start: Start, pid: Pid) {
    match start
    case Adopted(adopted, _) => adopted == pid
    case New(handle, _, _) => handle.pid == pid
    case _ => false
  }

  lemma {:induction false} StopsLetLoose(w: Watchers, calls: seq<Call>, v: Visit, pid: Pid)
    requires w.loose <= w.live && StartWatcher !in calls
    ensures var after := AfterCalls(w, calls, v);
      && after.loose <= after.live <= w.live
      && (pid in after.loose <==> pid in after.live && (pid in w.loose || (StopWatcher(pid) in calls && !v.ends)))
    decreases |calls|
  {
    if calls != [] {
      assert calls[0] != StartWatcher && calls == [calls[0]] + calls[1..];
      StopsLetLoose(AfterCall(w, calls[0], v), calls[1..], v, pid);
    }
  }

  lemma StartLetsLoose(w: Watchers, v: Visit, pid: Pid)
    requires w.loose <= w.live && SpawnsAnew(w, v.start)
    ensures var after := AfterCall(w, StartWatcher, v);
      && (pid in after.loose <==>
            && pid in after.live && !StartsOrAdopts(v.start, pid)
            && (pid in w.loose || (v.start.StartThrew? && v.start.spawned == Some(pid))))
      && (pid in after.live ==>
            pid in w.live || StartsOrAdopts(v.start, pid) || (v.start.StartThrew? && v.start.spawned == Some(pid)))
  {
  }

  lemma LookingLetsLoose(w: Watchers, before: Proc, v: Visit, t: Timing, pid: Pid)
    requires w.loose <= w.own <= w.live
    ensures var after := AfterLooking(w, before, v, t);
      && after.loose <= after.live && after.live == w.live
      && (pid in after.loose <==>
            || (LookAnswers(before, v, t) && pid in w.own && pid !in FoundBy(v))
            || (pid in w.loose && !(LookAnswers(before, v, t) && pid in FoundBy(v))))
  {
  }

  /** After a visit a living watcher is loose exactly if the visit let it loose, or it was and the visit didn't find, start or adopt it. */
  lemma LooseExactly(s: Site, v: Visit, recorded: bool, t: Timing, pid: Pid)
    requires Tracks(s) && Sound(s, v, t)
    ensures var after, calls := Happen(s, Tick(v, recorded), t).w, Supervise(s.room, v, t).calls;
      pid in after.loose <==>
        && pid in after.live && !(StartWatcher in calls && StartsOrAdopts(v.start, pid))
        && (LetsLoose(s, v, t, pid)
            || (pid in s.w.loose && !(Tends(s.room, v, t) && LookAnswers(s.room.watcher, v, t) && pid in FoundBy(v))))
  {
    hide Supervise, Tends, AfterCall, AfterCalls, LookAnswers, AfterLooking, FoundBy, StartsOrAdopts, Answers, FindsRight, SpawnsAnew;
    var calls, looked := Supervise(s.room, v, t).calls, Looked(s, v, t);
    SuperviseShape(s.room, v, t);
    LookingLetsLoose(s.w, s.room.watcher, v, t, pid);
    if StartWatcher in calls {
      TendedVisit(s, v, t);
      var before := AllBut(calls);
      assert StopWatcher(pid) in calls <==> StopWatcher(pid) in before by {
        assert calls == before + [StartWatcher];
      }
      StopsLetLoose(looked, before, v, pid);
      StartLetsLoose(AtStart(s, v, t), v, pid);
    } else {
      StopsLetLoose(looked, calls, v, pid);
    }
  }

  /** A watcher is loose only since a visit that let it loose. */
  lemma {:induction false} LooseSince(now: int, live: set<Pid>, written: Option<Pid>, hs: seq<Happening>, k: nat, t: Timing, pid: Pid)
    requires k <= |hs| && pid in Reach(NewSite(now, live, written), hs, k, t).w.loose
    ensures exists i :: 0 <= i < k && hs[i].Tick? && LetsLoose(Reach(NewSite(now, live, written), hs, i, t), hs[i].v, t, pid)
    decreases k
  {
    hide LetsLoose, Supervise, AfterVisit, Sound, Tends, Tracks;
    var site := NewSite(now, live, written);
    if k > 0 {
      var s, h := Reach(site, hs, k - 1, t), hs[k - 1];
      if pid in s.w.loose {
        LooseSince(now, live, written, hs, k - 1, t, pid);
      } else {
        assert h.Tick? && Sound(s, h.v, t);
        StartsBesideLooseOnly(now, live, written, hs, k - 1, t);
        LooseExactly(s, h.v, h.recorded, t, pid);
      }
    }
  }

  // ---- One watcher at a time ----

  /** A start by this one or another writes the pid it spawns, and its lookup under the watch lock misses no watcher watch.pid names. */
  predicate KeepsNames(s: Site, h: Happening, t: Timing) {
    match h
    case Tick(v, _) =>
      StartWatcher in Supervise(s.room, v, t).calls ==>
        && !(v.start.StartThrew? && v.start.spawned.Some? && !v.start.wrote)
        && (v.underLock.Nothing? ==> !NamesOne(AtStart(s, v, t)))
    case StrangerStarts(_, wrote) => wrote && !NamesOne(s.w)
    case _ => true
  }

  /** watch.pid names every watcher that lives: so there is one at most. */
  predicate AllNamed(w: Watchers) {
    forall pid <- w.live :: w.written == Some(pid)
  }

  lemma {:induction false} CallsKeepNames(w: Watchers, calls: seq<Call>, v: Visit)
    requires AllNamed(w) && StartWatcher !in calls
    ensures AllNamed(AfterCalls(w, calls, v))
    decreases |calls|
  {
    if calls != [] {
      assert calls[0] != StartWatcher;
      CallsKeepNames(AfterCall(w, calls[0], v), calls[1..], v);
    }
  }

  lemma StartKeepsNames(w: Watchers, v: Visit)
    requires AllNamed(w) && Answers(v.underLock, v.start)
    requires !(v.start.StartThrew? && v.start.spawned.Some? && !v.start.wrote)
    requires v.underLock.Nothing? ==> !NamesOne(w)
    ensures AllNamed(AfterCall(w, StartWatcher, v))
  {
  }

  lemma HappenKeepsNames(s: Site, h: Happening, t: Timing)
    requires AllNamed(s.w) && KeepsNames(s, h, t)
    ensures AllNamed(Happen(s, h, t).w)
  {
    hide Supervise, Tends, AfterCalls, AfterCall, LookAnswers, Answers;
    if h.Tick? && Sound(s, h.v, t) {
      var v := h.v;
      SuperviseShape(s.room, v, t);
      assert AllNamed(Looked(s, v, t));
      if StartWatcher in Supervise(s.room, v, t).calls {
        TendedVisit(s, v, t);
        CallsKeepNames(Looked(s, v, t), AllBut(Supervise(s.room, v, t).calls), v);
        StartKeepsNames(AtStart(s, v, t), v);
      } else {
        CallsKeepNames(Looked(s, v, t), Supervise(s.room, v, t).calls, v);
      }
    }
  }

  /**
   * Also where stops leave watchers alive, two never live: as long as each start writes the pid it spawns and its lookup
   * doesn't miss the one watch.pid names.
   */
  lemma {:induction false} NeverTwoWatchers(s: Site, hs: seq<Happening>, k: nat, t: Timing)
    requires k <= |hs| && AllNamed(s.w) && forall i :: 0 <= i < k ==> KeepsNames(Reach(s, hs, i, t), hs[i], t)
    ensures var w := Reach(s, hs, k, t).w;
      AllNamed(w) && forall p, q :: p in w.live && q in w.live ==> p == q
    decreases k
  {
    hide Happen, KeepsNames;
    if k > 0 {
      NeverTwoWatchers(s, hs, k - 1, t);
      assert KeepsNames(Reach(s, hs, k - 1, t), hs[k - 1], t);
      HappenKeepsNames(Reach(s, hs, k - 1, t), hs[k - 1], t);
    }
  }

  /** A named watcher that a start's lookup under the lock doesn't miss is adopted, or the start fails: nothing is spawned or written. */
  lemma SurvivorIsAdopted(s: Site, v: Visit, t: Timing)
    requires Sound(s, v, t) && StartWatcher in Supervise(s.room, v, t).calls
    requires NamesOne(AtStart(s, v, t)) && !v.underLock.Nothing?
    ensures var w := AtStart(s, v, t);
      && (v.start == Adopted(w.written.value, None) || v.start == StartThrew(None, false) || v.start == NotStarted(false))
      && AfterVisit(s, v, t).live == w.live && AfterVisit(s, v, t).written == w.written
      && (v.start.Adopted? ==> w.written.value !in AfterVisit(s, v, t).loose)
  {
    hide Supervise, Tends, AfterCalls, LookAnswers;
    SuperviseShape(s.room, v, t);
    TendedVisit(s, v, t);
  }

  // ---- Runs that reach each ----

  /** A look at an open room with nothing wrong. */
  function Open(binding: Binding): Look {
    Look(0, false, None, false, None, false, Some(binding))
  }

  /** A visit to such a room whose runner is kept. */
  function Plain(binding: Binding, now: int, found: Found, ends: bool, underLock: Found, start: Start): Visit {
    Visit(Open(binding), now, false, Repair(Kept(None), None, 0), false, found, ends, underLock, start)
  }

  function StartVisit(pid: Pid, binding: Binding, now: int): Visit {
    Plain(binding, now, Nothing, true, Nothing, New(Handle(pid, None), now, Some(binding.stamp)))
  }

  /** The binding of a watcher the supervisor started changes, the stop leaves it alive, and the start finds it under the lock. */
  function StopLeft(pid: Pid, older: Binding, newer: Binding, now: int): seq<Happening> {
    [Tick(StartVisit(pid, older, now), true),
     Tick(Plain(newer, now, Nothing, false, AWatcher(pid), Adopted(pid, None)), true)]
  }

  /** A visit that tends the room lets nothing go. */
  lemma TendedStays(room: Room, v: Visit, retired: Option<Retired>, recorded: bool, t: Timing)
    requires Tends(room, v, t)
    ensures var c := Supervise(room, v, t); c.room.state.Supervised? && RetiredAfter(retired, c.calls, recorded) == retired
  {
    hide Supervise, Tends, Tend, WatcherStep, KnownWatcher, WatcherDue;
    SuperviseShape(room, v, t);
    TendCalls(Recalled(Revived(room, v), v), v, t);
    WatcherCalls(room.watcher, v, t);
  }

  lemma PlainTends(s: Site, v: Visit, binding: Binding, t: Timing)
    requires v.look == Open(binding) && !s.room.state.Gone? && s.retired.None?
    ensures Tends(s.room, v, t) && LooksRight(s, v)
  {
  }

  /** A plain visit at which a start is due: the watchers and the record after it. */
  lemma PlainStart(s: Site, v: Visit, binding: Binding, t: Timing)
    requires v.look == Open(binding) && !s.room.state.Gone? && s.retired.None?
    requires var known := Known(s.room.watcher, v, t);
      var w := AfterLooking(s.w, s.room.watcher, v, t);
      var at := if Alive(known) then AfterCall(w, StopWatcher(PidOf(known)), v) else w;
      && WatcherDue(known, v) && FindsRight(s.w, v.found)
      && FindsRight(at, v.underLock) && Answers(v.underLock, v.start) && SpawnsAnew(at, v.start)
    ensures var known := Known(s.room.watcher, v, t);
      var w := AfterLooking(s.w, s.room.watcher, v, t);
      var at := if Alive(known) then AfterCall(w, StopWatcher(PidOf(known)), v) else w;
      var last, calls := Happen(s, Tick(v, true), t), Supervise(s.room, v, t).calls;
      && Sound(s, v, t) && AtStart(s, v, t) == at
      && calls == AllBut(calls) + [StartWatcher] && (Alive(known) ==> StopWatcher(PidOf(known)) in calls)
      && last.room.watcher == AfterStart(Cleared(known), binding, v.start, v.now, t) && !last.room.state.Gone?
      && last.retired.None? && last.w == AfterCall(at, StartWatcher, v)
  {
    hide Tends, Supervise, Tend, KnownWatcher, AfterCalls, AfterCall, AfterStart, Answers, WatcherDue, AfterLooking, RetiredAfter;
    var known := Known(s.room.watcher, v, t);
    PlainTends(s, v, binding, t);
    SuperviseShape(s.room, v, t);
    TendCalls(Recalled(Revived(s.room, v), v), v, t);
    TendedVisit(s, v, t);
    TendedStays(s.room, v, s.retired, true, t);
    DueStep(s.room.watcher, v, t);
    AfterStops(AfterLooking(s.w, s.room.watcher, v, t), known, v);
    if Alive(known) {
      assert StopWatcher(PidOf(known)) in StopsFor(known);
    }
  }

  lemma FirstStart(pid: Pid, binding: Binding, now: int, t: Timing)
    requires binding.enabled
    ensures var s := Happen(NewSite(now, {}, None), Tick(StartVisit(pid, binding, now), true), t);
      && s.room.watcher == Proc(Some(pid), Some(Handle(pid, None)), Some(now), true, 0, 0, None, Some(binding.stamp), Some(now), false, false)
      && !s.room.state.Gone? && s.retired.None? && s.w == Watchers({pid}, Some(pid), {pid}, {})
  {
    hide Happen;
    PlainStart(NewSite(now, {}, None), StartVisit(pid, binding, now), binding, t);
  }

  /** The start is called beside it, and it is adopted as running the newer binding, though it runs the older one. */
  lemma StopThatStopsNothing(pid: Pid, older: Binding, newer: Binding, now: int, t: Timing)
    requires older.enabled && newer.enabled && older.stamp != newer.stamp
    ensures var site, hs := NewSite(now, {}, None), StopLeft(pid, older, newer, now);
      var s, last := Reach(site, hs, 1, t), Reach(site, hs, 2, t);
      && Sound(s, hs[1].v, t) && AtStart(s, hs[1].v, t).own == {pid}
      && StopWatcher(pid) in Supervise(s.room, hs[1].v, t).calls && StartWatcher in Supervise(s.room, hs[1].v, t).calls
      && s.room.watcher.stamp == Some(older.stamp) && last.w.live == {pid} && KeptFor(last.room.watcher, newer)
  {
    hide AfterCalls, Supervise, Happen, Sound, AtStart;
    var site, hs := NewSite(now, {}, None), StopLeft(pid, older, newer, now);
    assert Reach(site, hs, 0, t) == site;
    FirstStart(pid, older, now, t);
    PlainStart(Reach(site, hs, 1, t), hs[1].v, newer, t);
  }

  /** The watcher is taken to run this binding, or has still to be found. */
  predicate KeptFor(p: Proc, binding: Binding) {
    p.handle.None? && (if p.pid.Some? then p.stamp == Some(binding.stamp) else p.unsure || p.lookedAt.None?)
  }

  predicate LeavesWatcher(calls: seq<Call>) {
    forall c <- calls :: !c.StopWatcher? && !c.StartWatcher?
  }

  lemma KeptTick(room: Room, v: Visit, binding: Binding, t: Timing)
    requires KeptFor(room.watcher, binding) && Tends(room, v, t)
    requires v.look.binding == Some(binding) && binding.enabled && !v.found.Nothing?
    ensures LeavesWatcher(Supervise(room, v, t).calls) && KeptFor(Supervise(room, v, t).room.watcher, binding)
  {
    hide Supervise, Tends, Tend;
    SuperviseShape(room, v, t);
    TendCalls(Recalled(Revived(room, v), v), v, t);
  }

  /**
   * From then on no tick of this supervisor or a later one stops or replaces it for that binding, as long as the room stays
   * tended and each lookup finds a watcher or can't tell.
   */
  lemma {:induction false} SurvivorIsKept(s: Site, binding: Binding, hs: seq<Happening>, k: nat, t: Timing)
    requires k < |hs| && KeptFor(s.room.watcher, binding) && binding.enabled
    requires forall i :: 0 <= i <= k && hs[i].Tick? ==>
      Tends(Reach(s, hs, i, t).room, hs[i].v, t) && hs[i].v.look.binding == Some(binding) && !hs[i].v.found.Nothing?
    ensures var r := Reach(s, hs, k, t);
      KeptFor(r.room.watcher, binding) && (hs[k].Tick? ==> LeavesWatcher(Supervise(r.room, hs[k].v, t).calls))
    decreases k
  {
    hide Supervise, Tends, Sound, AfterVisit;
    if k > 0 {
      SurvivorIsKept(s, binding, hs, k - 1, t);
      var r := Reach(s, hs, k - 1, t);
      if hs[k - 1].Tick? {
        KeptTick(r.room, hs[k - 1].v, binding, t);
      }
    }
    if hs[k].Tick? {
      KeptTick(Reach(s, hs, k, t).room, hs[k].v, binding, t);
    }
  }

  /** A first start that throws after its spawn, the pid not written, and a look once the backoff is over. */
  function ThrownStart(first: Pid, second: Pid, binding: Binding, now: int, later: int): seq<Happening> {
    [Tick(Plain(binding, now, Nothing, true, Nothing, StartThrew(Some(first), false)), true),
     Tick(StartVisit(second, binding, later), true)]
  }

  lemma FirstThrow(pid: Pid, binding: Binding, now: int, t: Timing)
    requires binding.enabled
    ensures var s := Happen(NewSite(now, {}, None), Tick(Plain(binding, now, Nothing, true, Nothing, StartThrew(Some(pid), false)), true), t);
      && s.room.watcher == NewProc.(lookedAt := Some(now), failures := 1, backoffUntil := Some(now + RestartDelay(1, t)), restartDue := true)
      && !s.room.state.Gone? && s.retired.None? && s.w == Watchers({pid}, None, {pid}, {pid})
  {
    hide Happen;
    PlainStart(NewSite(now, {}, None), Plain(binding, now, Nothing, true, Nothing, StartThrew(Some(pid), false)), binding, t);
  }

  /** It is started a second time beside the first, and both live. */
  lemma ThrownStartDoubles(first: Pid, second: Pid, binding: Binding, now: int, later: int, t: Timing)
    requires binding.enabled && first != second && now + RestartDelay(1, t) <= later
    ensures var site, hs := NewSite(now, {}, None), ThrownStart(first, second, binding, now, later);
      var s, last := Reach(site, hs, 1, t), Reach(site, hs, 2, t);
      AtStart(s, hs[1].v, t).own == {first} && StartWatcher in Supervise(s.room, hs[1].v, t).calls && last.w.live == {first, second}
  {
    hide AfterCalls, Supervise, Happen, Sound, AtStart, RestartDelay;
    var site, hs := NewSite(now, {}, None), ThrownStart(first, second, binding, now, later);
    assert Reach(site, hs, 0, t) == site;
    FirstThrow(first, binding, now, t);
    PlainStart(Reach(site, hs, 1, t), hs[1].v, binding, t);
  }

  /** A watcher that a restarted daemon's lookups miss, though watch.pid names it. */
  function MissedWatcher(first: Pid, second: Pid, binding: Binding, now: int, later: int): seq<Happening> {
    [Tick(StartVisit(first, binding, now), true), DaemonRestarts(later), Tick(StartVisit(second, binding, later), true)]
  }

  lemma MissedWatcherDoubles(first: Pid, second: Pid, binding: Binding, now: int, later: int, t: Timing)
    requires binding.enabled && first != second
    ensures var site, hs := NewSite(now, {}, None), MissedWatcher(first, second, binding, now, later);
      Named(Reach(site, hs, 2, t).w, first) && Reach(site, hs, 3, t).w.live == {first, second}
  {
    hide AfterCalls, Supervise, Sound, AfterVisit;
    var site, hs := NewSite(now, {}, None), MissedWatcher(first, second, binding, now, later);
    assert Reach(site, hs, 0, t) == site && Reach(site, hs, 1, t) == Happen(site, hs[0], t);
    FirstStart(first, binding, now, t);
    PlainStart(Reach(site, hs, 2, t), hs[2].v, binding, t);
  }
}
