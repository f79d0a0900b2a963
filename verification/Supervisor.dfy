/**
 * The machine's supervisor, room by room: `createSupervisor` and `restartDelay` in server/agent-daemon.ts.
 *
 * A tick looks at each room's files and supervises it. What the supervisor asks of the system (what it sees, what its
 * calls answer) are inputs; what it does to the system are calls, listed in order.
 */
module Supervisor {
  import opened Wrappers

  type Pid = nat
  type Stamp = nat

  datatype Timing = Timing(fullCheckMs: nat, troubleRecheckMs: nat, stableMs: nat, restartBaseMs: nat, restartMaxMs: nat,
    removedGraceMs: nat)

  /** A process the supervisor started and holds; `exit` is filled in when it ends. */
  datatype Handle = Handle(pid: Pid, exit: Option<int>)

  datatype Proc = Proc(pid: Option<Pid>, handle: Option<Handle>, startedAt: Option<int>, seen: bool, failures: nat, restarts: nat,
    backoffUntil: Option<int>, stamp: Option<Stamp>, lookedAt: Option<int>, unsure: bool, restartDue: bool)

  const NewProc := Proc(None, None, None, false, 0, 0, None, None, None, false, false)

  datatype Binding = Binding(enabled: bool, stamp: Stamp)
  datatype LetGoState = Closed | Removed

  /** What the room's files say at one look. */
  datatype Look = Look(stamp: Stamp, closed: bool, removedSince: Option<int>, stopped: bool, retired: Option<LetGoState>,
    trouble: bool, binding: Option<Binding>)

  /** `repairRunner`'s answer: it threw, found the room unwanted, made a repair, kept a runner, or couldn't repair now. */
  datatype Answer = Threw | Skipped | Repaired | Kept(pid: Option<Pid>) | Busy | NotNow
  datatype Repair = Repair(answer: Answer, started: Option<Handle>, startedAt: int)

  datatype Found = Nothing | AWatcher(pid: Pid) | CantTell
  /**
   * `startWatcher`'s answer: it threw, was skipped, started nothing, adopted a running one, or started one; `runs` is the
   * binding that one runs, when it says. One that threw may have spawned a watcher before, and `wrote`: watch.pid was
   * written after the spawn (a spawn that gave no pid is written, too, and counts as nothing started).
   */
  datatype Start = StartThrew(spawned: Option<Pid>, wrote: bool) | StartSkipped | NotStarted(wrote: bool)
    | Adopted(pid: Pid, runs: Option<Stamp>) | New(handle: Handle, at: int, runs: Option<Stamp>)

  datatype Call =
    | RepairRunner(broken: bool)
    | StartWatcher
    | StopWatcher(pid: Pid)
    | StopRunner
    | Retire(state: LetGoState, stamp: Stamp)

  function Pow2(n: nat): nat {
    if n == 0 then 1 else 2 * Pow2(n - 1)
  }

  /** How long to wait before the next start after `failures` failures in a row. */
  function RestartDelay(failures: nat, t: Timing): nat {
    var doubled := t.restartBaseMs * Pow2(if failures == 0 then 0 else failures - 1);
    if doubled < t.restartMaxMs then doubled else t.restartMaxMs
  }

  /** The process that ended had run long enough to count as having worked. */
  predicate RanStably(p: Proc, t: Timing)
    requires p.handle.Some? && p.handle.value.exit.Some?
  {
    p.startedAt.Some? && t.stableMs <= (if p.handle.value.exit.value < p.startedAt.value then 0 else p.handle.value.exit.value - p.startedAt.value)
  }

  /** A process it held ended: counted, and its next start put off. */
  function EndedProc(p: Proc, t: Timing): Proc
    requires p.handle.Some? && p.handle.value.exit.Some?
  {
    var at := p.handle.value.exit.value;
    var failures := if RanStably(p, t) then 1 else p.failures + 1;
    p.(failures := failures, backoffUntil := Some(at + RestartDelay(failures, t)), handle := None, pid := None, restartDue := true)
  }

  function FailedProc(p: Proc, now: int, t: Timing): Proc {
    p.(failures := p.failures + 1, backoffUntil := Some(now + RestartDelay(p.failures + 1, t)), restartDue := true)
  }

  function ForgottenProc(p: Proc): Proc {
    p.(handle := None, pid := None, stamp := None, lookedAt := None, unsure := false, failures := 0, backoffUntil := None, restartDue := false)
  }

  function Settled(p: Proc, t: Timing): Proc {
    if p.handle.Some? && p.handle.value.exit.Some? then EndedProc(p, t) else p
  }

  // ---- The runner ----

  datatype RunnerChange = RunnerChange(p: Proc, lastFull: int, since: int, called: bool)

  predicate RunnerLooked(p: Proc, lastFull: int, look: Look, now: int, lookup: bool, t: Timing) {
    && !(p.backoffUntil.Some? && now < p.backoffUntil.value)
    && (lastFull == 0 || p.restartDue || (look.trouble && now - lastFull >= t.troubleRecheckMs)
        || (now - lastFull >= t.fullCheckMs && lookup))
  }

  /** The record once the runner the repair started, if it did, is held. */
  function Held(p: Proc, repair: Repair): Proc {
    if repair.started.Some?
    then p.(handle := repair.started, pid := Some(repair.started.value.pid), startedAt := Some(repair.startedAt)) else p
  }

  function AfterRepair(p: Proc, repair: Repair, now: int, t: Timing): Proc {
    var held := Held(p, repair);
    match repair.answer
    case Threw => FailedProc(held, now, t)
    case Skipped => held
    case Repaired => held.(restarts := if held.seen then held.restarts + 1 else held.restarts, seen := true)
    case Kept(pid) =>
      if pid.Some? && !(held.handle.Some? && held.handle.value.pid == pid.value)
      then held.(handle := None, pid := pid, seen := true) else held.(seen := true)
    case Busy => held.(backoffUntil := Some(now + RestartDelay(1, t)), seen := true)
    case NotNow => held.(backoffUntil := Some(now + t.fullCheckMs), seen := true)
  }

  function RunnerStep(before: Proc, lastFull: int, since: int, look: Look, now: int, lookup: bool, repair: Repair, t: Timing): RunnerChange {
    var p := Settled(before, t);
    if !RunnerLooked(p, lastFull, look, now, lookup, t) then RunnerChange(p, lastFull, since, false)
    else
      RunnerChange(AfterRepair(p.(restartDue := false, backoffUntil := None), repair, now, t), now,
                   if repair.started.Some? then repair.startedAt else since, true)
  }

  /** The proof of life says trouble, and enough time passed since the look before. */
  predicate TroubleDue(look: Look, since: int, now: int, t: Timing) {
    look.trouble && now - since >= t.troubleRecheckMs
  }

  predicate FullCheckDue(since: int, now: int, lookup: bool, t: Timing) {
    now - since >= t.fullCheckMs && lookup
  }

  /**
   * When the runner is looked after again after a look at `now`, as long as no exit is heard of: on trouble or at the full check's
   * pace; after a repair that couldn't be made not before the first delay or the whole check's time; after one that threw as soon
   * as its delay is over.
   */
  lemma RepairPacesNext(before: Proc, lastFull: int, since: int, look: Look, now: int, lookup: bool, repair: Repair, t: Timing,
                        later: Look, at: int, afford: bool)
    requires RunnerStep(before, lastFull, since, look, now, lookup, repair, t).called && now != 0
    ensures var c := RunnerStep(before, lastFull, since, look, now, lookup, repair, t);
      var due := TroubleDue(later, now, at, t) || FullCheckDue(now, at, afford, t);
      c.lastFull == now && c.since == (if repair.started.Some? then repair.startedAt else since)
      && (RunnerLooked(c.p, c.lastFull, later, at, afford, t) <==>
            match repair.answer
            case Threw => at >= now + RestartDelay(Settled(before, t).failures + 1, t)
            case Busy => due && at >= now + RestartDelay(1, t)
            case NotNow => due && at >= now + t.fullCheckMs
            case _ => due)
  {
  }

  /** A room just taken up, one whose runner's exit was heard of, or one in trouble is looked after at once; any other at the full check. */
  lemma LookedAfterExactly(p: Proc, lastFull: int, look: Look, now: int, lookup: bool, t: Timing)
    ensures RunnerLooked(p, lastFull, look, now, lookup, t) <==>
      && (p.backoffUntil.None? || p.backoffUntil.value <= now)
      && (lastFull == 0 || p.restartDue || TroubleDue(look, lastFull, now, t) || FullCheckDue(lastFull, now, lookup, t))
  {
  }

  // ---- The watcher ----

  datatype WatcherChange = WatcherChange(p: Proc, calls: seq<Call>)

  predicate Alive(p: Proc) {
    p.handle.Some? || p.pid.Some?
  }

  function PidOf(p: Proc): Pid
    requires Alive(p)
  {
    if p.handle.Some? then p.handle.value.pid else p.pid.value
  }

  predicate WatcherLooked(p: Proc, binding: Option<Binding>, now: int, lookup: bool, t: Timing) {
    p.handle.None? && binding.Some?
    && (p.lookedAt.None? || (now - p.lookedAt.value >= (if p.unsure then t.troubleRecheckMs else t.fullCheckMs) && lookup))
  }

  function AfterLook(p: Proc, binding: Binding, now: int, found: Found): Proc {
    match found
    case CantTell => p.(lookedAt := Some(now), unsure := true)
    case Nothing => p.(lookedAt := Some(now), unsure := false, pid := None)
    case AWatcher(pid) =>
      var q := p.(lookedAt := Some(now), unsure := false, pid := Some(pid));
      if p.pid == Some(pid) then q else q.(stamp := Some(binding.stamp), seen := true)
  }

  /** The watcher as known before anything is done about it: an exit counted, and looked up when due. */
  function KnownWatcher(before: Proc, binding: Option<Binding>, now: int, lookup: bool, found: Found, t: Timing): Proc {
    var p := Settled(before, t);
    if WatcherLooked(p, binding, now, lookup, t) then AfterLook(p, binding.value, now, found) else p
  }

  function Runs(runs: Option<Stamp>, binding: Binding): Stamp {
    if runs.Some? then runs.value else binding.stamp
  }

  function AfterStart(p: Proc, binding: Binding, start: Start, now: int, t: Timing): Proc {
    match start
    case StartThrew(_, _) => FailedProc(p, now, t)
    case StartSkipped => p
    case NotStarted(_) => p
    case Adopted(pid, runs) =>
      p.(pid := Some(pid), stamp := Some(Runs(runs, binding)), lookedAt := Some(now), handle := None, seen := true)
    case New(handle, at, runs) =>
      p.(pid := Some(handle.pid), stamp := Some(Runs(runs, binding)), lookedAt := Some(now), handle := Some(handle), startedAt := Some(at),
         restarts := if p.seen then p.restarts + 1 else p.restarts, seen := true)
  }

  /** What is done about the watcher as known. */
  function WatcherAct(p: Proc, binding: Option<Binding>, now: int, start: Start, t: Timing): WatcherChange {
    if binding.None? || !binding.value.enabled then
      WatcherChange(ForgottenProc(p), if Alive(p) then [StopWatcher(PidOf(p))] else [])
    else if Alive(p) && p.stamp == Some(binding.value.stamp) then WatcherChange(p, [])
    else
      var stops := if Alive(p) then [StopWatcher(PidOf(p))] else [];
      var q := if Alive(p) then p.(handle := None, pid := None, backoffUntil := None) else p;
      if q.unsure || (q.backoffUntil.Some? && now < q.backoffUntil.value) then WatcherChange(q, stops)
      else WatcherChange(AfterStart(q, binding.value, start, now, t), stops + [StartWatcher])
  }

  function WatcherStep(before: Proc, binding: Option<Binding>, now: int, lookup: bool, found: Found, start: Start, t: Timing): WatcherChange {
    WatcherAct(KnownWatcher(before, binding, now, lookup, found, t), binding, now, start, t)
  }

  /** Nothing is started before `until`: the runner isn't looked after, and no watcher is started. */
  ghost predicate HeldBackUntil(p: Proc, until: int, t: Timing) {
    && (forall lastFull: int, look: Look, now: int, lookup: bool :: RunnerLooked(p, lastFull, look, now, lookup, t) ==> until <= now)
    && (forall binding: Option<Binding>, now: int, start: Start :: !Alive(p) && StartWatcher in WatcherAct(p, binding, now, start, t).calls ==>
          until <= now)
  }

  /** A start that failed, for the n-th time in a row, holds the next one back by the n-th delay. */
  lemma FailedHoldsBack(p: Proc, now: int, t: Timing)
    ensures HeldBackUntil(FailedProc(p, now, t), now + RestartDelay(p.failures + 1, t), t)
  {
  }

  /**
   * A process let go or at rest is forgotten: when its room is supervised again it is looked for at the first look, nothing holds
   * its start back, and its next failure is the first in a row; what is kept are its restarts and that it was seen.
   */
  lemma ForgottenStartsAnew(p: Proc, t: Timing)
    ensures var q := ForgottenProc(p);
      && !Alive(q) && q.restarts == p.restarts && q.seen == p.seen
      && (forall look: Look, now: int, lookup: bool :: RunnerLooked(q, 0, look, now, lookup, t))
      && (forall binding: Option<Binding>, now: int, lookup: bool :: binding.Some? ==> WatcherLooked(q, binding, now, lookup, t))
      && (forall binding: Option<Binding>, now: int, start: Start ::
            binding.Some? && binding.value.enabled ==> WatcherAct(q, binding, now, start, t).calls == [StartWatcher])
      && (forall now: int :: FailedProc(q, now, t).backoffUntil == Some(now + RestartDelay(1, t)))
  {
    var q := ForgottenProc(p);
    forall binding: Option<Binding>, now: int, start: Start | binding.Some? && binding.value.enabled
      ensures WatcherAct(q, binding, now, start, t).calls == [StartWatcher]
    {
      assert [] + [StartWatcher] == [StartWatcher];
    }
  }

  // ---- One room ----

  datatype RoomState = Starting | Supervised | Stopped | Gone(how: LetGoState)

  datatype Room = Room(state: RoomState, dropStamp: Option<Stamp>, since: int, lastFull: int, runner: Proc, watcher: Proc)

  function NewRoom(now: int): Room {
    Room(Starting, None, now, 0, NewProc, NewProc)
  }

  /**
   * What one supervision meets: the look, the clock, and what the lookups and calls would answer. `ends`: a stop it makes
   * ends the watcher, which `stopWatcher` doesn't say; `underLock`: what the start's own lookup, under the watch lock, finds.
   */
  datatype Visit = Visit(look: Look, now: int, runnerLookup: bool, repair: Repair, watcherLookup: bool, found: Found, ends: bool,
    underLock: Found, start: Start)

  datatype RoomChange = RoomChange(room: Room, calls: seq<Call>)

  /** The watcher stopped when a room is let go: the one it holds or knows, else one a lookup finds. */
  function StopsOf(watcher: Proc, v: Visit): seq<Call> {
    if Alive(watcher) then [StopWatcher(PidOf(watcher))]
    else if v.look.binding.Some? && v.found.AWatcher? then [StopWatcher(v.found.pid)] else []
  }

  function LetGo(room: Room, how: LetGoState, v: Visit): RoomChange {
    if room.state == Gone(how) then RoomChange(room, [])
    else
      RoomChange(
        room.(state := Gone(how), dropStamp := Some(v.look.stamp), watcher := ForgottenProc(room.watcher), runner := ForgottenProc(room.runner)),
        [Retire(how, v.look.stamp)] + StopsOf(room.watcher, v) + (if how.Removed? then [StopRunner] else []))
  }

  /** A room let go comes back when its stamp changed and it isn't closed. */
  function Revived(room: Room, v: Visit): Room {
    if room.state.Gone? && Some(v.look.stamp) != room.dropStamp && !v.look.closed
    then room.(state := Starting, since := v.now, lastFull := 0) else room
  }

  function Recalled(room: Room, v: Visit): Room {
    if v.look.retired.Some? && room.state != Gone(v.look.retired.value)
    then room.(state := Gone(v.look.retired.value), dropStamp := Some(v.look.stamp), runner := ForgottenProc(room.runner), watcher := ForgottenProc(room.watcher))
    else room
  }

  /** A room that `stop` stopped is left alone. */
  function Rested(room: Room): Room {
    if room.state.Stopped? then room
    else room.(state := Stopped, runner := ForgottenProc(room.runner), watcher := ForgottenProc(room.watcher))
  }

  function Tend(room: Room, v: Visit, t: Timing): RoomChange {
    var used := if room.state.Stopped? then room.(since := v.now, lastFull := 0) else room;
    var r := RunnerStep(used.runner, used.lastFull, used.since, v.look, v.now, v.runnerLookup, v.repair, t);
    var w := WatcherStep(used.watcher, v.look.binding, v.now, v.watcherLookup, v.found, v.start, t);
    RoomChange(used.(state := Supervised, since := r.since, lastFull := r.lastFull, runner := r.p, watcher := w.p),
               (if r.called then [RepairRunner(v.look.trouble)] else []) + w.calls)
  }

  function Supervise(room: Room, v: Visit, t: Timing): RoomChange {
    var revived := Revived(room, v);
    if v.look.closed then LetGo(revived, Closed, v)
    else if v.look.removedSince.Some? && v.now - v.look.removedSince.value >= t.removedGraceMs then LetGo(revived, Removed, v)
    else
      var recalled := Recalled(revived, v);
      if recalled.state.Gone? then RoomChange(recalled, [])
      else if v.look.stopped then
        RoomChange(Rested(recalled), [])
      else Tend(recalled, v, t)
  }

  // ---- What a supervision comes to ----

  predicate RemovedLongEnough(v: Visit, t: Timing) {
    v.look.removedSince.Some? && v.now - v.look.removedSince.value >= t.removedGraceMs
  }

  /** It was let go for the room.json it still has, by this daemon or, as recorded, by an earlier one. */
  predicate StaysGone(room: Room, v: Visit) {
    v.look.retired.Some? || (room.state.Gone? && Some(v.look.stamp) == room.dropStamp)
  }

  /**
   * A room is looked after exactly if it isn't closed, its agent wasn't removed for the grace time, it wasn't let go with this
   * room.json, and nobody stopped it. Any other is let go, if it wasn't for that reason yet, or left alone without a call.
   */
  lemma TendedExactly(room: Room, v: Visit, t: Timing)
    ensures var c := Supervise(room, v, t);
      var drops := v.look.closed || RemovedLongEnough(v, t);
      && (c.room.state.Supervised? <==> !drops && !StaysGone(room, v) && !v.look.stopped)
      && (!drops && !c.room.state.Supervised? ==> c.calls == [])
      && (!drops && !StaysGone(room, v) && v.look.stopped ==>
            c.room.state.Stopped? && (room.state.Stopped? || (!Alive(c.room.runner) && !Alive(c.room.watcher) && c.room.runner.failures == 0)))
  {
  }

  /**
   * Letting go is recorded first, stops the watcher held, known, or found now, and the runner of a removed agent, starts nothing, and
   * forgets both; and it is done once.
   */
  lemma LetGoExactly(room: Room, v: Visit, t: Timing)
    requires v.look.closed || RemovedLongEnough(v, t)
    ensures var c, how := Supervise(room, v, t), if v.look.closed then Closed else Removed;
      var already := room.state == Gone(how) && (v.look.closed || Some(v.look.stamp) == room.dropStamp);
      && c.room.state == Gone(how)
      && (already ==> c.calls == [] && c.room == room)
      && (!already ==>
            && c.room.dropStamp == Some(v.look.stamp) && !Alive(c.room.watcher) && !Alive(c.room.runner)
            && c.calls != [] && c.calls[0] == Retire(how, v.look.stamp)
            && (StopRunner in c.calls <==> how == Removed)
            && (forall pid :: StopWatcher(pid) in c.calls <==>
                  if Alive(room.watcher) then pid == PidOf(room.watcher) else v.look.binding.Some? && v.found == AWatcher(pid))
            && StartWatcher !in c.calls && (forall broken :: RepairRunner(broken) !in c.calls))
  {
  }

  /** A room that was let go and connects again, or that is used again after a stop, has its runner looked after at once. */
  lemma BackInUseIsLookedAfter(room: Room, v: Visit, t: Timing)
    requires room.state.Gone? || room.state.Stopped?
    requires room.runner.backoffUntil.None? && room.runner.handle.None? && Supervise(room, v, t).room.state.Supervised?
    ensures RepairRunner(v.look.trouble) in Supervise(room, v, t).calls
  {
  }

  /** What a repair leaves on record: the restart it counts, and the runner that runs now. */
  lemma RepairTells(p: Proc, repair: Repair, now: int, t: Timing)
    ensures var q := AfterRepair(p, repair, now, t);
      && (q.restarts == if repair.answer.Repaired? && p.seen then p.restarts + 1 else p.restarts)
      && (q.failures == if repair.answer.Threw? then p.failures + 1 else p.failures)
      && (q.seen <==> p.seen || (!repair.answer.Threw? && !repair.answer.Skipped?))
      && (repair.answer.Kept? && repair.answer.pid.Some? ==> Alive(q) && PidOf(q) == repair.answer.pid.value)
      && (repair.started.Some? && !(repair.answer.Kept? && repair.answer.pid.Some? && repair.answer.pid.value != repair.started.value.pid) ==>
            q.handle == repair.started && q.startedAt == Some(repair.startedAt))
      && (repair.started.None? && !(repair.answer.Kept? && repair.answer.pid.Some?) ==> q.handle == p.handle && q.pid == p.pid)
  {
  }

  /**
   * The watcher is looked up exactly if none is held, the room is bound, and it never was, or a lookup can be afforded and the last
   * was the full check's time ago, or the shorter one's where it couldn't tell.
   */
  lemma LookedUpExactly(p: Proc, binding: Option<Binding>, now: int, lookup: bool, t: Timing)
    ensures WatcherLooked(p, binding, now, lookup, t) <==>
      && p.handle.None? && binding.Some?
      && (p.lookedAt.None?
          || (lookup && p.unsure && p.lookedAt.value + t.troubleRecheckMs <= now)
          || (lookup && !p.unsure && p.lookedAt.value + t.fullCheckMs <= now))
  {
  }

  /** What a lookup leaves on record of the watcher: another one found is taken to run the binding, one known already isn't. */
  lemma LookTells(p: Proc, binding: Binding, now: int, found: Found)
    ensures var q := AfterLook(p, binding, now, found);
      && (q.unsure <==> found.CantTell?) && q.lookedAt == Some(now)
      && (found.AWatcher? ==> q.pid == Some(found.pid) && (q.stamp == if p.pid == q.pid then p.stamp else Some(binding.stamp)))
      && (found.Nothing? ==> q.pid.None?) && (found.CantTell? ==> q.pid == p.pid)
  {
  }

  /**
   * A watcher that was started or adopted runs the binding it says, or else the one asked for: the next look with another one stops
   * it and starts anew, and one with the same leaves it, as long as it is held.
   */
  lemma RunsWhatItSays(p: Proc, binding: Binding, start: Start, now: int, later: Binding, at: int, lookup: bool, found: Found, next: Start,
                       t: Timing)
    requires start.New? && start.handle.exit.None? && later.enabled && !p.unsure
    ensures var q := AfterStart(p, binding, start, now, t);
      var runs := if start.runs.Some? then start.runs.value else binding.stamp;
      var calls := WatcherStep(q, Some(later), at, lookup, found, next, t).calls;
      if later.stamp == runs then calls == [] else calls == [StopWatcher(start.handle.pid), StartWatcher]
  {
    assert [StopWatcher(start.handle.pid)] + [StartWatcher] == [StopWatcher(start.handle.pid), StartWatcher];
  }

  /** And restarts are counted from the second on that this supervisor saw. */
  lemma StartTells(p: Proc, binding: Binding, start: Start, now: int, t: Timing)
    ensures var q := AfterStart(p, binding, start, now, t);
      && (q.restarts == if start.New? && p.seen then p.restarts + 1 else p.restarts)
      && (q.seen <==> p.seen || start.New? || start.Adopted?)
      && (q.failures == if start.StartThrew? then p.failures + 1 else p.failures)
      && (start.New? ==> q.handle == Some(start.handle) && q.startedAt == Some(start.at))
      && (start.Adopted? ==> q.handle.None? && q.pid == Some(start.pid) && q.lookedAt == Some(now))
  {
  }

  // ---- The supervisor's records, updated in place ----

  class ProcRecord {
    var pid: Option<Pid>
    var handle: Option<Handle>
    var startedAt: Option<int>
    var seen: bool
    var failures: nat
    var restarts: nat
    var backoffUntil: Option<int>
    var stamp: Option<Stamp>
    var lookedAt: Option<int>
    var unsure: bool
    var restartDue: bool

    function View(): Proc
      reads this
    {
      Proc(pid, handle, startedAt, seen, failures, restarts, backoffUntil, stamp, lookedAt, unsure, restartDue)
    }

    constructor ()
      ensures View() == NewProc
    {
      pid, handle, startedAt, seen, failures, restarts := None, None, None, false, 0, 0;
      backoffUntil, stamp, lookedAt, unsure, restartDue := None, None, None, false, false;
    }

    method Ended(t: Timing)
      requires handle.Some? && handle.value.exit.Some?
      modifies this
      ensures View() == EndedProc(old(View()), t)
    {
      var at := handle.value.exit.value;
      var stable := false;
      if startedAt.Some? {
        var ranMs := if at < startedAt.value then 0 else at - startedAt.value;
        stable := ranMs >= t.stableMs;
      }
      failures := if stable then 1 else failures + 1;
      backoffUntil := Some(at + RestartDelay(failures, t));
      handle, pid, restartDue := None, None, true;
    }

    /** An exit the daemon heard of is counted first of all. */
    method Settle(t: Timing)
      modifies this
      ensures View() == Settled(old(View()), t)
    {
      if handle.Some? && handle.value.exit.Some? {
        Ended(t);
      }
    }

    method Failed(now: int, t: Timing)
      modifies this
      ensures View() == FailedProc(old(View()), now, t)
      ensures View().failures == old(View()).failures + 1 && HeldBackUntil(View(), now + RestartDelay(View().failures, t), t)
    {
      FailedHoldsBack(View(), now, t);
      failures := failures + 1;
      backoffUntil, restartDue := Some(now + RestartDelay(failures, t)), true;
    }

    method Forget()
      modifies this
      ensures View() == ForgottenProc(old(View()))
    {
      handle, pid, stamp, lookedAt, unsure := None, None, None, None, false;
      failures, backoffUntil, restartDue := 0, None, false;
    }

    /** The daemon hears that the process it holds ended. */
    method Exited(at: int)
      requires handle.Some?
      modifies this`handle
      ensures View() == old(View()).(handle := Some(Handle(old(handle).value.pid, if old(handle).value.exit.Some? then old(handle).value.exit else Some(at))))
    {
      if handle.value.exit.None? {
        handle := Some(Handle(handle.value.pid, Some(at)));
      }
    }
  }

  class RoomRecord {
    const runner: ProcRecord
    const watcher: ProcRecord
    var state: RoomState
    var dropStamp: Option<Stamp>
    var since: int
    var lastFull: int

    ghost predicate Valid() {
      runner != watcher
    }

    function View(): Room
      reads this, runner, watcher
    {
      Room(state, dropStamp, since, lastFull, runner.View(), watcher.View())
    }

    constructor (now: int)
      ensures Valid() && fresh(runner) && fresh(watcher) && View() == NewRoom(now)
    {
      runner := new ProcRecord();
      watcher := new ProcRecord();
      state, dropStamp, since, lastFull := Starting, None, now, 0;
    }

    method Runner(v: Visit, t: Timing) returns (called: bool)
      requires Valid()
      modifies this, runner
      ensures RunnerChange(runner.View(), lastFull, since, called)
        == RunnerStep(old(runner.View()), old(lastFull), old(since), v.look, v.now, v.runnerLookup, v.repair, t)
      ensures state == old(state) && dropStamp == old(dropStamp)
    {
      var p := runner;
      p.Settle(t);
      var urgent := lastFull == 0 || p.restartDue || (v.look.trouble && v.now - lastFull >= t.troubleRecheckMs);
      if p.backoffUntil.Some? && v.now < p.backoffUntil.value {
        return false;
      }
      if !urgent && !(v.now - lastFull >= t.fullCheckMs && v.runnerLookup) {
        return false;
      }
      called := true;
      lastFull := v.now;
      p.restartDue, p.backoffUntil := false, None;
      Repaired(v.repair, v.now, t);
    }

    /** What `repairRunner` answered, and the runner it started on the way. */
    method Repaired(repair: Repair, now: int, t: Timing)
      requires Valid()
      modifies this`since, runner
      ensures runner.View() == AfterRepair(old(runner.View()), repair, now, t)
      ensures since == if repair.started.Some? then repair.startedAt else old(since)
    {
      var p := runner;
      if repair.started.Some? {
        p.handle, p.pid, p.startedAt := repair.started, Some(repair.started.value.pid), Some(repair.startedAt);
        since := repair.startedAt;
      }
      match repair.answer {
        case Threw => p.Failed(now, t); return;
        case Skipped => return;
        case Repaired =>
          if p.seen { p.restarts := p.restarts + 1; }
        case Kept(pid) =>
          if pid.Some? && !(p.handle.Some? && p.handle.value.pid == pid.value) { p.handle, p.pid := None, pid; }
        case Busy => p.backoffUntil := Some(now + RestartDelay(1, t));
        case NotNow => p.backoffUntil := Some(now + t.fullCheckMs);
      }
      p.seen := true;
    }

    method LookUpWatcher(v: Visit, t: Timing)
      requires Valid()
      modifies watcher
      ensures watcher.View() == KnownWatcher(old(watcher.View()), v.look.binding, v.now, v.watcherLookup, v.found, t)
    {
      var p := watcher;
      p.Settle(t);
      if p.handle.None? && v.look.binding.Some?
         && (p.lookedAt.None? || (v.now - p.lookedAt.value >= (if p.unsure then t.troubleRecheckMs else t.fullCheckMs) && v.watcherLookup))
      {
        var before := p.pid;
        p.lookedAt := Some(v.now);
        match v.found {
          case CantTell => p.unsure := true;
          case Nothing => p.unsure, p.pid := false, None;
          case AWatcher(pid) =>
            p.unsure, p.pid := false, Some(pid);
            if p.pid != before { p.stamp, p.seen := Some(v.look.binding.value.stamp), true; }
        }
      }
    }

    method Watcher(v: Visit, t: Timing) returns (calls: seq<Call>)
      requires Valid()
      modifies watcher
      ensures WatcherChange(watcher.View(), calls)
        == WatcherStep(old(watcher.View()), v.look.binding, v.now, v.watcherLookup, v.found, v.start, t)
    {
      LookUpWatcher(v, t);
      var p := watcher;
      calls := [];
      if v.look.binding.None? || !v.look.binding.value.enabled {
        if Alive(p.View()) { calls := [StopWatcher(PidOf(p.View()))]; }
        p.Forget();
        return;
      }
      if Alive(p.View()) {
        if p.stamp == Some(v.look.binding.value.stamp) { return; }
        calls := [StopWatcher(PidOf(p.View()))];
        p.handle, p.pid, p.backoffUntil := None, None, None;
      }
      if p.unsure || (p.backoffUntil.Some? && v.now < p.backoffUntil.value) { return; }
      calls := calls + [StartWatcher];
      Started(v.start, v.look.binding.value, v.now, t);
    }

    method Started(start: Start, binding: Binding, now: int, t: Timing)
      requires Valid()
      modifies watcher
      ensures watcher.View() == AfterStart(old(watcher.View()), binding, start, now, t)
    {
      var p := watcher;
      match start {
        case StartThrew(_, _) => p.Failed(now, t);
        case StartSkipped =>
        case NotStarted(_) =>
        case Adopted(pid, runs) =>
          p.pid, p.stamp, p.lookedAt, p.handle, p.seen := Some(pid), Some(Runs(runs, binding)), Some(now), None, true;
        case New(handle, at, runs) =>
          p.pid, p.stamp, p.lookedAt, p.handle, p.startedAt := Some(handle.pid), Some(Runs(runs, binding)), Some(now), Some(handle), Some(at);
          if p.seen { p.restarts := p.restarts + 1; }
          p.seen := true;
      }
    }

    method StopWatcherOf(v: Visit) returns (stops: seq<Call>)
      requires Valid()
      modifies watcher
      ensures watcher.View() == ForgottenProc(old(watcher.View())) && stops == StopsOf(old(watcher.View()), v)
    {
      stops := [];
      if Alive(watcher.View()) {
        stops := [StopWatcher(PidOf(watcher.View()))];
      } else if v.look.binding.Some? && v.found.AWatcher? {
        stops := [StopWatcher(v.found.pid)];
      }
      watcher.Forget();
    }

    method DropRoom(how: LetGoState, v: Visit) returns (calls: seq<Call>)
      requires Valid()
      modifies this, runner, watcher
      ensures RoomChange(View(), calls) == LetGo(old(View()), how, v)
    {
      if state == Gone(how) {
        return [];
      }
      state, dropStamp := Gone(how), Some(v.look.stamp);
      var stops := StopWatcherOf(v);
      calls := [Retire(how, v.look.stamp)] + stops + (if how.Removed? then [StopRunner] else []);
      runner.Forget();
    }

    method Revive(v: Visit)
      requires Valid()
      modifies this
      ensures View() == Revived(old(View()), v)
    {
      if state.Gone? && Some(v.look.stamp) != dropStamp && !v.look.closed {
        state, since, lastFull := Starting, v.now, 0;
      }
    }

    /** Let go by an earlier daemon, which recorded it: it stays let go. */
    method Recall(v: Visit)
      requires Valid()
      modifies this, runner, watcher
      ensures View() == Recalled(old(View()), v)
    {
      if v.look.retired.Some? && state != Gone(v.look.retired.value) {
        state, dropStamp := Gone(v.look.retired.value), Some(v.look.stamp);
        runner.Forget();
        watcher.Forget();
      }
    }

    method LeaveAlone()
      requires Valid()
      modifies this`state, runner, watcher
      ensures View() == Rested(old(View()))
    {
      if !state.Stopped? {
        runner.Forget();
        watcher.Forget();
      }
      state := Stopped;
    }

    /** `supervise`: one room, one tick. */
    method Visit(v: Visit, t: Timing) returns (calls: seq<Call>)
      requires Valid()
      modifies this, runner, watcher
      ensures RoomChange(View(), calls) == Supervise(old(View()), v, t)
    {
      Revive(v);
      if v.look.closed {
        calls := DropRoom(Closed, v);
      } else if v.look.removedSince.Some? && v.now - v.look.removedSince.value >= t.removedGraceMs {
        calls := DropRoom(Removed, v);
      } else {
        Recall(v);
        if state.Gone? {
          calls := [];
        } else if v.look.stopped {
          LeaveAlone();
          calls := [];
        } else {
          calls := TendRoom(v, t);
        }
      }
    }

    method TendRoom(v: Visit, t: Timing) returns (calls: seq<Call>)
      requires Valid()
      modifies this, runner, watcher
      ensures RoomChange(View(), calls) == Tend(old(View()), v, t)
    {
      if state.Stopped? {
        since, lastFull := v.now, 0;
      }
      state := Supervised;
      var called := Runner(v, t);
      var more := Watcher(v, t);
      calls := (if called then [RepairRunner(v.look.trouble)] else []) + more;
    }
  }
}
