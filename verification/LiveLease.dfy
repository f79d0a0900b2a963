/**
 * The live lease of one mailbox: the lease functions of server/agent-live.ts. Each takes the lease lock, so each is one
 * atomic step on the lease file; what it asks of the system comes with it.
 */
module LiveLease {
  import opened Wrappers

  type Pid = nat

  /** A listener's process: its pid and its start time, which tell it apart from a later process with that pid. */
  datatype Process = Process(pid: Pid, started: nat)

  datatype Mode = Attached | Pickup | Headless

  /** What a returned listen consumed: the cursor before and after it, and how often the agent had acted then. */
  datatype Reoffer = Reoffer(before: nat, after: nat, actions: nat)

  /** The lease file. A headless claim has `run` and `until`; the other fields are a listener's. */
  datatype Lease = Lease(mode: Mode, holder: Process, heartbeat: int, returnedAt: int, pickupUntil: int,
    reoffer: Option<Reoffer>, reoffered: bool, run: Option<Pid>, until: int)

  datatype Hold = HeldAttached | HeldPickup | HeldHeadless | Stale | Expired | NoHold
  datatype Verdict = Same | Gone | Unknown

  /** The answers of the system at one decision: the clock, the pids that run, whether the leaseholder is who it was. */
  datatype System = System(now: int, alive: set<Pid>, verdict: Verdict, lastActed: Option<int>)

  const STALE_MS := 30_000
  const PICKUP_LIFE_MS := 600_000
  const PICKUP_CAP_MS := 3_600_000

  /** What a lease means now (`liveHold`). */
  function HoldOf(lease: Option<Lease>, sys: System): Hold {
    match lease
    case None => NoHold
    case Some(l) =>
      match l.mode
      case Headless =>
        if sys.now < l.until && (l.holder.pid in sys.alive || (l.run.Some? && l.run.value in sys.alive)) then HeldHeadless else NoHold
      case Pickup =>
        if sys.now < l.pickupUntil then HeldPickup
        else if sys.lastActed.Some? && sys.now - sys.lastActed.value < PICKUP_LIFE_MS && sys.now < l.returnedAt + PICKUP_CAP_MS then HeldPickup
        else Expired
      case Attached =>
        var age := sys.now - l.heartbeat;
        if l.holder.pid !in sys.alive then Stale
        else if age < STALE_MS then HeldAttached
        else if age < 2 * STALE_MS && sys.verdict == Same then HeldAttached
        else Stale
  }

  predicate Ours(lease: Option<Lease>, me: Process) {
    lease.Some? && !lease.value.mode.Headless? && lease.value.holder == me
  }

  /** Work returned by a listener that nobody handled or was given back. */
  predicate Unspent(lease: Option<Lease>) {
    lease.Some? && !lease.value.mode.Headless? && lease.value.reoffer.Some? && !lease.value.reoffered
  }

  datatype AttachResult = Granted | Refused | Wait

  function AttachAnswer(lease: Option<Lease>, me: Process, sys: System): AttachResult {
    var hold := HoldOf(lease, sys);
    if lease.Some? && lease.value.mode.Attached? && hold.HeldAttached? && lease.value.holder.pid != me.pid && !sys.verdict.Gone? then Refused
    else if hold.HeldHeadless? then Wait
    else Granted
  }

  function AttachedLease(lease: Option<Lease>, me: Process, sys: System): Lease {
    Lease(Attached, me, sys.now, 0, 0, if Unspent(lease) then lease.value.reoffer else None, false, None, 0)
  }

  function AfterAttach(lease: Option<Lease>, me: Process, sys: System): Option<Lease> {
    if AttachAnswer(lease, me, sys).Granted? then Some(AttachedLease(lease, me, sys)) else lease
  }

  function AfterBeat(lease: Option<Lease>, me: Process, sys: System): Option<Lease> {
    if Ours(lease, me) && lease.value.mode.Attached? then Some(lease.value.(heartbeat := sys.now)) else lease
  }

  /** Carried work still unhandled is offered together with what this listen returned. */
  function Merged(carried: Option<Reoffer>, returned: Reoffer): Reoffer {
    if carried.Some? && carried.value.after == returned.before && carried.value.actions == returned.actions
    then returned.(before := carried.value.before) else returned
  }

  function AfterPickup(lease: Option<Lease>, me: Process, sys: System, graceMs: nat, returned: Reoffer): Option<Lease> {
    if !Ours(lease, me) then lease
    else Some(lease.value.(mode := Pickup, returnedAt := sys.now, pickupUntil := sys.now + graceMs,
                           reoffer := Some(Merged(lease.value.reoffer, returned))))
  }

  function AfterRelease(lease: Option<Lease>, me: Process, sys: System): Option<Lease> {
    if !Ours(lease, me) || !lease.value.mode.Attached? then lease
    else if Unspent(lease) then Some(lease.value.(mode := Pickup, returnedAt := sys.now, pickupUntil := sys.now))
    else None
  }

  predicate Ended(hold: Hold) {
    hold.Expired? || hold.Stale?
  }

  /** The work is still as the listener left it: nothing read on, nothing acted. */
  predicate Due(lease: Option<Lease>, cursor: nat, actions: nat) {
    Unspent(lease) && cursor == lease.value.reoffer.value.after && actions == lease.value.reoffer.value.actions
  }

  /** The cursor the gate gives back, if it does. */
  function GateGives(lease: Option<Lease>, sys: System, cursor: nat, actions: nat): Option<nat> {
    if Ended(HoldOf(lease, sys)) && Due(lease, cursor, actions) then Some(lease.value.reoffer.value.before) else None
  }

  function AfterGate(lease: Option<Lease>, sys: System, cursor: nat, actions: nat): Option<Lease> {
    if GateGives(lease, sys, cursor, actions).Some? then Some(lease.value.(reoffered := true)) else lease
  }

  predicate MayBegin(lease: Option<Lease>, sys: System) {
    var hold := HoldOf(lease, sys);
    !hold.HeldAttached? && !hold.HeldPickup?
  }

  function AfterBegin(lease: Option<Lease>, watcher: Process, untilMs: nat, sys: System): Option<Lease> {
    if MayBegin(lease, sys) then Some(Lease(Headless, watcher, 0, 0, 0, None, false, None, sys.now + untilMs)) else lease
  }

  predicate ClaimOf(lease: Option<Lease>, watcher: Pid) {
    lease.Some? && lease.value.mode.Headless? && lease.value.holder.pid == watcher
  }

  function AfterStarted(lease: Option<Lease>, watcher: Pid, run: Pid): Option<Lease> {
    if ClaimOf(lease, watcher) then Some(lease.value.(run := Some(run))) else lease
  }

  function AfterEnd(lease: Option<Lease>, watcher: Pid): Option<Lease> {
    if ClaimOf(lease, watcher) then None else lease
  }

  // ---- What a caller relies on ----

  /**
   * The lease's listener is there: its process runs, and its heartbeat is less than half a minute old, or less than a whole one and
   * the process is verified to be that listener (a machine back from sleep looks before the listener beats again).
   */
  predicate ListenerThere(l: Lease, sys: System) {
    l.mode.Attached? && l.holder.pid in sys.alive
    && (sys.now - l.heartbeat < 30_000 || (sys.now - l.heartbeat < 60_000 && sys.verdict.Same?))
  }

  /** The work that was returned is being handled: its window runs, or the session acted within ten minutes, in the hour after the return. */
  predicate WindowOpen(l: Lease, sys: System) {
    l.mode.Pickup?
    && (sys.now < l.pickupUntil
        || (sys.lastActed.Some? && sys.now - sys.lastActed.value < 600_000 && sys.now < l.returnedAt + 3_600_000))
  }

  /** A headless wake has the mailbox: its watcher or its run lives, and its time isn't up. */
  predicate ClaimStands(l: Lease, sys: System) {
    l.mode.Headless? && sys.now < l.until && (l.holder.pid in sys.alive || (l.run.Some? && l.run.value in sys.alive))
  }

  /**
   * What every decision about the mailbox comes to. A wake may begin unless a listener is there or its return is being handled. A
   * listener is refused exactly beside another that is there and not verifiably gone, waits exactly for a wake that stands, and
   * else takes the mailbox with the unspent work. The gate gives unhandled work back exactly once neither a listener nor a window
   * keeps it.
   */
  lemma DecisionsExactly(l: Lease, me: Process, sys: System, cursor: nat, actions: nat)
    ensures MayBegin(Some(l), sys) <==> !ListenerThere(l, sys) && !WindowOpen(l, sys)
    ensures AttachAnswer(Some(l), me, sys).Refused? <==> ListenerThere(l, sys) && l.holder.pid != me.pid && !sys.verdict.Gone?
    ensures AttachAnswer(Some(l), me, sys).Wait? <==> ClaimStands(l, sys)
    ensures AttachAnswer(Some(l), me, sys).Granted? ==>
      var after := AfterAttach(Some(l), me, sys).value;
      && ListenerThere(after, sys.(alive := sys.alive + {me.pid})) && after.holder == me && Unspent(Some(after)) == Unspent(Some(l))
      && (Unspent(Some(l)) ==> after.reoffer == l.reoffer)
    ensures GateGives(Some(l), sys, cursor, actions) ==
      if l.mode.Headless? || ListenerThere(l, sys) || WindowOpen(l, sys) || l.reoffered || l.reoffer.None?
         || cursor != l.reoffer.value.after || actions != l.reoffer.value.actions
      then None else Some(l.reoffer.value.before)
  {
  }

  /** With no lease every wake may begin, every listener may attach, and nothing is given back. */
  lemma NoLeaseHoldsNothing(me: Process, sys: System, cursor: nat, actions: nat)
    ensures MayBegin(None, sys) && AttachAnswer(None, me, sys).Granted? && GateGives(None, sys, cursor, actions).None?
    ensures AfterAttach(None, me, sys).value.reoffer.None?
  {
  }

  /** Once its heartbeat is half a minute old, a listener whose process runs is displaced by nobody as long as it is verified. */
  lemma LateListenerHolds(l: Lease, me: Process, sys: System)
    requires l.mode.Attached? && l.holder.pid in sys.alive && STALE_MS <= sys.now - l.heartbeat < 2 * STALE_MS
    ensures if sys.verdict.Same?
      then !MayBegin(Some(l), sys) && (me.pid != l.holder.pid ==> AttachAnswer(Some(l), me, sys).Refused? && AfterAttach(Some(l), me, sys) == Some(l))
      else MayBegin(Some(l), sys) && AttachAnswer(Some(l), me, sys).Granted?
  {
    DecisionsExactly(l, me, sys, 0, 0);
  }

  /** How long a return keeps wakes out: its own window, and on as long as the session acts at least every ten minutes, for an hour. */
  lemma ActingKeepsWindowOpen(lease: Option<Lease>, me: Process, sys: System, graceMs: nat, returned: Reoffer, later: System)
    requires Ours(lease, me)
    ensures !MayBegin(AfterPickup(lease, me, sys, graceMs, returned), later) <==>
      || later.now < sys.now + graceMs
      || (later.lastActed.Some? && later.now - later.lastActed.value < PICKUP_LIFE_MS && later.now < sys.now + PICKUP_CAP_MS)
  {
    DecisionsExactly(AfterPickup(lease, me, sys, graceMs, returned).value, me, later, 0, 0);
  }

  /** A listener that is there holds the mailbox through every look for the next STALE_MS, and for another one where it is verified. */
  ghost predicate HoldsFrom(lease: Option<Lease>, me: Process, at: int) {
    forall s: System :: at <= s.now < at + 2 * STALE_MS && me.pid in s.alive && (s.now < at + STALE_MS || s.verdict.Same?) ==>
      HoldOf(lease, s).HeldAttached?
  }

  /** No wake begins before `until`, whoever looks. */
  ghost predicate KeepsWakesOut(lease: Option<Lease>, until: int) {
    forall s: System :: s.now < until ==> !MayBegin(lease, s)
  }

  /** While that process lives, every listener that would attach before `until` is told to wait. */
  ghost predicate KeepsListenersOut(lease: Option<Lease>, living: Pid, until: int) {
    forall s: System, me: Process :: s.now < until && living in s.alive ==> AttachAnswer(lease, me, s).Wait?
  }

  /** From `at` on, a gate gives back the work from `before`, if nobody read on past `after` or acted. */
  ghost predicate GivesBack(lease: Option<Lease>, at: int, before: nat, after: nat, actions: nat) {
    forall s: System :: at <= s.now && s.lastActed.None? ==> GateGives(lease, s, after, actions) == Some(before)
  }

  /** A heartbeat of the listener the lease is of renews its hold, and keeps the work it carries; anyone else's changes nothing. */
  lemma BeatRenews(lease: Option<Lease>, me: Process, sys: System)
    ensures var after := AfterBeat(lease, me, sys);
      if Ours(lease, me) && lease.value.mode.Attached?
      then HoldsFrom(after, me, sys.now) && after.value.reoffer == lease.value.reoffer && after.value.reoffered == lease.value.reoffered
      else after == lease
  {
  }

  /**
   * A return of the listener the lease is of keeps wakes out for its window and is given back after it, from where carried work
   * began if it joins on; anyone else's changes nothing.
   */
  lemma ReturnIsGivenBack(lease: Option<Lease>, me: Process, sys: System, graceMs: nat, returned: Reoffer)
    ensures var after := AfterPickup(lease, me, sys, graceMs, returned);
      && (!Ours(lease, me) ==> after == lease)
      && (Ours(lease, me) ==> KeepsWakesOut(after, sys.now + graceMs))
      && (Ours(lease, me) && !lease.value.reoffered ==>
            var carried := lease.value.reoffer;
            var joins := carried.Some? && carried.value.after == returned.before && carried.value.actions == returned.actions;
            GivesBack(after, sys.now + graceMs, if joins then carried.value.before else returned.before, returned.after, returned.actions))
  {
  }

  /** A listener that ends without work leaves no lease, unless it carries unspent work, which a gate gives back at once. */
  lemma ReleaseKeepsCarriedWork(lease: Option<Lease>, me: Process, sys: System)
    ensures var after := AfterRelease(lease, me, sys);
      && (!(Ours(lease, me) && lease.value.mode.Attached?) ==> after == lease)
      && (Ours(lease, me) && lease.value.mode.Attached? ==>
            if Unspent(lease) then var r := lease.value.reoffer.value; GivesBack(after, sys.now, r.before, r.after, r.actions) else after.None?)
  {
  }

  /** A claim that succeeds keeps listeners out while its watcher lives, and after its run is recorded while that lives. */
  lemma ClaimKeepsListenersOut(lease: Option<Lease>, watcher: Process, untilMs: nat, run: Pid, sys: System)
    ensures var begun := AfterBegin(lease, watcher, untilMs, sys);
      && (!MayBegin(lease, sys) ==> begun == lease)
      && (MayBegin(lease, sys) ==>
            && KeepsListenersOut(begun, watcher.pid, sys.now + untilMs)
            && KeepsListenersOut(AfterStarted(begun, watcher.pid, run), watcher.pid, sys.now + untilMs)
            && KeepsListenersOut(AfterStarted(begun, watcher.pid, run), run, sys.now + untilMs)
            && AfterEnd(AfterStarted(begun, watcher.pid, run), watcher.pid).None?)
  {
  }

  /** The watcher's later calls leave any lease but its own claim as it is: a listener's, or another watcher's. */
  lemma OnlyItsOwnClaim(lease: Option<Lease>, watcher: Pid, run: Pid)
    requires !ClaimOf(lease, watcher)
    ensures AfterStarted(lease, watcher, run) == lease && AfterEnd(lease, watcher) == lease
  {
  }

  // ---- The lease file, rewritten in place ----

  class Mailbox {
    var lease: Option<Lease>

    constructor ()
      ensures lease == None
    {
      lease := None;
    }

    method Attach(me: Process, sys: System) returns (answer: AttachResult)
      modifies this
      ensures answer == AttachAnswer(old(lease), me, sys) && lease == AfterAttach(old(lease), me, sys)
    {
      var hold := HoldOf(lease, sys);
      if lease.Some? && lease.value.mode.Attached? && hold.HeldAttached? && lease.value.holder.pid != me.pid {
        if !sys.verdict.Gone? {
          return Refused;
        }
      }
      if hold.HeldHeadless? {
        return Wait;
      }
      var carried := None;
      if lease.Some? && !lease.value.mode.Headless? && !lease.value.reoffered {
        carried := lease.value.reoffer;
      }
      lease := Some(Lease(Attached, me, sys.now, 0, 0, carried, false, None, 0));
      answer := Granted;
    }

    /** False once the lease is someone else's. */
    method Beat(me: Process, sys: System) returns (ours: bool)
      modifies this
      ensures lease == AfterBeat(old(lease), me, sys)
      ensures ours <==> Ours(old(lease), me) && old(lease).value.mode.Attached?
      ensures if ours then HoldsFrom(lease, me, sys.now) && Unspent(lease) == Unspent(old(lease)) else lease == old(lease)
    {
      ours := Ours(lease, me) && lease.value.mode.Attached?;
      if ours {
        lease := Some(lease.value.(heartbeat := sys.now));
      }
    }

    method PickUp(me: Process, sys: System, graceMs: nat, returned: Reoffer)
      modifies this
      ensures lease == AfterPickup(old(lease), me, sys, graceMs, returned)
      ensures if Ours(old(lease), me) then KeepsWakesOut(lease, sys.now + graceMs) else lease == old(lease)
      ensures Ours(old(lease), me) && !old(lease).value.reoffered ==>
        GivesBack(lease, sys.now + graceMs, Merged(old(lease).value.reoffer, returned).before, returned.after, returned.actions)
    {
      ReturnIsGivenBack(lease, me, sys, graceMs, returned);
      if Ours(lease, me) {
        var merged := Merged(lease.value.reoffer, returned);
        lease := Some(lease.value.(mode := Pickup, returnedAt := sys.now, pickupUntil := sys.now + graceMs, reoffer := Some(merged)));
      }
    }

    method Release(me: Process, sys: System)
      modifies this
      ensures lease == AfterRelease(old(lease), me, sys)
      ensures Unspent(old(lease)) ==> Unspent(lease) && lease.value.reoffer == old(lease).value.reoffer
    {
      if Ours(lease, me) && lease.value.mode.Attached? {
        if lease.value.reoffer.Some? && !lease.value.reoffered {
          lease := Some(lease.value.(mode := Pickup, returnedAt := sys.now, pickupUntil := sys.now));
        } else {
          lease := None;
        }
      }
    }

    method Gate(sys: System, cursor: nat, actions: nat) returns (hold: Hold, reoffer: Option<nat>)
      modifies this
      ensures hold == HoldOf(old(lease), sys)
      ensures reoffer == GateGives(old(lease), sys, cursor, actions) && lease == AfterGate(old(lease), sys, cursor, actions)
    {
      hold, reoffer := HoldOf(lease, sys), None;
      if (hold.Expired? || hold.Stale?) && Due(lease, cursor, actions) {
        reoffer := Some(lease.value.reoffer.value.before);
        lease := Some(lease.value.(reoffered := true));
      }
    }

    method Begin(watcher: Process, untilMs: nat, sys: System) returns (began: bool)
      modifies this
      ensures began <==> MayBegin(old(lease), sys)
      ensures lease == AfterBegin(old(lease), watcher, untilMs, sys)
      ensures if began then KeepsListenersOut(lease, watcher.pid, sys.now + untilMs) else lease == old(lease)
    {
      var hold := HoldOf(lease, sys);
      began := !(hold.HeldAttached? || hold.HeldPickup?);
      if began {
        lease := Some(Lease(Headless, watcher, 0, 0, 0, None, false, None, sys.now + untilMs));
      }
    }

    method Started(watcher: Pid, run: Pid)
      modifies this
      ensures lease == AfterStarted(old(lease), watcher, run)
      ensures if ClaimOf(old(lease), watcher) then KeepsListenersOut(lease, run, old(lease).value.until) else lease == old(lease)
    {
      if ClaimOf(lease, watcher) {
        lease := Some(lease.value.(run := Some(run)));
      }
    }

    method End(watcher: Pid)
      modifies this
      ensures lease == AfterEnd(old(lease), watcher)
      ensures old(lease).Some? && !old(lease).value.mode.Headless? ==> lease == old(lease)
    {
      if ClaimOf(lease, watcher) {
        lease := None;
      }
    }
  }
}
