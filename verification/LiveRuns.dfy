/**
 * The mailbox over whole runs, with any number of listeners and one watcher at a time: it has one consumer, and work a
 * listener returned is handed back once if nobody handles it.
 *
 * `listening` are the listeners that attached and neither returned nor released; a dead one stays in it. `claim` is the
 * headless wake that began and didn't end. `reading` is a listener that read on (the cursor moved) and hasn't written its
 * return to the lease yet. `owed` is the cursor at the start of the earliest return nobody handled.
 */
module LiveRuns {
  import opened Wrappers
  import opened LiveLease

  datatype Claim = Claim(watcher: Process, run: Option<Process>, until: int)
  datatype Reading = Reading(reader: Process, before: nat)

  datatype World = World(lease: Option<Lease>, clock: int, gone: set<Process>, listening: set<Process>, claim: Option<Claim>,
    cursor: nat, actions: nat, reading: Option<Reading>, owed: Option<nat>)

  datatype Step =
    | Attach(me: Process, sys: System)
    | Beat(me: Process, sys: System)
    | Read(me: Process, cursor: nat, sys: System)
    | Return(me: Process, graceMs: nat, sys: System)
    | Release(me: Process, sys: System)
    | Gate(sys: System)
    | Begin(watcher: Process, untilMs: nat, sys: System)
    | Started(run: Process, sys: System)
    | End(sys: System)
    | Die(process: Process, sys: System)

  /** The claim's watcher or its run lives and its time isn't up. */
  predicate Active(w: World, now: int) {
    w.claim.Some? && now < w.claim.value.until
    && (w.claim.value.watcher !in w.gone || (w.claim.value.run.Some? && w.claim.value.run.value !in w.gone))
  }

  /** Whose pids must be answered alive: the live leaseholder's, the claim's watcher's and its run's. */
  predicate KnowsLiving(w: World, sys: System) {
    && (w.lease.Some? && w.lease.value.holder !in w.gone ==> w.lease.value.holder.pid in sys.alive)
    && (w.claim.Some? && w.claim.value.watcher !in w.gone ==> w.claim.value.watcher.pid in sys.alive)
    && (w.claim.Some? && w.claim.value.run.Some? && w.claim.value.run.value !in w.gone ==> w.claim.value.run.value.pid in sys.alive)
  }

  /** The system answers truthfully: living processes are alive, and none is called gone. The clock doesn't go back. */
  predicate Truthful(w: World, sys: System) {
    && w.clock <= sys.now && KnowsLiving(w, sys)
    && (sys.verdict.Gone? && w.lease.Some? ==> w.lease.value.holder in w.gone)
  }

  /** A live listener's heartbeat is never older than `staleMs` when anyone looks, or twice that where the look verifies it. */
  predicate OnTime(w: World, sys: System) {
    w.lease.Some? && w.lease.value.mode.Attached? && w.lease.value.holder !in w.gone ==>
      sys.now - w.lease.value.heartbeat < STALE_MS || (sys.now - w.lease.value.heartbeat < 2 * STALE_MS && sys.verdict.Same?)
  }

  /** A process that lives has a pid no other living listener has. */
  predicate OwnPid(w: World, me: Process) {
    me !in w.gone && forall l :: l in w.listening && l !in w.gone && l.pid == me.pid ==> l == me
  }

  predicate Enabled(w: World, step: Step) {
    && Truthful(w, step.sys) && OnTime(w, step.sys)
    && match step
       case Attach(me, _) => OwnPid(w, me) && me !in w.listening
       case Beat(me, _) => me in w.listening && me !in w.gone
       case Read(me, cursor, _) => me in w.listening && me !in w.gone && w.reading.None? && w.cursor < cursor
       case Return(me, _, _) => me in w.listening && me !in w.gone && w.reading.Some? && w.reading.value.reader == me
       case Release(me, _) => me in w.listening && me !in w.gone && (w.reading.Some? ==> w.reading.value.reader != me)
       case Gate(_) => true
       // One watcher, which waits out an earlier wake before it begins another (watchLoop).
       case Begin(watcher, _, sys) => watcher !in w.gone && !Active(w, sys.now)
       case Started(run, _) => w.claim.Some? && w.claim.value.watcher !in w.gone && run !in w.gone
       case End(_) => w.claim.Some? && w.claim.value.watcher !in w.gone
       case Die(_, _) => true
  }

  function Do(w: World, step: Step): World {
    if !Enabled(w, step) then w else
      var u := w.(clock := step.sys.now);
      match step
      case Attach(me, sys) =>
        u.(lease := AfterAttach(w.lease, me, sys),
           listening := if AttachAnswer(w.lease, me, sys).Granted? then w.listening + {me} else w.listening)
      case Beat(me, sys) => u.(lease := AfterBeat(w.lease, me, sys))
      case Read(me, cursor, _) => u.(cursor := cursor, reading := Some(Reading(me, w.cursor)))
      case Return(me, graceMs, sys) =>
        u.(lease := AfterPickup(w.lease, me, sys, graceMs, Reoffer(w.reading.value.before, w.cursor, w.actions)),
           listening := w.listening - {me}, reading := None, owed := if w.owed.Some? then w.owed else Some(w.reading.value.before))
      case Release(me, sys) => u.(lease := AfterRelease(w.lease, me, sys), listening := w.listening - {me})
      case Gate(sys) =>
        var gives := GateGives(w.lease, sys, w.cursor, w.actions);
        u.(lease := AfterGate(w.lease, sys, w.cursor, w.actions),
           cursor := if gives.Some? then gives.value else w.cursor, owed := if gives.Some? then None else w.owed)
      case Begin(watcher, untilMs, sys) =>
        u.(lease := AfterBegin(w.lease, watcher, untilMs, sys),
           claim := if MayBegin(w.lease, sys) then Some(Claim(watcher, None, sys.now + untilMs)) else w.claim,
           owed := if MayBegin(w.lease, sys) then None else w.owed)
      case Started(run, _) =>
        u.(lease := AfterStarted(w.lease, w.claim.value.watcher.pid, run.pid),
           claim := Some(w.claim.value.(run := Some(run))))
      case End(_) => u.(lease := AfterEnd(w.lease, w.claim.value.watcher.pid), claim := None)
      case Die(process, _) =>
        u.(gone := w.gone + {process}, reading := if w.reading.Some? && w.reading.value.reader == process then None else w.reading)
  }

  function Exec(w: World, steps: seq<Step>): World
    decreases |steps|
  {
    if steps == [] then w else Exec(Do(w, steps[0]), steps[1..])
  }

  function Fresh(actions: nat): World {
    World(None, 0, {}, {}, None, 0, actions, None, None)
  }

  // ---- One consumer ----

  /** Every live listener holds the lease, attached; and an active claim is the one on file. */
  ghost predicate OneConsumer(w: World) {
    && (forall l :: l in w.listening && l !in w.gone ==> w.lease.Some? && w.lease.value.mode.Attached? && w.lease.value.holder == l)
    && (Active(w, w.clock) ==>
          w.lease.Some? && w.lease.value.mode.Headless? && w.lease.value.holder == w.claim.value.watcher
          && w.lease.value.until == w.claim.value.until
          && (w.claim.value.run.Some? ==> w.lease.value.run == Some(w.claim.value.run.value.pid)))
  }

  /** A live listener holds the lease at every look. */
  lemma ListenerHolds(w: World, sys: System, l: Process)
    requires OneConsumer(w) && Truthful(w, sys) && OnTime(w, sys) && l in w.listening && l !in w.gone
    ensures HoldOf(w.lease, sys).HeldAttached? && w.lease.value.holder == l
  {
  }

  lemma StepKeepsOneConsumer(w: World, step: Step)
    requires OneConsumer(w)
    ensures OneConsumer(Do(w, step))
  {
    if Enabled(w, step) {
      match step
      case Attach(me, sys) =>
        assert Active(w, sys.now) ==> Active(w, w.clock) && HoldOf(w.lease, sys).HeldHeadless?;
        forall l | l in w.listening && l !in w.gone ensures HoldOf(w.lease, sys).HeldAttached? && w.lease.value.holder == l {
          ListenerHolds(w, sys, l);
        }
      case Begin(_, _, sys) =>
        forall l | l in w.listening && l !in w.gone ensures HoldOf(w.lease, sys).HeldAttached? && w.lease.value.holder == l {
          ListenerHolds(w, sys, l);
        }
      case _ =>
    }
  }

  lemma {:induction false} RunKeepsOneConsumer(w: World, steps: seq<Step>)
    requires OneConsumer(w)
    ensures OneConsumer(Exec(w, steps))
    decreases |steps|
  {
    if steps != [] {
      StepKeepsOneConsumer(w, steps[0]);
      RunKeepsOneConsumer(Do(w, steps[0]), steps[1..]);
    }
  }

  /**
   * One mailbox, one consumer, in every interleaving: live listeners never displace one another, and none listens while
   * an unexpired headless wake's watcher or run lives.
   */
  lemma MailboxExclusion(steps: seq<Step>, actions: nat, a: Process, b: Process)
    ensures var w := Exec(Fresh(actions), steps);
      a in w.listening && a !in w.gone ==>
        && (b in w.listening && b !in w.gone ==> a == b)
        && !Active(w, w.clock)
        && w.lease.Some? && w.lease.value.mode.Attached? && w.lease.value.holder == a
  {
    RunKeepsOneConsumer(Fresh(actions), steps);
  }

  /**
   * What each decision answers in such a run: another listener is refused while one lives, no wake begins beside it or in
   * a pickup window, and no listener attaches beside an active wake.
   */
  lemma DecisionsExclude(w: World, me: Process, sys: System)
    requires OneConsumer(w) && Truthful(w, sys) && OnTime(w, sys)
    ensures (exists l :: l in w.listening && l !in w.gone) ==>
      !MayBegin(w.lease, sys) && (OwnPid(w, me) && me !in w.listening ==> AttachAnswer(w.lease, me, sys).Refused?)
    ensures w.lease.Some? && w.lease.value.mode.Pickup? && sys.now < w.lease.value.pickupUntil ==> !MayBegin(w.lease, sys)
    ensures Active(w, sys.now) ==> AttachAnswer(w.lease, me, sys).Wait?
  {
  }

  // ---- Returned work ----

  /** The lease spans exactly what is owed: from the start of the earliest unhandled return to the cursor. */
  predicate Owes(w: World) {
    var upTo := if w.reading.Some? then w.reading.value.before else w.cursor;
    && (w.owed.Some? <==> Unspent(w.lease))
    && (w.owed.Some? ==> w.lease.value.reoffer == Some(Reoffer(w.owed.value, upTo, w.actions)))
    && (w.reading.Some? ==> w.reading.value.reader in w.listening && w.reading.value.reader !in w.gone)
    && (w.lease.Some? && w.lease.value.mode.Attached? && w.lease.value.holder !in w.gone ==> !w.lease.value.reoffered)
  }

  /** The run between headless claims: none begins, and no listener dies between reading on and writing its return. */
  predicate Between(w: World, step: Step) {
    !step.Begin? && (step.Die? && w.reading.Some? ==> step.process != w.reading.value.reader)
  }

  lemma StepKeepsOwes(w: World, step: Step)
    requires OneConsumer(w) && Owes(w) && Between(w, step)
    ensures Owes(Do(w, step))
  {
  }

  ghost predicate AllBetween(w: World, steps: seq<Step>)
    decreases |steps|
  {
    steps != [] ==> Between(w, steps[0]) && AllBetween(Do(w, steps[0]), steps[1..])
  }

  lemma {:induction false} RunKeepsOwes(w: World, steps: seq<Step>)
    requires OneConsumer(w) && Owes(w) && AllBetween(w, steps)
    ensures Owes(Exec(w, steps)) && OneConsumer(Exec(w, steps))
    decreases |steps|
  {
    if steps != [] {
      StepKeepsOwes(w, steps[0]);
      StepKeepsOneConsumer(w, steps[0]);
      RunKeepsOwes(Do(w, steps[0]), steps[1..]);
    }
  }

  /**
   * Returned work is conserved: along any run of attaching, returning, releasing and gating between headless claims, the
   * lease's unspent work spans exactly from the start of the earliest unhandled return to the cursor.
   */
  lemma ReturnedWorkConserved(steps: seq<Step>, actions: nat)
    requires AllBetween(Fresh(actions), steps)
    ensures var w := Exec(Fresh(actions), steps);
      && (w.owed.Some? <==> Unspent(w.lease))
      && (w.reading.None? && w.owed.Some? ==> w.lease.value.reoffer == Some(Reoffer(w.owed.value, w.cursor, w.actions)))
  {
    RunKeepsOwes(Fresh(actions), steps);
  }

  /** The gate hands back all that is owed, and exactly when the window ended or the listener holding it stopped. */
  lemma GateGivesWhatIsOwed(w: World, sys: System)
    requires OneConsumer(w) && Owes(w) && Truthful(w, sys) && OnTime(w, sys)
    ensures GateGives(w.lease, sys, w.cursor, w.actions) ==
      if w.lease.None? || ListenerThere(w.lease.value, sys) || WindowOpen(w.lease.value, sys) then None else w.owed
  {
    if w.lease.Some? {
      DecisionsExactly(w.lease.value, w.lease.value.holder, sys, w.cursor, w.actions);
    }
  }

  /** Once handed back, it isn't again: nothing more is given until another listener returns work. */
  lemma {:induction false} GivenBackOnce(w: World, steps: seq<Step>, sys: System)
    requires OneConsumer(w) && Owes(w) && w.owed.None? && AllBetween(w, steps)
    requires forall i :: 0 <= i < |steps| ==> !steps[i].Return?
    ensures var u := Exec(w, steps); u.owed.None? && GateGives(u.lease, sys, u.cursor, u.actions).None?
    decreases |steps|
  {
    if steps != [] {
      StepKeepsOwes(w, steps[0]);
      StepKeepsOneConsumer(w, steps[0]);
      GivenBackOnce(Do(w, steps[0]), steps[1..], sys);
    }
  }

  /** A wake that begins right after the gate's look takes the lease from nobody's work: what was owed was given back. */
  lemma BeginAfterGateLosesNothing(w: World, sys: System)
    requires OneConsumer(w) && Owes(w) && Enabled(w, Gate(sys))
    ensures var u := Do(w, Gate(sys)); MayBegin(u.lease, sys) ==> u.owed.None? && !Unspent(u.lease)
  {
    GateGivesWhatIsOwed(w, sys);
  }

  /** Nothing on the lease, and nothing being read, can bring the cursor back before `c`. */
  predicate PastRecall(w: World, c: nat) {
    && c <= w.cursor
    && (w.reading.Some? ==> c <= w.reading.value.before)
    && (w.lease.Some? && !w.lease.value.mode.Headless? && w.lease.value.reoffer.Some? ==>
          w.lease.value.reoffer.value.after < c || c <= w.lease.value.reoffer.value.before)
  }

  lemma {:induction false} StaysPastRecall(w: World, steps: seq<Step>, c: nat)
    requires PastRecall(w, c)
    ensures PastRecall(Exec(w, steps), c)
    decreases |steps|
  {
    if steps != [] {
      StaysPastRecall(Do(w, steps[0]), steps[1..], c);
    }
  }

  /**
   * Where conservation ends. A listener that dies after it read on and before it wrote its return leaves a lease that no
   * longer ends at the cursor. In no run from there does a gate give back what it read, nor what it carried: the cursor never
   * returns to before where it had read to.
   */
  lemma DeathBeforeReturnLosesWork(w: World, sys: System, steps: seq<Step>, later: System)
    requires OneConsumer(w) && Owes(w) && w.reading.Some? && w.reading.value.before < w.cursor
    requires Enabled(w, Die(w.reading.value.reader, sys))
    ensures var u := Exec(Do(w, Die(w.reading.value.reader, sys)), steps);
      var gives := GateGives(u.lease, later, u.cursor, u.actions);
      w.cursor <= u.cursor && (gives.Some? ==> w.cursor <= gives.value)
  {
    StaysPastRecall(Do(w, Die(w.reading.value.reader, sys)), steps, w.cursor);
  }

  /**
   * And a return is only kept on a lease that wasn't spent: writing it keeps the mark that the gate left on a listener it
   * took for stopped, so what that listener returns afterwards is never handed back.
   */
  lemma ReturnOnSpentLeaseIsLost(lease: Option<Lease>, me: Process, sys: System, graceMs: nat, returned: Reoffer, later: System)
    requires Ours(lease, me)
    ensures var after := AfterPickup(lease, me, sys, graceMs, returned);
      && (Unspent(after) <==> !lease.value.reoffered)
      && (lease.value.reoffered ==> forall cursor: nat, actions: nat :: GateGives(after, later, cursor, actions).None?)
      && (!lease.value.reoffered && sys.now + graceMs <= later.now && later.lastActed.None? ==>
            GateGives(after, later, returned.after, returned.actions) == Some(after.value.reoffer.value.before)
            && after.value.reoffer.value.before in {returned.before, if lease.value.reoffer.Some? then lease.value.reoffer.value.before else returned.before})
  {
  }
}
