/**
 * The wake loop over whole runs: any number of watchers one after another, each of which may crash between any two of
 * its writes, with runs that outlive the watcher that started them.
 *
 * On disk are the state record and the listen cursor, two files written separately. In memory is the state of the
 * watcher that lives now, if one does. `offered`, `covered` and `dispatched` record history: every item a wake was
 * offered, every item of a wake that read the room and succeeded, and the start of every wake. `done` is what the agent
 * answered (or the room closed meanwhile). `runLives`: a harness run of the room goes on; `strays`: one that isn't the
 * latest wake's, whose offer was settled while it went on.
 */
module WatchRuns {
  import opened Wrappers
  import opened WatchLoop

  /** The watcher that lives now: none, in its loop, with a run going, or between putting the cursor back and saving. */
  datatype Phase = Down | Looping(s: State) | Waking(s: State) | Saving(s: State)

  datatype World = World(
    file: State, cursor: nat, phase: Phase, generation: Generation, runLives: bool, strays: bool, clock: int,
    offered: set<nat>, done: set<nat>, covered: set<nat>, dispatched: seq<int>)

  const Start := World(EmptyState, 0, Down, 0, false, false, 0, {}, {}, {}, [])

  datatype Step =
    /** The agent answers, or the room closes, these items. */
    | Answer(ids: set<nat>)
    /** The harness run reads the room: the cursor moves on. */
    | Read(cursor: nat)
    /** The harness run ends by itself or is stopped. */
    | RunExits
    /** The watcher dies, or its loop ends. */
    | Crash
    /** A new watcher starts: it looks at an earlier run, waits for it, and settles what was left unsettled. */
    | Boot(generation: Generation, first: Life, polls: seq<Poll>, answered: Answers, now: int)
    /** The write of the state after the cursor was put back. */
    | Save
    /** One iteration of the loop; `saves`: its heartbeat or one of its branches writes the state. */
    | Loop(look: Look, saves: bool)
    /** The run's process is recorded. */
    | RunStarts(run: Run)
    /** The run is judged: its process was seen to end, or it is given up (it didn't stop, or its start threw). */
    | Judged(seen: bool, o: Outcome, handled: bool, answered: Answers, now: int)

  ghost predicate Truthful(answered: Answers, done: set<nat>) {
    forall item: Item, since: int :: answered(item, since) ==> item.id in done
  }

  function Ids(items: seq<Item>): set<nat> {
    set item | item in items :: item.id
  }

  predicate Flagged(obligations: map<nat, Obligation>, i: nat) {
    i in obligations && obligations[i].flagged.Some?
  }

  predicate Handled(w: World, obligations: map<nat, Obligation>, i: nat) {
    i in w.done || i in w.covered || Flagged(obligations, i)
  }

  /** What the peek promises: only work from the cursor on, and of what was offered before everything still open there. */
  ghost predicate PeekSound(w: World, s: State, look: Look) {
    && (forall item <- look.items :: w.cursor <= item.id)
    && (forall i <- w.offered :: w.cursor <= i && !Handled(w, s.obligations, i) ==> i in Ids(look.items))
  }

  function CursorAfterGate(w: World, look: Look): nat {
    if look.gate.Clear? && look.gate.reoffer.Some? then look.gate.reoffer.value else w.cursor
  }

  /** What the loop's inputs promise: the clock goes on, the live gate only gives back, and the peek is sound. */
  ghost predicate LookSound(w: World, s: State, look: Look) {
    && w.clock <= look.now <= look.started
    && CursorAfterGate(w, look) <= w.cursor
    && look.cursor == CursorAfterGate(w, look)
    && PeekSound(w.(cursor := look.cursor), s, look)
  }

  /** A look never calls the living run it is about gone; of a stray it says nothing. */
  predicate LooksTrue(w: World, first: Life, polls: seq<Poll>, t: Timing)
    requires Looked(w.file, polls, t)
  {
    w.file.activeRun.Some? && w.runLives && !w.strays ==>
      first != Dead && WaitEnd(polls, WaitLimit(w.file.activeRun.value, t)).life != Dead
  }

  /** A process that is seen to end has ended; only such a run exited well. */
  ghost predicate Enabled(w: World, step: Step, t: Timing) {
    match step
    case Answer(_) => true
    case Read(cursor) => w.runLives && w.cursor <= cursor
    case RunExits => true
    case Crash => true
    case Boot(_, first, polls, answered, now) =>
      w.phase.Down? && w.clock <= now && Truthful(answered, w.done) && Looked(w.file, polls, t) && LooksTrue(w, first, polls, t)
    case Save => w.phase.Saving?
    case Loop(look, _) => w.phase.Looping? && LookSound(w, w.phase.s, look)
    case RunStarts(_) => w.phase.Waking?
    case Judged(seen, o, _, answered, now) =>
      && w.phase.Waking? && w.clock <= now && Truthful(answered, w.done) && w.phase.s.offer.Some?
      && (o.exitedWell ==> seen) && (seen && !w.strays ==> !w.runLives)
  }

  /** Putting the cursor back to the offer's, when the settlement says so. */
  function PutBack(w: World, offer: Option<Offer>, putBack: bool): World {
    if putBack && offer.Some? then w.(cursor := offer.value.before) else w
  }

  ghost function Do(w: World, step: Step, max: nat, t: Timing): World {
    if !Enabled(w, step, t) then w else
      match step
      case Answer(ids) => w.(done := w.done + ids)
      case Read(cursor) => w.(cursor := cursor)
      case RunExits => w.(runLives := false, strays := false)
      case Crash => w.(phase := Down)
      case Boot(generation, first, polls, answered, now) =>
        var c := Restart(w.file, generation, OrphanFate(w.file, generation, first, polls, t), w.cursor, answered, now, t);
        PutBack(w, w.file.offer, c.putBack).(phase := Saving(c.state), generation := generation, clock := now,
          runLives := w.runLives && (w.strays || !Kills(w.file, generation, first, polls, t)))
      case Save => w.(file := w.phase.s, phase := Looping(w.phase.s))
      case Loop(look, saves) =>
        var i := Iterate(w.phase.s, max, look);
        var u := w.(cursor := if i.reoffered.Some? then i.reoffered.value else w.cursor, clock := look.now);
        if i.wakes then
          u.(file := i.state, phase := Waking(i.state), runLives := true, strays := w.runLives, offered := w.offered + Ids(look.items),
             dispatched := w.dispatched + [look.started], clock := look.started)
        else u.(file := if saves then i.state else w.file, phase := Looping(i.state))
      case RunStarts(run) =>
        w.(file := w.phase.s.(activeRun := Some(run)), phase := Waking(w.phase.s.(activeRun := Some(run))))
      case Judged(_, o, handled, answered, now) =>
        var s := w.phase.s;
        var progress := w.cursor != s.offer.value.before;
        var c := Finish(s, w.generation, o, progress, handled, now, answered, t);
        PutBack(w, s.offer, c.putBack).(phase := Saving(c.state), clock := now,
          covered := if progress && !Failed(o) && !Hard(o) then w.covered + Ids(s.offer.value.items) else w.covered)
  }

  ghost function Exec(w: World, steps: seq<Step>, max: nat, t: Timing): World
    decreases |steps|
  {
    if steps == [] then w else Exec(Do(w, steps[0], max, t), steps[1..], max, t)
  }

  // ---- What settling does to each item ----

  lemma {:induction false} ChargeKeeps(obligations: map<nat, Obligation>, open: seq<Item>, since: int, now: int, max: nat, i: nat)
    requires Flagged(obligations, i)
    ensures Flagged(Charge(obligations, open, since, now, max), i)
    decreases |open|
  {
    if open != [] {
      ChargeKeeps(obligations, open[..|open| - 1], since, now, max, i);
    }
  }

  /** Every charged item is flagged, or within its budget, which puts the work back. */
  lemma {:induction false} ChargedOrAgain(obligations: map<nat, Obligation>, open: seq<Item>, since: int, now: int, max: nat, item: Item)
    requires item in open && !Again(obligations, open, since, now, max)
    ensures Flagged(Charge(obligations, open, since, now, max), item.id)
    decreases |open|
  {
    var last := open[|open| - 1];
    var rest := open[..|open| - 1];
    assert open == rest + [last];
    if item in rest {
      ChargedOrAgain(obligations, rest, since, now, max, item);
    }
  }

  lemma {:induction false} OpenIsUnanswered(items: seq<Item>, since: int, failed: bool, answered: Answers, item: Item)
    ensures item in Open(items, since, failed, answered) <==> failed && item in items && !answered(item, since)
    decreases |items|
  {
    if items != [] && failed {
      var last := items[|items| - 1];
      var rest := items[..|items| - 1];
      assert items == rest + [last];
      OpenIsUnanswered(rest, since, failed, answered, item);
    }
  }

  /**
   * After settling a wake that read the room, an item flagged before stays flagged or was answered or covered, and each
   * item of the offer is answered, covered, flagged, or put back.
   */
  lemma SettleAccountsForAll(obligations: map<nat, Obligation>, offer: Offer, progress: bool, failed: bool, answered: Answers,
                             now: int, max: nat, done: set<nat>, i: nat)
    requires Truthful(answered, done)
    ensures var settled := Settle(obligations, offer, progress, failed, answered, now, max);
      && (Flagged(obligations, i) ==> i in done || Flagged(settled.obligations, i) || (progress && i in Ids(offer.items)))
      && (progress && i in Ids(offer.items) ==> i in done || !failed || Flagged(settled.obligations, i) || settled.again)
  {
    var left := Unanswered(obligations, answered);
    assert Flagged(obligations, i) ==> i in done || Flagged(left, i);
    if progress {
      var open := Open(offer.items, offer.since, failed, answered);
      var kept := left - Dropped(offer.items, open);
      forall item | item in offer.items ensures item in open || item.id in done || !failed {
        OpenIsUnanswered(offer.items, offer.since, failed, answered, item);
      }
      if Flagged(kept, i) {
        ChargeKeeps(kept, open, offer.since, now, max, i);
      }
      if i in Ids(offer.items) && failed && i !in done {
        var item :| item in offer.items && item.id == i;
        if !Again(kept, open, offer.since, now, max) {
          ChargedOrAgain(kept, open, offer.since, now, max, item);
        }
      }
    }
  }

  // ---- No lost work ----

  /** Where an item may be: ahead of the cursor, in the offer on disk, answered, covered, or flagged there. */
  ghost predicate Accounted(w: World, i: nat) {
    w.cursor <= i || (w.file.offer.Some? && i in Ids(w.file.offer.value.items)) || Handled(w, w.file.obligations, i)
  }

  /** The offer on disk holds everything a run may be reading past. */
  ghost predicate OfferHolds(w: World) {
    match w.file.offer
    case Some(offer) =>
      && offer.before <= w.cursor
      && (forall item <- offer.items :: offer.before <= item.id && item.id in w.offered)
      && (forall i <- w.offered :: i in Ids(offer.items) || Handled(w, w.file.obligations, i))
    case None =>
      && !w.runLives
      && (forall i <- w.offered :: w.cursor <= i || Handled(w, w.file.obligations, i))
  }

  ghost predicate MemoryAgrees(w: World) {
    match w.phase
    case Down => true
    case Looping(s) =>
      s.offer == w.file.offer && s.obligations == w.file.obligations && (s.offer.Some? ==> s.halted.Some?)
    case Waking(s) => s.offer == w.file.offer && s.obligations == w.file.obligations && s.offer.Some?
    case Saving(s) =>
      if s.offer.Some? then s.offer == w.file.offer && s.obligations == w.file.obligations && s.halted.Some?
      else !w.runLives && forall i <- w.offered :: w.cursor <= i || Handled(w, s.obligations, i)
  }

  ghost predicate Kept(w: World) {
    OfferHolds(w) && MemoryAgrees(w)
  }

  /** The fate of the earlier run, as a start finds it. */
  function FateAt(w: World, step: Step, t: Timing): Fate
    requires step.Boot? && Looked(w.file, step.polls, t)
  {
    OrphanFate(w.file, step.generation, step.first, step.polls, t)
  }

  /** The step settles an offer, or drops it: a start that finds one unsettled, or the end of a wake. */
  ghost predicate Settles(w: World, step: Step, t: Timing) {
    Enabled(w, step, t) && (step.Judged? || (step.Boot? && w.file.offer.Some? && !FateAt(w, step, t).Unidentified?))
  }

  /** No offer is settled beside a run that goes on. */
  ghost predicate SettlesOver(w: World, step: Step, max: nat, t: Timing) {
    Settles(w, step, t) ==> !Do(w, step, max, t).runLives
  }

  lemma BootKeeps(w: World, step: Step, max: nat, t: Timing)
    requires Kept(w) && step.Boot? && Enabled(w, step, t) && SettlesOver(w, step, max, t)
    ensures Kept(Do(w, step, max, t))
  {
    var u := Do(w, step, max, t);
    if w.file.offer.Some? && !FateAt(w, step, t).Unidentified? {
      var offer := w.file.offer.value;
      var progress := w.cursor != offer.before;
      forall i <- w.offered ensures u.cursor <= i || Handled(u, u.phase.s.obligations, i) {
        SettleAccountsForAll(w.file.obligations, offer, progress, true, step.answered, step.now, t.maxOffers, w.done, i);
      }
    }
  }

  lemma JudgedKeeps(w: World, step: Step, max: nat, t: Timing)
    requires Kept(w) && step.Judged? && Enabled(w, step, t) && SettlesOver(w, step, max, t)
    ensures Kept(Do(w, step, max, t))
  {
    hide Settle, Charge, Again, Open, Pow2, PeekSound, LooksTrue;
    var u := Do(w, step, max, t);
    var offer := w.phase.s.offer.value;
    var progress := w.cursor != offer.before;
    if !RefusedRun(step.o, progress) {
      forall i <- w.offered ensures u.cursor <= i || Handled(u, u.phase.s.obligations, i) {
        SettleAccountsForAll(w.file.obligations, offer, progress, Hard(step.o) || Failed(step.o), step.answered, step.now, t.maxOffers, w.done, i);
      }
    }
  }

  lemma LoopKeeps(w: World, step: Step, max: nat, t: Timing)
    requires Kept(w) && step.Loop? && Enabled(w, step, t)
    ensures Kept(Do(w, step, max, t))
  {
    var u := Do(w, step, max, t);
    var s := w.phase.s;
    var i := Iterate(s, max, step.look);
    if i.wakes {
      assert s.halted.None? && w.file.offer.None?;
      forall j <- u.offered ensures j in Ids(step.look.items) || Handled(u, u.file.obligations, j) {
        if j in w.offered {
          assert w.cursor <= j || Handled(w, w.file.obligations, j);
        }
      }
    }
  }

  lemma StepKeeps(w: World, step: Step, max: nat, t: Timing)
    requires Kept(w) && SettlesOver(w, step, max, t)
    ensures Kept(Do(w, step, max, t))
  {
    if Enabled(w, step, t) {
      match step
      case Boot(_, _, _, _, _) => BootKeeps(w, step, max, t);
      case Judged(_, _, _, _, _) => JudgedKeeps(w, step, max, t);
      case Loop(_, _) => LoopKeeps(w, step, max, t);
      case _ =>
    }
  }

  /** Every settlement in the run, at a start or at the end of a wake, finds its run over. */
  ghost predicate AllSettleOver(w: World, steps: seq<Step>, max: nat, t: Timing)
    decreases |steps|
  {
    steps != [] ==> (SettlesOver(w, steps[0], max, t) && AllSettleOver(Do(w, steps[0], max, t), steps[1..], max, t))
  }

  lemma {:induction false} RunKeeps(w: World, steps: seq<Step>, max: nat, t: Timing)
    requires Kept(w) && AllSettleOver(w, steps, max, t)
    ensures Kept(Exec(w, steps, max, t))
    decreases |steps|
  {
    if steps != [] {
      StepKeeps(w, steps[0], max, t);
      RunKeeps(Do(w, steps[0], max, t), steps[1..], max, t);
    }
  }

  /**
   * No lost work, across crashes anywhere: at every point of every run, each item a wake was ever offered is ahead of
   * the cursor, or in the offer on disk, or answered, or covered by a wake that succeeded, or flagged on disk.
   */
  lemma NoLostWork(steps: seq<Step>, max: nat, t: Timing, i: nat)
    requires AllSettleOver(Start, steps, max, t)
    ensures var w := Exec(Start, steps, max, t); i in w.offered ==> Accounted(w, i)
  {
    RunKeeps(Start, steps, max, t);
  }

  /**
   * When an offer is settled beside a run that goes on: at a start, exactly if the run lives and wasn't recorded, or the
   * operator bound again over it while it can't be identified, or the wait for it was cut short; at the end of a wake,
   * exactly if the run lives, and then it was given up. Or a stray from such a settlement goes on.
   */
  lemma SettlesBesideARun(w: World, step: Step, max: nat, t: Timing)
    requires Settles(w, step, t)
    ensures step.Boot? ==> (!SettlesOver(w, step, max, t) <==> (w.runLives
      && (w.strays || w.file.activeRun.None? || (Checked(w.file, step.generation) && step.first == Unknown) || FateAt(w, step, t).CutShort?)))
    ensures step.Judged? ==> (!SettlesOver(w, step, max, t) <==> w.runLives) && (!SettlesOver(w, step, max, t) ==> !step.seen || w.strays)
  {
  }

  /**
   * What keeps a settlement from that: the operator didn't bind again over a run that can't be identified, the watcher isn't told
   * to stop during its wait, a wake ends with its process, and no unrecorded run was left, which no watcher can see: its wake
   * died between the spawn and the record.
   */
  ghost predicate Careful(w: World, step: Step) {
    && (step.Boot? && w.file.activeRun.None? ==> !w.runLives)
    && (step.Boot? && w.file.activeRun.Some? && Checked(w.file, step.generation) ==> step.first != Unknown)
    && (step.Boot? ==> forall p <- step.polls :: !p.stopped)
    && (step.Judged? ==> step.seen)
  }

  lemma CarefulSettlesOver(w: World, step: Step, max: nat, t: Timing)
    requires Careful(w, step) && !w.strays
    ensures SettlesOver(w, step, max, t)
  {
    if Settles(w, step, t) {
      SettlesBesideARun(w, step, max, t);
      if step.Boot? && w.file.activeRun.Some? {
        CutShortMeansStopped(w.file, step.generation, step.first, step.polls, t);
      }
    }
  }

  /** A wake is only dispatched with no offer unsettled, so with no run left. */
  lemma NoStraysComeUp(w: World, step: Step, max: nat, t: Timing)
    requires Kept(w) && !w.strays
    ensures !Do(w, step, max, t).strays
  {
  }

  ghost predicate AllCareful(w: World, steps: seq<Step>, max: nat, t: Timing)
    decreases |steps|
  {
    steps != [] ==> (Careful(w, steps[0]) && AllCareful(Do(w, steps[0], max, t), steps[1..], max, t))
  }

  lemma {:induction false} CarefulRunsSettleOver(w: World, steps: seq<Step>, max: nat, t: Timing)
    requires Kept(w) && !w.strays && AllCareful(w, steps, max, t)
    ensures AllSettleOver(w, steps, max, t)
    decreases |steps|
  {
    if steps != [] {
      CarefulSettlesOver(w, steps[0], max, t);
      StepKeeps(w, steps[0], max, t);
      NoStraysComeUp(w, steps[0], max, t);
      CarefulRunsSettleOver(Do(w, steps[0], max, t), steps[1..], max, t);
    }
  }

  /** So no work is lost in a run in which every start and every end of a wake meets those conditions. */
  lemma CarefulRunsLoseNothing(steps: seq<Step>, max: nat, t: Timing, i: nat)
    requires AllCareful(Start, steps, max, t)
    ensures var w := Exec(Start, steps, max, t); i in w.offered ==> Accounted(w, i)
  {
    CarefulRunsSettleOver(Start, steps, max, t);
    NoLostWork(steps, max, t, i);
  }

  /**
   * The condition is exact. A settlement beside a run that goes on, at a start or at the end of a wake, can lose every item
   * offered that it leaves unflagged, unanswered and uncovered: the run reads past it, and nothing on disk names it as offered.
   */
  lemma SettlingBesideARunLosesWork(w: World, step: Step, max: nat, t: Timing, i: nat)
    requires Settles(w, step, t) && !SettlesOver(w, step, max, t)
    requires i in w.offered && !Handled(Do(w, step, max, t), Do(w, step, max, t).phase.s.obligations, i)
    ensures exists cursor: nat ::
      var v := Exec(w, [step, Save, Read(cursor)], max, t); i in v.offered && !Accounted(v, i)
  {
    hide Settle, Iterate, LookSound, Since;
    var u := Do(w, step, max, t);
    var v := Do(u, Save, max, t);
    var cursor := if v.cursor <= i then i + 1 else v.cursor;
    var r := Do(v, Read(cursor), max, t);
    ThreeSteps(w, step, Save, Read(cursor), max, t);
    assert v.file.offer.None?;
    assert !Accounted(r, i);
  }

  lemma ThreeSteps(w: World, a: Step, b: Step, c: Step, max: nat, t: Timing)
    ensures Exec(w, [a, b, c], max, t) == Do(Do(Do(w, a, max, t), b, max, t), c, max, t)
  {
    assert [a, b, c][1..] == [b, c];
    assert [b, c][1..] == [c];
    assert [c][1..] == [];
    var x := Do(w, a, max, t);
    var y := Do(x, b, max, t);
    assert Exec(w, [a, b, c], max, t) == Exec(x, [b, c], max, t) == Exec(y, [c], max, t) == Exec(Do(y, c, max, t), [], max, t);
  }

  const Silent: Answers := (item: Item, since: int) => false
  const FirstLook := Look(0, true, Clear(None), true, false, Turn, true, 0, 0, [Item(0, Task)])

  /** A watcher wakes the agent and crashes; the next one is told to stop while it waits for that run. */
  function UntilNextBoot(): seq<Step> {
    [Boot(1, Unknown, [], Silent, 0), Save, Loop(FirstLook, false), RunStarts(Run(7, 0)), Crash]
  }

  lemma {:induction false} ExecJoins(w: World, first: seq<Step>, second: seq<Step>, max: nat, t: Timing)
    ensures Exec(w, first + second, max, t) == Exec(Exec(w, first, max, t), second, max, t)
    decreases |first|
  {
    if first == [] {
      assert first + second == second;
    } else {
      assert (first + second)[1..] == first[1..] + second;
      ExecJoins(Do(w, first[0], max, t), first[1..], second, max, t);
    }
  }

  const Idle := Start.(phase := Looping(EmptyState), generation := 1)
  const Offered := EmptyState.(offer := Some(Offer(0, 0, [Item(0, Task)], 0)), wakes := [0])
  const Woken := Idle.(file := Offered, phase := Waking(Offered), runLives := true, offered := {0}, dispatched := [0])

  lemma FirstBoot(max: nat, t: Timing)
    ensures Do(Do(Start, Boot(1, Unknown, [], Silent, 0), max, t), Save, max, t) == Idle
  {
  }

  lemma FirstDispatch(max: nat, t: Timing)
    requires max > 0
    ensures Do(Idle, Loop(FirstLook, false), max, t) == Woken
  {
    assert [Item(0, Task)][..0] == [];
    assert Since([Item(0, Task)], map[], 0) == 0;
    assert Iterate(EmptyState, max, FirstLook) == Iteration(Offered, true, None);
    assert Ids(FirstLook.items) == {0};
    assert Enabled(Idle, Loop(FirstLook, false), t);
  }

  /** On disk then: the offer and the run. */
  const Left := Woken.(file := Offered.(activeRun := Some(Run(7, 0))), phase := Down)

  lemma FirstWakeRecorded(max: nat, t: Timing)
    requires max > 0
    ensures Exec(Start, UntilNextBoot(), max, t) == Left
  {
    var boot, loop, run := Boot(1, Unknown, [], Silent, 0), Loop(FirstLook, false), RunStarts(Run(7, 0));
    FirstBoot(max, t);
    FirstDispatch(max, t);
    ThreeSteps(Start, boot, Save, loop, max, t);
    assert UntilNextBoot() == [boot, Save, loop] + [run, Crash];
    ExecJoins(Start, [boot, Save, loop], [run, Crash], max, t);
    var w4 := Do(Woken, run, max, t);
    assert [run, Crash][1..] == [Crash] && [Crash][1..] == [];
    assert Exec(Woken, [run, Crash], max, t) == Exec(w4, [Crash], max, t) == Exec(Do(w4, Crash, max, t), [], max, t);
  }

  /** The next watcher is told to stop at its first look in the wait. */
  const CutShortBoot := Boot(1, Alive, [Poll(Alive, 1, true)], Silent, 1)

  /** Such a stop loses work in a run that starts from nothing: one item, offered once, read by the run nobody waits for. */
  lemma FencedWaitLosesWork(max: nat, t: Timing)
    requires max > 0 && t.runTimeoutMs > 1
    ensures exists cursor: nat ::
      var w := Exec(Start, UntilNextBoot() + [CutShortBoot, Save, Read(cursor)], max, t);
      0 in w.offered && !Accounted(w, 0)
  {
    FirstWakeRecorded(max, t);
    var w := Exec(Start, UntilNextBoot(), max, t);
    assert FateAt(w, CutShortBoot, t) == CutShort;
    SettlingBesideARunLosesWork(w, CutShortBoot, max, t, 0);
    var cursor: nat :| var v := Exec(w, [CutShortBoot, Save, Read(cursor)], max, t); 0 in v.offered && !Accounted(v, 0);
    ExecJoins(Start, UntilNextBoot(), [CutShortBoot, Save, Read(cursor)], max, t);
  }

  /** A first wake whose run doesn't stop after its timeout. */
  function UntilGivenUp(): seq<Step> {
    [Boot(1, Unknown, [], Silent, 0), Save, Loop(FirstLook, false)]
  }

  /** It is settled all the same, with no process seen to end. */
  const GivenUp := Judged(false, Outcome(false, true, true, false, false, false, false), false, Silent, 1)

  /** And that loses work too, when the run then reads on: the watcher crashed nowhere, and nobody told it to stop. */
  lemma GivenUpRunLosesWork(max: nat, t: Timing)
    requires max > 0
    ensures exists cursor: nat ::
      var w := Exec(Start, UntilGivenUp() + [GivenUp, Save, Read(cursor)], max, t);
      0 in w.offered && !Accounted(w, 0)
  {
    var boot, loop := Boot(1, Unknown, [], Silent, 0), Loop(FirstLook, false);
    FirstBoot(max, t);
    FirstDispatch(max, t);
    ThreeSteps(Start, boot, Save, loop, max, t);
    SettlingBesideARunLosesWork(Woken, GivenUp, max, t, 0);
    var cursor: nat :| var v := Exec(Woken, [GivenUp, Save, Read(cursor)], max, t); 0 in v.offered && !Accounted(v, 0);
    ExecJoins(Start, UntilGivenUp(), [GivenUp, Save, Read(cursor)], max, t);
  }

  /** The wait is cut short only for a watcher told to stop while the run isn't known to be gone. */
  lemma CutShortMeansStopped(s: State, generation: Generation, first: Life, polls: seq<Poll>, t: Timing)
    requires s.activeRun.Some? && Looked(s, polls, t)
    ensures OrphanFate(s, generation, first, polls, t).CutShort? ==> exists p <- polls :: p.stopped && p.life != Dead
  {
    var until := WaitLimit(s.activeRun.value, t);
    WaitEndIsAPoll(polls, until);
    var end := WaitEnd(polls, until);
    if OrphanFate(s, generation, first, polls, t).CutShort? {
      assert end in polls && end.stopped && end.life != Dead;
    }
  }

  lemma {:induction false} WaitEndIsAPoll(polls: seq<Poll>, until: int)
    requires polls != [] && EndsWait(polls[|polls| - 1], until)
    ensures WaitEnd(polls, until) in polls && EndsWait(WaitEnd(polls, until), until)
    decreases |polls|
  {
    if !EndsWait(polls[0], until) {
      WaitEndIsAPoll(polls[1..], until);
    }
  }

  // ---- Put-backs end ----

  /** One wake that failed: its offer, whether it read the room, and what the agent had answered by then. */
  datatype FailedWake = FailedWake(offer: Offer, progress: bool, done: set<nat>, at: int)

  ghost function SettleFailed(obligations: map<nat, Obligation>, f: FailedWake, max: nat): Settled {
    Settle(obligations, f.offer, f.progress, true, (item: Item, since: int) => item.id in f.done, f.at, max)
  }

  /** How often failed wakes in a row put the cursor back. */
  ghost function PutBacks(obligations: map<nat, Obligation>, wakes: seq<FailedWake>, max: nat): nat
    decreases |wakes|
  {
    if wakes == [] then 0 else
      var settled := SettleFailed(obligations, wakes[0], max);
      (if settled.again then 1 else 0) + PutBacks(settled.obligations, wakes[1..], max)
  }

  /** What an item may still cost: the offers it has left before it is flagged, nothing once it is answered. */
  function Budget(obligations: map<nat, Obligation>, done: set<nat>, id: nat, max: nat): nat {
    if id in done || max == 0 then 0
    else if id !in obligations then max - 1
    else if obligations[id].offers >= max - 1 then 0 else max - 1 - obligations[id].offers
  }

  function Total(obligations: map<nat, Obligation>, done: set<nat>, ids: seq<nat>, max: nat): nat {
    if ids == [] then 0
    else Total(obligations, done, ids[..|ids| - 1], max) + Budget(obligations, done, ids[|ids| - 1], max)
  }

  lemma {:induction false} TotalIsMonotone(o: map<nat, Obligation>, p: map<nat, Obligation>, d: set<nat>, e: set<nat>, ids: seq<nat>, max: nat)
    requires forall id :: Budget(p, e, id, max) <= Budget(o, d, id, max)
    ensures Total(p, e, ids, max) <= Total(o, d, ids, max)
    ensures (exists id <- ids :: Budget(p, e, id, max) < Budget(o, d, id, max)) ==> Total(p, e, ids, max) < Total(o, d, ids, max)
    decreases |ids|
  {
    if ids != [] {
      var last := ids[|ids| - 1];
      assert ids == ids[..|ids| - 1] + [last];
      TotalIsMonotone(o, p, d, e, ids[..|ids| - 1], max);
    }
  }

  lemma {:induction false} TotalAtMost(o: map<nat, Obligation>, d: set<nat>, ids: seq<nat>, max: nat)
    requires max > 0
    ensures Total(o, d, ids, max) <= |ids| * (max - 1)
    decreases |ids|
  {
    if ids != [] {
      TotalAtMost(o, d, ids[..|ids| - 1], max);
      assert |ids| * (max - 1) == (|ids| - 1) * (max - 1) + (max - 1);
    }
  }

  /** Charging items never raises a budget, and an item put back costs one of its own. */
  lemma {:induction false} ChargingCosts(o: map<nat, Obligation>, open: seq<Item>, since: int, now: int, max: nat, done: set<nat>)
    requires forall item <- open :: item.id !in done
    ensures forall id :: Budget(Charge(o, open, since, now, max), done, id, max) <= Budget(o, done, id, max)
    ensures Again(o, open, since, now, max) ==>
      exists item <- open :: Budget(Charge(o, open, since, now, max), done, item.id, max) < Budget(o, done, item.id, max)
    decreases |open|
  {
    if open != [] {
      var rest := open[..|open| - 1];
      var last := open[|open| - 1];
      assert open == rest + [last];
      ChargingCosts(o, rest, since, now, max, done);
      var before := Charge(o, rest, since, now, max);
      var after := Charge(o, open, since, now, max);
      assert forall id :: Budget(after, done, id, max) <= Budget(before, done, id, max);
      if Again(o, rest, since, now, max) {
        var item :| item in rest && Budget(before, done, item.id, max) < Budget(o, done, item.id, max);
        assert item in open;
      } else if Again(o, open, since, now, max) {
        assert Budget(after, done, last.id, max) < Budget(before, done, last.id, max) <= Budget(o, done, last.id, max);
      }
    }
  }

  /** A failed wake never raises what its items may still cost, and a put-back lowers it, even beside flagged items. */
  lemma PutBackCosts(o: map<nat, Obligation>, f: FailedWake, ids: seq<nat>, max: nat, d: set<nat>)
    requires d <= f.done && forall item <- f.offer.items :: item.id in ids
    ensures var s := SettleFailed(o, f, max);
      Total(s.obligations, f.done, ids, max) + (if s.again then 1 else 0) <= Total(o, d, ids, max)
  {
    var answered := (item: Item, since: int) => item.id in f.done;
    var s := SettleFailed(o, f, max);
    var left := Unanswered(o, answered);
    if !f.progress {
      TotalIsMonotone(o, s.obligations, d, f.done, ids, max);
    } else {
      var open := Open(f.offer.items, f.offer.since, true, answered);
      var kept := left - Dropped(f.offer.items, open);
      forall item: Item ensures item in open <==> item in f.offer.items && item.id !in f.done {
        OpenIsUnanswered(f.offer.items, f.offer.since, true, answered, item);
      }
      assert forall id :: Budget(kept, f.done, id, max) <= Budget(o, d, id, max);
      ChargingCosts(kept, open, f.offer.since, f.at, max, f.done);
      TotalIsMonotone(o, s.obligations, d, f.done, ids, max);
    }
  }

  lemma {:induction false} PutBacksWithinTotal(o: map<nat, Obligation>, wakes: seq<FailedWake>, ids: seq<nat>, max: nat, d: set<nat>)
    requires forall k :: 0 <= k < |wakes| ==> d <= wakes[k].done
    requires forall j, k :: 0 <= j < k < |wakes| ==> wakes[j].done <= wakes[k].done
    requires forall k :: 0 <= k < |wakes| ==> forall item <- wakes[k].offer.items :: item.id in ids
    ensures PutBacks(o, wakes, max) <= Total(o, d, ids, max)
    decreases |wakes|
  {
    if wakes != [] {
      PutBackCosts(o, wakes[0], ids, max, d);
      PutBacksWithinTotal(SettleFailed(o, wakes[0], max).obligations, wakes[1..], ids, max, wakes[0].done);
    }
  }

  /**
   * Put-backs end: while wakes keep failing and answered stays answered, the cursor is put back at most
   * |items| * (maxOffers - 1) times, however the items come and go among the offers.
   */
  lemma PutBacksEnd(wakes: seq<FailedWake>, ids: seq<nat>, max: nat)
    requires max > 0
    requires forall j, k :: 0 <= j < k < |wakes| ==> wakes[j].done <= wakes[k].done
    requires forall k :: 0 <= k < |wakes| ==> forall item <- wakes[k].offer.items :: item.id in ids
    ensures PutBacks(map[], wakes, max) <= |ids| * (max - 1)
  {
    PutBacksWithinTotal(map[], wakes, ids, max, {});
    TotalAtMost(map[], {}, ids, max);
  }

  // ---- The hourly cap ----

  /** `kept` is the end of `all`, and what is missing before it was more than an hour ago by now. */
  ghost predicate Tail(kept: seq<int>, all: seq<int>, now: int) {
    && |kept| <= |all|
    && kept == all[|all| - |kept|..]
    && forall i :: 0 <= i < |all| - |kept| ==> all[i] <= now - HOUR
  }

  ghost predicate Rising(times: seq<int>) {
    forall i, j :: 0 <= i < j < |times| ==> times[i] <= times[j]
  }

  /** Any `max` + 1 starts in a row span at least an hour. */
  ghost predicate Spaced(times: seq<int>, max: nat) {
    forall i :: 0 <= i && i + max < |times| ==> times[i] + HOUR <= times[i + max]
  }

  ghost predicate CapKept(w: World, max: nat) {
    && Rising(w.dispatched) && Spaced(w.dispatched, max)
    && (forall i :: 0 <= i < |w.dispatched| ==> w.dispatched[i] <= w.clock)
    && Tail(w.file.wakes, w.dispatched, w.clock)
    && (!w.phase.Down? ==> Tail(w.phase.s.wakes, w.dispatched, w.clock))
  }

  lemma {:induction false} PruningIsATail(wakes: seq<int>, now: int)
    requires Rising(wakes)
    ensures |Pruned(wakes, now)| <= |wakes| && Pruned(wakes, now) == wakes[|wakes| - |Pruned(wakes, now)|..]
    ensures forall i :: 0 <= i < |wakes| - |Pruned(wakes, now)| ==> wakes[i] <= now - HOUR
    decreases |wakes|
  {
    if wakes != [] {
      var rest := wakes[..|wakes| - 1];
      PruningIsATail(rest, now);
      if wakes[|wakes| - 1] <= now - HOUR {
        assert forall i :: 0 <= i < |wakes| ==> wakes[i] <= now - HOUR;
        AllPruned(rest, now);
      } else {
        assert wakes[|wakes| - |Pruned(wakes, now)|..] == rest[|rest| - |Pruned(rest, now)|..] + [wakes[|wakes| - 1]];
        forall i | 0 <= i < |wakes| - |Pruned(wakes, now)| ensures wakes[i] <= now - HOUR {
          assert wakes[i] == rest[i];
        }
      }
    }
  }

  lemma {:induction false} AllPruned(wakes: seq<int>, now: int)
    requires forall i :: 0 <= i < |wakes| ==> wakes[i] <= now - HOUR
    ensures Pruned(wakes, now) == []
    decreases |wakes|
  {
    if wakes != [] {
      AllPruned(wakes[..|wakes| - 1], now);
    }
  }

  lemma PrunedTail(wakes: seq<int>, all: seq<int>, clock: int, now: int)
    requires Tail(wakes, all, clock) && Rising(all) && clock <= now
    ensures Tail(Pruned(wakes, now), all, now)
  {
    PruningIsATail(wakes, now);
    var kept := Pruned(wakes, now);
    var d := |all| - |wakes|;
    assert kept == all[d..][|wakes| - |kept|..] == all[|all| - |kept|..];
    forall i | 0 <= i < |all| - |kept| ensures all[i] <= now - HOUR {
      if d <= i {
        assert all[i] == wakes[i - d];
      }
    }
  }

  /** A dispatch with fewer than `max` starts kept keeps the spacing. */
  lemma DispatchKeepsSpacing(kept: seq<int>, all: seq<int>, now: int, started: int, max: nat)
    requires Tail(kept, all, now) && Rising(all) && Spaced(all, max) && |kept| < max && now <= started
    requires forall i :: 0 <= i < |all| ==> all[i] <= now
    ensures Spaced(all + [started], max) && Rising(all + [started]) && Tail(kept + [started], all + [started], started)
  {
  }

  lemma TailLater(kept: seq<int>, all: seq<int>, now: int, later: int)
    requires Tail(kept, all, now) && now <= later
    ensures Tail(kept, all, later)
  {
  }

  lemma LoopKeepsCap(w: World, step: Step, max: nat, t: Timing)
    requires CapKept(w, max) && step.Loop? && Enabled(w, step, t)
    ensures CapKept(Do(w, step, max, t), max)
  {
    hide PeekSound, Rising, Spaced, Handled, Pruned, Tail, Since, Ids;
    var s, look := w.phase.s, step.look;
    var i := Iterate(s, max, look);
    PrunedTail(s.wakes, w.dispatched, w.clock, look.now);
    TailLater(s.wakes, w.dispatched, w.clock, look.now);
    TailLater(w.file.wakes, w.dispatched, w.clock, look.now);
    if i.wakes {
      DispatchKeepsCap(w, look, max);
      assert i.state.wakes == Pruned(s.wakes, look.now) + [look.started];
    } else {
      assert i.state.wakes == s.wakes || i.state.wakes == Pruned(s.wakes, look.now);
    }
  }

  lemma DispatchKeepsCap(w: World, look: Look, max: nat)
    requires CapKept(w, max) && w.phase.Looping? && LookSound(w, w.phase.s, look) && Iterate(w.phase.s, max, look).wakes
    ensures var all := w.dispatched + [look.started];
      && Rising(all) && Spaced(all, max) && Tail(Pruned(w.phase.s.wakes, look.now) + [look.started], all, look.started)
      && forall i :: 0 <= i < |all| ==> all[i] <= look.started
  {
    PrunedTail(w.phase.s.wakes, w.dispatched, w.clock, look.now);
    DispatchKeepsSpacing(Pruned(w.phase.s.wakes, look.now), w.dispatched, look.now, look.started, max);
  }

  lemma StepKeepsCap(w: World, step: Step, max: nat, t: Timing)
    requires CapKept(w, max)
    ensures CapKept(Do(w, step, max, t), max)
  {
    if Enabled(w, step, t) {
      match step
      case Loop(_, _) => LoopKeepsCap(w, step, max, t);
      case Boot(generation, first, polls, answered, now) =>
        var fate := OrphanFate(w.file, generation, first, polls, t);
        TailLater(w.file.wakes, w.dispatched, w.clock, now);
        assert Restart(w.file, generation, fate, w.cursor, answered, now, t).state.wakes == w.file.wakes;
      case Judged(_, o, handled, answered, now) =>
        TailLater(w.file.wakes, w.dispatched, w.clock, now);
        TailLater(w.phase.s.wakes, w.dispatched, w.clock, now);
        FinishKeepsWakes(w.phase.s, w.generation, o, w.cursor != w.phase.s.offer.value.before, handled, now, answered, t);
      case _ =>
    }
  }

  lemma FinishKeepsWakes(s: State, generation: Generation, o: Outcome, progress: bool, handled: bool, ended: int, answered: Answers, t: Timing)
    requires s.offer.Some?
    ensures Finish(s, generation, o, progress, handled, ended, answered, t).state.wakes == s.wakes
  {
  }

  lemma {:induction false} RunKeepsCap(w: World, steps: seq<Step>, max: nat, t: Timing)
    requires CapKept(w, max)
    ensures CapKept(Exec(w, steps, max, t), max)
    decreases |steps|
  {
    if steps != [] {
      StepKeepsCap(w, steps[0], max, t);
      RunKeepsCap(Do(w, steps[0], max, t), steps[1..], max, t);
    }
  }

  /** How many starts fall within the hour that ends at `end`. */
  function StartsWithin(times: seq<int>, end: int): nat {
    if times == [] then 0
    else StartsWithin(times[..|times| - 1], end) + (if end - HOUR < times[|times| - 1] <= end then 1 else 0)
  }

  lemma {:induction false} SpacedWithinHour(times: seq<int>, max: nat, end: int)
    requires Rising(times) && Spaced(times, max)
    ensures StartsWithin(times, end) <= max
    decreases |times|
  {
    if |times| > max {
      var last := times[|times| - 1];
      if end - HOUR < last <= end {
        forall i | 0 <= i < |times| - max ensures times[i] <= end - HOUR {
          assert times[i] + HOUR <= times[i + max];
        }
        FewWithin(times, end, |times| - max);
      } else {
        SpacedWithinHour(times[..|times| - 1], max, end);
      }
    } else {
      FewWithin(times, end, 0);
    }
  }

  /** Only the starts from `from` on can fall within the hour when those before it are too old. */
  lemma {:induction false} FewWithin(times: seq<int>, end: int, from: nat)
    requires from <= |times| && forall i :: 0 <= i < from ==> times[i] <= end - HOUR
    ensures StartsWithin(times, end) <= |times| - from
    decreases |times|
  {
    if times != [] {
      if from == |times| {
        FewWithin(times[..|times| - 1], end, from - 1);
      } else {
        FewWithin(times[..|times| - 1], end, from);
      }
    }
  }

  /** In every run, across crashes and restarts, no hour holds more than `maxWakesPerHour` wakes of the room. */
  lemma SlidingHourCap(steps: seq<Step>, max: nat, t: Timing, end: int)
    ensures StartsWithin(Exec(Start, steps, max, t).dispatched, end) <= max
  {
    RunKeepsCap(Start, steps, max, t);
    SpacedWithinHour(Exec(Start, steps, max, t).dispatched, max, end);
  }

  // ---- Halts and hard pauses hold for their binding ----

  /** Halted, or paused for a broken confinement, under this generation. */
  predicate Stopped(s: State, g: Generation) {
    || (s.halted.Some? && s.halted.value.generation == g)
    || (s.paused.Some? && s.paused.value == Pause(true, Some(g)) && s.backoffUntil == Some(MAX_SAFE))
  }

  ghost predicate StoppedThroughout(w: World, g: Generation) {
    && Stopped(w.file, g) && !w.phase.Waking?
    && (!w.phase.Down? ==> Stopped(w.phase.s, g))
  }

  /** Every watcher started in the run has generation `g`, and the clock stays below the largest safe integer. */
  ghost predicate OnlyGeneration(steps: seq<Step>, g: Generation) {
    forall i :: 0 <= i < |steps| ==>
      (steps[i].Boot? ==> steps[i].generation == g) && (steps[i].Loop? ==> steps[i].look.now < MAX_SAFE)
  }

  lemma StoppedStep(w: World, step: Step, g: Generation, max: nat, t: Timing)
    requires StoppedThroughout(w, g) && OnlyGeneration([step], g)
    ensures var u := Do(w, step, max, t); StoppedThroughout(u, g) && u.dispatched == w.dispatched && u.offered == w.offered
  {
    assert [step][0] == step;
    if Enabled(w, step, t) && step.Loop? {
      assert !Iterate(w.phase.s, max, step.look).wakes;
    }
  }

  /**
   * A halt or a hard pause saved under generation g lets no wake be dispatched by any watcher of g, in any later
   * iteration or after any restart.
   */
  lemma {:induction false} StoppedWakesNothing(w: World, steps: seq<Step>, g: Generation, max: nat, t: Timing)
    requires StoppedThroughout(w, g) && OnlyGeneration(steps, g)
    ensures var u := Exec(w, steps, max, t); u.dispatched == w.dispatched && StoppedThroughout(u, g)
    decreases |steps|
  {
    if steps != [] {
      assert OnlyGeneration([steps[0]], g);
      StoppedStep(w, steps[0], g, max, t);
      StoppedWakesNothing(Do(w, steps[0], max, t), steps[1..], g, max, t);
    }
  }

  /**
   * What sets them, exactly: a run that broke its confinement or met an approval wall, or reported its session's records
   * broken, unless the session refused it before it read anything. Such a refusal comes first, whatever else the run reports.
   */
  lemma BreachStops(s: State, g: Generation, o: Outcome, progress: bool, handled: bool, ended: int, answered: Answers, t: Timing)
    requires s.offer.Some? && s.paused != Some(Pause(true, Some(g))) && (s.halted.Some? ==> s.halted.value.generation != g)
    ensures Stopped(Finish(s, g, o, progress, handled, ended, answered, t).state, g)
      <==> !RefusedRun(o, progress) && (Hard(o) || o.coordination)
  {
  }

  /** A broken confinement that the session refused before reading is retried like any refusal: nothing pauses or halts. */
  lemma RefusedBreachOnlyWaits(s: State, g: Generation, o: Outcome, handled: bool, ended: int, answered: Answers, t: Timing)
    requires s.offer.Some? && o.busy && Hard(o)
    ensures var c := Finish(s, g, o, false, handled, ended, answered, t);
      c.state.paused == s.paused && c.state.halted == s.halted && c.state.backoffUntil == Some(ended + t.busyRetryMs) && !c.putBack
  {
  }

  /**
   * Over runs: once a wake is judged to have broken its confinement, met an approval wall or found its session's records
   * broken, and that is saved, nothing is dispatched again in any run of watchers of that generation.
   */
  lemma BreachEndsWakes(w: World, judged: Step, steps: seq<Step>, max: nat, t: Timing)
    requires judged.Judged? && Enabled(w, judged, t) && (Hard(judged.o) || judged.o.coordination)
    requires !RefusedRun(judged.o, w.cursor != w.phase.s.offer.value.before)
    requires w.phase.s.paused != Some(Pause(true, Some(w.generation)))
    requires w.phase.s.halted.Some? ==> w.phase.s.halted.value.generation != w.generation
    requires OnlyGeneration(steps, w.generation)
    ensures Exec(w, [judged, Save] + steps, max, t).dispatched == w.dispatched
  {
    var u := Do(w, judged, max, t);
    var v := Do(u, Save, max, t);
    BreachStops(w.phase.s, w.generation, judged.o, w.cursor != w.phase.s.offer.value.before, judged.handled, judged.now, judged.answered, t);
    assert ([judged, Save] + steps)[1..] == [Save] + steps && ([Save] + steps)[1..] == steps;
    StoppedWakesNothing(v, steps, w.generation, max, t);
  }

  /** Only another binding lifts them: its first state is free of both, unless it too finds an unidentified run. */
  lemma AnotherBindingResumes(s: State, g: Generation, h: Generation, fate: Fate, cursor: nat, answered: Answers, now: int, t: Timing)
    requires Stopped(s, g) && h != g && !fate.Unidentified?
    requires s.halted.Some? ==> s.halted.value.generation == g
    requires s.paused.Some? && s.paused.value.hard ==> s.paused.value.generation == Some(g)
    ensures var c := Restart(s, h, fate, cursor, answered, now, t).state;
      c.halted.None? && c.paused.None? && c.backoffUntil.None?
    ensures Stopped(Restart(s, g, fate, cursor, answered, now, t).state, g)
  {
  }
}
