/**
 * The crash-tolerant file lock of server/locks.ts: `takeLock`, `staleLock` and `tryLock`, without `maxAgeMs`.
 *
 * The file system is the only state. Every file operation of `tryLock` is one atomic step, so steps of any number of
 * processes interleave freely, and a process may die between any two of its steps. One process may run several tasks
 * (`withLock` waits asynchronously), so whoever holds the lock is a task of a process; the file only names the process.
 */
module FileLock {
  import opened Wrappers

  type Pid = nat

  datatype Actor = Actor(pid: Pid, task: nat)

  /**
   * A lock file as `staleLock` describes it: the inode and time that `stat` reports (folded into `stamp`, which a later
   * file may repeat) and the process it names.
   */
  datatype LockFile = LockFile(stamp: nat, owner: Pid)

  /** Where an actor is in `tryLock`: the file operation it performs next, and what it remembers. */
  datatype Pc =
    | Idle
    | FirstStat
    | FirstRead(stamp: nat)
    | FirstJudge(seen: LockFile)
    | LinkReclaim(seen: LockFile)
    | SecondStat(seen: LockFile)
    | SecondRead(seen: LockFile, stamp: nat)
    | SecondJudge(seen: LockFile, again: LockFile)
    | UnlinkLock(seen: LockFile)
    | Relink
    | UnlinkReclaim(won: bool)
    | Holding

  datatype State = State(lock: Option<LockFile>, reclaim: Option<LockFile>, dead: set<Pid>, at: map<Actor, Pc>)
  {
    function At(a: Actor): Pc {
      if a in at then at[a] else Idle
    }

    predicate Live(a: Actor) {
      a.pid !in dead
    }

    function Goto(a: Actor, pc: Pc): State {
      this.(at := at[a := pc])
    }
  }

  /**
   * `Move`: the actor performs its next file operation; `stamp` is what `stat` will report of a file it creates, and
   * `gone` its verdict about an owner. `Release`: the holder unlinks the lock, by its path. `Crash`: a process dies,
   * and all its tasks with it.
   */
  datatype Step =
    | Move(a: Actor, stamp: nat, gone: bool)
    | Release(a: Actor)
    | Crash(pid: Pid)

  /** The actor's next file operation in `tryLock`; from `Idle` it is the first link. */
  function Advance(s: State, a: Actor, stamp: nat, gone: bool): State {
    match s.At(a)
    case Idle =>
      if s.lock.None? then s.(lock := Some(LockFile(stamp, a.pid))).Goto(a, Holding) else s.Goto(a, FirstStat)
    case FirstStat =>
      if s.lock.None? then s.Goto(a, Idle) else s.Goto(a, FirstRead(s.lock.value.stamp))
    case FirstRead(found) =>
      if s.lock.None? then s.Goto(a, Idle) else s.Goto(a, FirstJudge(LockFile(found, s.lock.value.owner)))
    case FirstJudge(seen) =>
      s.Goto(a, if gone then LinkReclaim(seen) else Idle)
    case LinkReclaim(seen) =>
      if s.reclaim.None? then s.(reclaim := Some(LockFile(stamp, a.pid))).Goto(a, SecondStat(seen)) else s.Goto(a, Idle)
    case SecondStat(seen) =>
      s.Goto(a, if s.lock.None? then UnlinkReclaim(false) else SecondRead(seen, s.lock.value.stamp))
    case SecondRead(seen, found) =>
      s.Goto(a, if s.lock.None? then UnlinkReclaim(false) else SecondJudge(seen, LockFile(found, s.lock.value.owner)))
    case SecondJudge(seen, again) =>
      s.Goto(a, if gone && again == seen then UnlinkLock(seen) else UnlinkReclaim(false))
    case UnlinkLock(_) =>
      if s.lock.None? then s.Goto(a, UnlinkReclaim(false)) else s.(lock := None).Goto(a, Relink)
    case Relink =>
      if s.lock.None? then s.(lock := Some(LockFile(stamp, a.pid))).Goto(a, UnlinkReclaim(true))
      else s.Goto(a, UnlinkReclaim(false))
    case UnlinkReclaim(won) =>
      s.(reclaim := None).Goto(a, if won then Holding else Idle)
    case Holding => s
  }

  /** The owner an actor is about to judge, if its next step is a judgement. */
  function Judged(pc: Pc): Option<Pid> {
    match pc
    case FirstJudge(seen) => Some(seen.owner)
    case SecondJudge(_, again) => Some(again.owner)
    case _ => None
  }

  /**
   * Only live processes act, and `gone` is sound: it never calls a live process gone. It may call a dead one live (a pid
   * it can't tell about).
   */
  predicate Enabled(s: State, step: Step) {
    match step
    case Move(a, _, gone) => s.Live(a) && (gone && Judged(s.At(a)).Some? ==> Judged(s.At(a)).value in s.dead)
    case Release(a) => s.Live(a) && s.At(a).Holding?
    case Crash(_) => true
  }

  /** One step; a step that can't happen changes nothing. */
  function Do(s: State, step: Step): State {
    if !Enabled(s, step) then s else
      match step
      case Move(a, stamp, gone) => Advance(s, a, stamp, gone)
      case Release(a) => s.(lock := None).Goto(a, Idle)
      case Crash(pid) => s.(dead := s.dead + {pid})
  }

  function Exec(s: State, steps: seq<Step>): State
    decreases |steps|
  {
    if steps == [] then s else Exec(Do(s, steps[0]), steps[1..])
  }

  const Fresh := State(None, None, {}, map[])

  /** The actor holds the lock: `tryLock` has decided to return true, or has returned it. */
  predicate Holds(s: State, a: Actor) {
    s.At(a) == Holding || s.At(a) == UnlinkReclaim(true)
  }

  /** The actor is inside the takeover, from its link of `<lock>.reclaim` until it unlinks that. */
  predicate Reclaiming(pc: Pc) {
    pc.SecondStat? || pc.SecondRead? || pc.SecondJudge? || pc.UnlinkLock? || pc.Relink? || pc.UnlinkReclaim?
  }

  function Seen(pc: Pc): Option<LockFile> {
    match pc
    case LinkReclaim(seen) => Some(seen)
    case SecondStat(seen) => Some(seen)
    case SecondRead(seen, _) => Some(seen)
    case SecondJudge(seen, _) => Some(seen)
    case UnlinkLock(seen) => Some(seen)
    case _ => None
  }

  /** The lock file names the dead process `owner`. */
  predicate LeftBy(s: State, owner: Pid) {
    s.lock.Some? && s.lock.value.owner == owner && owner in s.dead
  }

  /** What one actor's place in `tryLock` says about the files. */
  ghost predicate Sound(s: State, a: Actor) {
    var pc := s.At(a);
    && (Reclaiming(pc) ==> s.reclaim.Some? && s.reclaim.value.owner == a.pid)
    && (Seen(pc).Some? ==> Seen(pc).value.owner in s.dead)
    && (pc.SecondJudge? && pc.again.owner == pc.seen.owner ==> LeftBy(s, pc.seen.owner))
    && (pc.UnlinkLock? ==> LeftBy(s, pc.seen.owner))
    && (Holds(s, a) && s.Live(a) ==> s.lock.Some? && s.lock.value.owner == a.pid)
  }

  ghost predicate Exclusive(s: State) {
    && (forall a, b :: Reclaiming(s.At(a)) && Reclaiming(s.At(b)) ==> a == b)
    && (forall a, b :: Holds(s, a) && Holds(s, b) && s.Live(a) && s.Live(b) ==> a == b)
  }

  ghost predicate Inv(s: State) {
    (forall a :: Sound(s, a)) && Exclusive(s)
  }

  /** An actor's step leaves every other actor where it was. */
  lemma OthersStay(s: State, a: Actor, stamp: nat, gone: bool, b: Actor)
    requires b != a
    ensures var t := Advance(s, a, stamp, gone);
      t.At(b) == s.At(b) && Holds(t, b) == Holds(s, b) && t.dead == s.dead
  {
  }

  lemma AdvanceKeepsSound(s: State, a: Actor, stamp: nat, gone: bool, b: Actor)
    requires Inv(s) && Enabled(s, Move(a, stamp, gone))
    ensures Sound(Advance(s, a, stamp, gone), b)
  {
    assert Sound(s, a) && Sound(s, b);
    if b != a {
      OthersStay(s, a, stamp, gone, b);
      OthersKeepSound(s, a, stamp, gone, b);
    }
  }

  lemma OthersKeepSound(s: State, a: Actor, stamp: nat, gone: bool, b: Actor)
    requires Sound(s, a) && Sound(s, b) && Enabled(s, Move(a, stamp, gone)) && b != a
    requires !(Reclaiming(s.At(a)) && Reclaiming(s.At(b)))
    ensures Sound(Advance(s, a, stamp, gone), b)
  {
    OthersStay(s, a, stamp, gone, b);
  }

  lemma AdvanceKeepsOneHolder(s: State, a: Actor, stamp: nat, gone: bool, b: Actor)
    requires Inv(s) && Enabled(s, Move(a, stamp, gone)) && b != a && s.Live(b)
    requires Holds(Advance(s, a, stamp, gone), b)
    ensures !Holds(Advance(s, a, stamp, gone), a)
  {
    OthersStay(s, a, stamp, gone, b);
    assert Sound(s, b) && Holds(s, b);
    assert !Holds(s, a);
  }

  lemma AdvanceKeepsOneReclaimer(s: State, a: Actor, stamp: nat, gone: bool, b: Actor)
    requires Inv(s) && Enabled(s, Move(a, stamp, gone)) && b != a
    requires Reclaiming(Advance(s, a, stamp, gone).At(b))
    ensures !Reclaiming(Advance(s, a, stamp, gone).At(a))
  {
    OthersStay(s, a, stamp, gone, b);
    assert Sound(s, b);
    assert !Reclaiming(s.At(a));
  }

  lemma AdvanceKeepsInv(s: State, a: Actor, stamp: nat, gone: bool)
    requires Inv(s) && Enabled(s, Move(a, stamp, gone))
    ensures Inv(Advance(s, a, stamp, gone))
  {
    var t := Advance(s, a, stamp, gone);
    forall b ensures Sound(t, b) {
      AdvanceKeepsSound(s, a, stamp, gone, b);
    }
    forall b, c | Holds(t, b) && Holds(t, c) && t.Live(b) && t.Live(c) ensures b == c {
      if b != a { OthersStay(s, a, stamp, gone, b); AdvanceKeepsOneHolder(s, a, stamp, gone, b); }
      if c != a { OthersStay(s, a, stamp, gone, c); AdvanceKeepsOneHolder(s, a, stamp, gone, c); }
    }
    forall b, c | Reclaiming(t.At(b)) && Reclaiming(t.At(c)) ensures b == c {
      if b != a { OthersStay(s, a, stamp, gone, b); AdvanceKeepsOneReclaimer(s, a, stamp, gone, b); }
      if c != a { OthersStay(s, a, stamp, gone, c); AdvanceKeepsOneReclaimer(s, a, stamp, gone, c); }
    }
  }

  lemma ReleaseKeepsInv(s: State, a: Actor)
    requires Inv(s) && Enabled(s, Release(a))
    ensures Inv(Do(s, Release(a)))
  {
    var t := Do(s, Release(a));
    assert Holds(s, a) && Sound(s, a);
    forall b ensures Sound(t, b) && (b != a ==> t.At(b) == s.At(b)) && !(Holds(t, b) && t.Live(b)) {
      assert Sound(s, b) && (b != a ==> t.At(b) == s.At(b));
      assert Holds(s, b) && s.Live(b) ==> b == a;
    }
  }

  lemma CrashKeepsInv(s: State, pid: Pid)
    requires Inv(s)
    ensures Inv(Do(s, Crash(pid)))
  {
    var t := Do(s, Crash(pid));
    forall b ensures Sound(t, b) && t.At(b) == s.At(b) && Holds(t, b) == Holds(s, b) {
      assert Sound(s, b);
    }
  }

  lemma StepKeepsInv(s: State, step: Step)
    requires Inv(s)
    ensures Inv(Do(s, step))
  {
    if Enabled(s, step) {
      match step
      case Move(a, stamp, gone) => AdvanceKeepsInv(s, a, stamp, gone);
      case Release(a) => ReleaseKeepsInv(s, a);
      case Crash(pid) => CrashKeepsInv(s, pid);
    }
  }

  lemma {:induction false} RunKeepsInv(s: State, steps: seq<Step>)
    requires Inv(s)
    ensures Inv(Exec(s, steps))
    decreases |steps|
  {
    if steps != [] {
      StepKeepsInv(s, steps[0]);
      RunKeepsInv(Do(s, steps[0]), steps[1..]);
    }
  }

  lemma {:induction false} ExecJoins(s: State, first: seq<Step>, second: seq<Step>)
    ensures Exec(s, first + second) == Exec(Exec(s, first), second)
    decreases |first|
  {
    if first == [] {
      assert first + second == second;
    } else {
      assert (first + second)[1..] == first[1..] + second;
      ExecJoins(Do(s, first[0]), first[1..], second);
    }
  }

  /** In every run, of every interleaving, with crashes anywhere: at most one live actor holds the lock. */
  lemma MutualExclusion(steps: seq<Step>, a: Actor, b: Actor)
    ensures var s := Exec(Fresh, steps);
      Holds(s, a) && Holds(s, b) && s.Live(a) && s.Live(b) ==> a == b
  {
    RunKeepsInv(Fresh, steps);
  }

  /** A live holder's lock file is there and names it, in every run: nobody takes it over or removes it. */
  lemma HolderKeepsItsFile(steps: seq<Step>, a: Actor)
    ensures var s := Exec(Fresh, steps);
      Holds(s, a) && s.Live(a) ==> s.lock.Some? && s.lock.value.owner == a.pid
  {
    RunKeepsInv(Fresh, steps);
    assert Sound(Exec(Fresh, steps), a);
  }

  /** A dead process's lock, and beside it the reclaim marker of one that died taking it over. */
  ghost predicate Wedged(s: State) {
    && Inv(s)
    && s.lock.Some? && s.lock.value.owner in s.dead
    && s.reclaim.Some? && s.reclaim.value.owner in s.dead
  }

  lemma WedgedStep(s: State, step: Step)
    requires Wedged(s)
    ensures var t := Do(s, step); Wedged(t) && t.lock == s.lock && t.reclaim == s.reclaim
  {
    StepKeepsInv(s, step);
    if Enabled(s, step) && !step.Crash? {
      assert Sound(s, step.a);
      assert !Reclaiming(s.At(step.a)) && !Holds(s, step.a);
    }
  }

  /**
   * A process that dies inside the takeover, between its link of the marker and its unlink of that, leaves both files of dead
   * processes exactly if the lock is then a dead process's: the stale one it had not unlinked yet, or the one it had just taken.
   */
  lemma CrashInTakeover(s: State, a: Actor)
    requires Inv(s) && Reclaiming(s.At(a)) && s.Live(a)
    ensures Wedged(Do(s, Crash(a.pid))) <==> s.lock.Some? && (s.lock.value.owner in s.dead || s.lock.value.owner == a.pid)
    ensures s.At(a).UnlinkLock? || s.At(a) == UnlinkReclaim(true) ==> Wedged(Do(s, Crash(a.pid)))
  {
    assert Sound(s, a);
    StepKeepsInv(s, Crash(a.pid));
  }

  /** Between the unlink and the relink there is no lock, and after a crash there the next one who links it has it. */
  lemma CrashBeforeRelink(s: State, a: Actor, b: Actor, stamp: nat)
    requires s.At(a) == Relink && s.Live(a) && s.lock.None? && b.pid != a.pid && s.Live(b) && s.At(b) == Idle
    ensures var t := Do(Do(s, Crash(a.pid)), Move(b, stamp, false)); Holds(t, b) && t.lock == Some(LockFile(stamp, b.pid))
  {
  }

  /** One process dies holding the lock; another finds its file stale, links the marker, and dies. */
  function DiesHolding(): seq<Step> {
    [Move(Actor(1, 0), 5, false), Crash(1)]
  }

  function FindsItStale(): seq<Step> {
    [Move(Actor(2, 0), 6, false), Move(Actor(2, 0), 6, false), Move(Actor(2, 0), 6, false), Move(Actor(2, 0), 6, true)]
  }

  function DiesInTakeover(): seq<Step> {
    [Move(Actor(2, 0), 6, false), Crash(2)]
  }

  const LeftBehind := State(Some(LockFile(5, 1)), None, {1}, map[Actor(1, 0) := Holding])

  lemma LeavesItsLock()
    ensures Exec(Fresh, DiesHolding()) == LeftBehind
  {
    assert DiesHolding()[1..] == [Crash(1)] && [Crash(1)][1..] == [];
    assert Exec(Fresh, DiesHolding()) == Exec(Do(Do(Fresh, DiesHolding()[0]), Crash(1)), []);
  }

  lemma ComesToTheMarker()
    ensures Exec(LeftBehind, FindsItStale()) == LeftBehind.Goto(Actor(2, 0), LinkReclaim(LockFile(5, 1)))
  {
    var p, left, es := Actor(2, 0), LockFile(5, 1), FindsItStale();
    var s1, s2, s3 := LeftBehind.Goto(p, FirstStat), LeftBehind.Goto(p, FirstRead(5)), LeftBehind.Goto(p, FirstJudge(left));
    assert es[1..] == [es[1], es[2], es[3]] && es[1..][1..] == [es[2], es[3]];
    assert [es[2], es[3]][1..] == [es[3]] && [es[3]][1..] == [];
    assert Do(LeftBehind, es[0]) == s1 && Do(s1, es[1]) == s2 && Do(s2, es[2]) == s3;
    assert Exec(LeftBehind, es) == Exec(s1, es[1..]) == Exec(s2, [es[2], es[3]]) == Exec(s3, [es[3]]);
  }

  /** So the blocked state is reached from a fresh folder. */
  lemma WedgeIsReached()
    ensures Wedged(Exec(Fresh, DiesHolding() + FindsItStale() + DiesInTakeover()))
  {
    var p, left, before := Actor(2, 0), LockFile(5, 1), DiesHolding() + FindsItStale();
    LeavesItsLock();
    ComesToTheMarker();
    ExecJoins(Fresh, DiesHolding(), FindsItStale());
    ExecJoins(Fresh, before, DiesInTakeover());
    var s := Exec(Fresh, before);
    var marked := Do(s, DiesInTakeover()[0]);
    assert DiesInTakeover()[1..] == [Crash(2)] && [Crash(2)][1..] == [];
    assert Exec(s, DiesInTakeover()) == Exec(Do(marked, Crash(2)), []);
    RunKeepsInv(Fresh, before);
    StepKeepsInv(s, DiesInTakeover()[0]);
    CrashInTakeover(marked, p);
  }

  /**
   * That blocks the lock for good: nothing any process does removes either file, so nobody gets it until a person deletes the
   * marker, as the error says.
   */
  lemma {:induction false} CrashedReclaimBlocks(s: State, steps: seq<Step>, a: Actor)
    requires Wedged(s)
    ensures var t := Exec(s, steps);
      t.lock == s.lock && t.reclaim == s.reclaim && !(Holds(t, a) && t.Live(a))
    decreases |steps|
  {
    if steps == [] {
      assert Sound(s, a);
    } else {
      WedgedStep(s, steps[0]);
      CrashedReclaimBlocks(Do(s, steps[0]), steps[1..], a);
    }
  }

  /** How many more file operations a call can need. */
  function Left(pc: Pc): nat {
    match pc
    case Idle => 0
    case Holding => 0
    case FirstStat => 10
    case FirstRead(_) => 9
    case FirstJudge(_) => 8
    case LinkReclaim(_) => 7
    case SecondStat(_) => 6
    case SecondRead(_, _) => 5
    case SecondJudge(_, _) => 4
    case UnlinkLock(_) => 3
    case Relink => 2
    case UnlinkReclaim(_) => 1
  }

  /** The next operation of a call nobody disturbs, where the verdict about an owner is right. */
  function Next(s: State, a: Actor, stamp: nat): State {
    var judged := Judged(s.At(a));
    Advance(s, a, stamp, judged.Some? && judged.value in s.dead)
  }

  function Return(s: State, a: Actor, stamp: nat, n: nat): State
    decreases n
  {
    if n == 0 || Left(s.At(a)) == 0 then s else Return(Next(s, a, stamp), a, stamp, n - 1)
  }

  /** A whole undisturbed call of `tryLock`, from the first link on. */
  function TryAlone(s: State, a: Actor, stamp: nat): State {
    Return(Next(s, a, stamp), a, stamp, 10)
  }

  /** Undisturbed from its marker on, a takeover of a dead process's lock succeeds. */
  lemma TakeoverAlone(s: State, a: Actor, stamp: nat, seen: LockFile)
    requires s.At(a) == SecondStat(seen) && s.lock == Some(seen) && seen.owner in s.dead
    ensures Return(s, a, stamp, 6) == s.(lock := Some(LockFile(stamp, a.pid)), reclaim := None).Goto(a, Holding)
  {
    var s1 := s.Goto(a, SecondRead(seen, seen.stamp));
    var s2 := s.Goto(a, SecondJudge(seen, seen));
    var s3 := s.Goto(a, UnlinkLock(seen));
    assert Next(s, a, stamp) == s1 && Next(s1, a, stamp) == s2 && Next(s2, a, stamp) == s3;
    assert Return(s, a, stamp, 6) == Return(s1, a, stamp, 5) == Return(s2, a, stamp, 4);
    ReplaceAlone(s3, a, stamp, seen);
  }

  lemma ReplaceAlone(s: State, a: Actor, stamp: nat, seen: LockFile)
    requires s.At(a) == UnlinkLock(seen) && s.lock == Some(seen)
    ensures Return(s, a, stamp, 3) == s.(lock := Some(LockFile(stamp, a.pid)), reclaim := None).Goto(a, Holding)
  {
    var s1 := s.(lock := None).Goto(a, Relink);
    var s2 := s.(lock := Some(LockFile(stamp, a.pid))).Goto(a, UnlinkReclaim(true));
    assert Next(s, a, stamp) == s1 && Next(s1, a, stamp) == s2;
    assert Return(s, a, stamp, 3) == Return(s1, a, stamp, 2) == Return(s2, a, stamp, 1);
  }

  /** Undisturbed, the first look at the lock file sees it as it is. */
  lemma LookAlone(s: State, a: Actor, stamp: nat, lock: LockFile)
    requires s.At(a) == FirstStat && s.lock == Some(lock)
    ensures Return(s, a, stamp, 10) ==
      Return(s.Goto(a, if lock.owner in s.dead then LinkReclaim(lock) else Idle), a, stamp, 7)
  {
    var s1 := s.Goto(a, FirstRead(lock.stamp));
    var s2 := s.Goto(a, FirstJudge(lock));
    var s3 := s.Goto(a, if lock.owner in s.dead then LinkReclaim(lock) else Idle);
    assert Next(s, a, stamp) == s1 && Next(s1, a, stamp) == s2 && Next(s2, a, stamp) == s3;
    assert Return(s, a, stamp, 10) == Return(s1, a, stamp, 9) == Return(s2, a, stamp, 8);
  }

  /** The lock is there to be taken: none, or a dead process's with no reclaim marker in the way. */
  predicate Takable(s: State) {
    s.lock.None? || (s.lock.value.owner in s.dead && s.reclaim.None?)
  }

  /**
   * What an undisturbed call answers: it gets the lock exactly when there is none, or when the one there was left by a
   * dead process and no reclaim marker is in the way. Then the lock names the caller and no marker stays behind.
   */
  lemma AloneTakesFreeOrStale(s: State, a: Actor, stamp: nat)
    requires s.At(a) == Idle && s.Live(a)
    ensures var t := TryAlone(s, a, stamp);
      var takes := Takable(s);
      && (Holds(t, a) <==> takes)
      && t.reclaim == s.reclaim
      && t.lock == (if takes then Some(LockFile(stamp, a.pid)) else s.lock)
      && (t.At(a) == Holding || t.At(a) == Idle)
  {
    if s.lock.Some? {
      var seen := s.lock.value;
      LookAlone(s.Goto(a, FirstStat), a, stamp, seen);
      var s4 := s.Goto(a, FirstStat).Goto(a, if seen.owner in s.dead then LinkReclaim(seen) else Idle);
      if seen.owner in s.dead && s.reclaim.None? {
        var s5 := s4.(reclaim := Some(LockFile(stamp, a.pid))).Goto(a, SecondStat(seen));
        assert Next(s4, a, stamp) == s5;
        TakeoverAlone(s5, a, stamp, seen);
      }
    }
  }

  /** Where an undisturbed call that began at `s` may be: what it remembers is true, and it took the lock only if it was there to be taken. */
  predicate OnCourse(s: State, t: State, a: Actor) {
    var seen := Seen(t.At(a));
    && t.dead == s.dead
    && (seen.Some? ==> s.lock == Some(seen.value) && seen.value.owner in s.dead)
    && match t.At(a)
       case Idle => !Takable(s) && t.lock == s.lock && t.reclaim == s.reclaim
       case Holding => Takable(s) && t.reclaim == s.reclaim && t.lock.Some? && t.lock.value.owner == a.pid
       case FirstStat => s.lock.Some? && t.lock == s.lock && t.reclaim == s.reclaim
       case FirstRead(stamp) => s.lock.Some? && s.lock.value.stamp == stamp && t.lock == s.lock && t.reclaim == s.reclaim
       case FirstJudge(first) => s.lock == Some(first) && t.lock == s.lock && t.reclaim == s.reclaim
       case LinkReclaim(_) => t.lock == s.lock && t.reclaim == s.reclaim
       case SecondStat(_) => s.reclaim.None? && t.lock == s.lock
       case SecondRead(first, stamp) => s.reclaim.None? && t.lock == s.lock && stamp == first.stamp
       case SecondJudge(first, again) => s.reclaim.None? && t.lock == s.lock && again == first
       case UnlinkLock(_) => s.reclaim.None? && t.lock == s.lock
       case Relink => Takable(s) && s.reclaim.None? && t.lock.None?
       case UnlinkReclaim(won) => won && Takable(s) && s.reclaim.None? && t.lock.Some? && t.lock.value.owner == a.pid
  }

  /** Each of its operations keeps it there, whatever the stamps of the files it creates. */
  lemma StaysOnCourse(s: State, t: State, a: Actor, stamp: nat)
    requires if t == s then s.At(a) == Idle else OnCourse(s, t, a) && Left(t.At(a)) > 0
    ensures OnCourse(s, Next(t, a, stamp), a)
  {
  }

  lemma EndsOnCourse(s: State, t: State, a: Actor)
    requires OnCourse(s, t, a) && (t.At(a) == Idle || t.At(a) == Holding)
    ensures (t.At(a) == Holding <==> Takable(s)) && (t.At(a) == Idle ==> !Takable(t))
  {
  }

  /** The steps of an undisturbed call, up to `n` of them. */
  function StepsAlone(s: State, a: Actor, stamp: nat, n: nat): seq<Step>
    decreases n
  {
    if n == 0 || Left(s.At(a)) == 0 then [] else
      var judged := Judged(s.At(a));
      [Move(a, stamp, judged.Some? && judged.value in s.dead)] + StepsAlone(Next(s, a, stamp), a, stamp, n - 1)
  }

  lemma {:induction false} StepsAloneReturn(s: State, a: Actor, stamp: nat, n: nat)
    requires s.Live(a)
    ensures Exec(s, StepsAlone(s, a, stamp, n)) == Return(s, a, stamp, n)
    ensures forall i :: 0 <= i < |StepsAlone(s, a, stamp, n)| ==> StepsAlone(s, a, stamp, n)[i].Move?
    decreases n
  {
    if n > 0 && Left(s.At(a)) > 0 {
      var steps := StepsAlone(s, a, stamp, n);
      assert Do(s, steps[0]) == Next(s, a, stamp) && Next(s, a, stamp).Live(a);
      assert steps[1..] == StepsAlone(Next(s, a, stamp), a, stamp, n - 1);
      StepsAloneReturn(Next(s, a, stamp), a, stamp, n - 1);
    }
  }

  function TakesAlone(s: State, a: Actor, stamp: nat): seq<Step> {
    [Move(a, stamp, false)] + StepsAlone(Next(s, a, stamp), a, stamp, 10)
  }

  /** An undisturbed call is a run of the machine, and takes a lock that is free or a dead process's. */
  lemma TakesAloneHolds(s: State, a: Actor, stamp: nat)
    requires s.At(a) == Idle && s.Live(a) && Takable(s)
    ensures var t := Exec(s, TakesAlone(s, a, stamp)); t.At(a) == Holding && t.Live(a)
    ensures forall i :: 0 <= i < |TakesAlone(s, a, stamp)| ==> TakesAlone(s, a, stamp)[i].Move?
  {
    var first := Move(a, stamp, false);
    assert Do(s, first) == Next(s, a, stamp);
    StepsAloneReturn(Next(s, a, stamp), a, stamp, 10);
    AloneTakesFreeOrStale(s, a, stamp);
    assert TakesAlone(s, a, stamp)[1..] == StepsAlone(Next(s, a, stamp), a, stamp, 10);
    DeadStay(s, TakesAlone(s, a, stamp));
  }

  lemma {:induction false} DeadStay(s: State, steps: seq<Step>)
    requires forall i :: 0 <= i < |steps| ==> steps[i].Move?
    ensures Exec(s, steps).dead == s.dead
    decreases |steps|
  {
    if steps != [] {
      assert steps[0].Move?;
      DeadStay(Do(s, steps[0]), steps[1..]);
    }
  }
}
