/**
 * `tryLock` as the source writes it, on a folder that other processes change between any two of its file operations.
 *
 * The fields are the two files, the processes that died, and where each actor is in its own call. Between its operations
 * the caller is interfered with by any steps of the others; whatever they are, the call is one run of the machine of
 * FileLock, so everything proved there about every run holds of it.
 */
module LockFolder {
  import opened Wrappers
  import opened FileLock

  /** What the caller can't foresee: the others' steps before each of its operations, and what the system reports. */
  datatype Environment = Environment(others: nat -> seq<Step>, stamp: nat -> nat, verdict: nat -> bool)

  /** Nobody interferes, and the verdicts call every dead owner gone. */
  ghost predicate Undisturbed(e: Environment) {
    forall k :: e.others(k) == [] && e.verdict(k)
  }

  /** Steps of anyone but `me`, in which `me`'s process doesn't die. */
  ghost predicate Foreign(steps: seq<Step>, me: Actor) {
    forall i :: 0 <= i < |steps| ==> Spares(steps[i], me)
  }

  predicate Spares(step: Step, me: Actor) {
    match step
    case Move(a, _, _) => a != me
    case Release(a) => a != me
    case Crash(pid) => pid != me.pid
  }

  lemma {:induction false} ForeignStepsLeaveMe(s: State, steps: seq<Step>, me: Actor)
    requires Foreign(steps, me) && s.Live(me)
    ensures Exec(s, steps).At(me) == s.At(me) && Exec(s, steps).Live(me)
    decreases |steps|
  {
    if steps != [] {
      assert Spares(steps[0], me);
      var t := Do(s, steps[0]);
      if steps[0].Move? && Enabled(s, steps[0]) {
        OthersStay(s, steps[0].a, steps[0].stamp, steps[0].gone, me);
      }
      ForeignStepsLeaveMe(t, steps[1..], me);
    }
  }

  class Folder {
    var lock: Option<LockFile>
    var reclaim: Option<LockFile>
    var dead: set<Pid>
    var at: map<Actor, Pc>
    /** The run so far: the steps, by everyone, that led from the state the folder had at first to the one it has. */
    ghost var start: State
    ghost var run: seq<Step>

    ghost function View(): State
      reads this
    {
      State(lock, reclaim, dead, at)
    }

    /** The folder is where its run leads, by steps every one of which the machine allows. */
    ghost predicate Valid()
      reads this
    {
      Inv(start) && View() == Exec(start, run)
    }

    constructor ()
      ensures Valid() && View() == Fresh && start == Fresh && run == []
    {
      lock, reclaim, dead, at := None, None, {}, map[];
      start, run := Fresh, [];
      new;
      assert forall a :: Sound(Fresh, a);
    }

    /** Whatever the others do before `me`'s next operation. */
    method Interfere(me: Actor, steps: seq<Step>)
      requires Valid() && Foreign(steps, me) && View().Live(me)
      modifies this
      ensures Valid() && start == old(start) && old(run) <= run
      ensures View() == Exec(old(View()), steps)
      ensures View().At(me) == old(View().At(me)) && View().Live(me)
      ensures steps == [] ==> View() == old(View())
    {
      ForeignStepsLeaveMe(View(), steps, me);
      ExecJoins(start, run, steps);
      var s := State(lock, reclaim, dead, at);
      s := Exec(s, steps);
      lock, reclaim, dead, at := s.lock, s.reclaim, s.dead, s.at;
      run := run + steps;
    }

    /** The caller performed its next operation: its place is `pc`, and the run is one step longer. */
    ghost method Record(me: Actor, before: State, stamp: nat, gone: bool)
      requires Inv(start) && before == Exec(start, run)
      requires Enabled(before, Move(me, stamp, gone)) && View() == Advance(before, me, stamp, gone)
      modifies this`run
      ensures Valid() && run == old(run) + [Move(me, stamp, gone)]
    {
      ExecJoins(start, run, [Move(me, stamp, gone)]);
      run := run + [Move(me, stamp, gone)];
    }

    /** `takeLock` on the lock: false when a file is there already. */
    method LinkLock(me: Actor, stamp: nat) returns (linked: bool)
      requires Valid() && View().Live(me) && (View().At(me).Idle? || View().At(me).Relink?)
      modifies this
      ensures Valid() && start == old(start) && old(run) <= run && View().Live(me)
      ensures linked <==> old(lock).None?
      ensures lock == (if linked then Some(LockFile(stamp, me.pid)) else old(lock)) && reclaim == old(reclaim) && dead == old(dead)
      ensures View().At(me) == (if old(View().At(me)).Relink? then UnlinkReclaim(linked)
                                else if linked then Holding else FirstStat)
    {
      ghost var before := View();
      linked := lock.None?;
      var first := me !in at || at[me] == Idle;
      if linked {
        lock := Some(LockFile(stamp, me.pid));
      }
      at := at[me := if first then (if linked then Holding else FirstStat) else UnlinkReclaim(linked)];
      Record(me, before, stamp, false);
    }

    /** The first half of `staleLock`: what `stat` says of the lock; None when it is gone. */
    method Stat(me: Actor) returns (stamp: Option<nat>)
      requires Valid() && View().Live(me) && (View().At(me).FirstStat? || View().At(me).SecondStat?)
      modifies this
      ensures Valid() && start == old(start) && old(run) <= run && View().Live(me)
      ensures lock == old(lock) && reclaim == old(reclaim) && dead == old(dead)
      ensures stamp == if lock.Some? then Some(lock.value.stamp) else None
      ensures View().At(me) ==
        var was := old(View().At(me));
        if was.SecondStat? then (if stamp.Some? then SecondRead(was.seen, stamp.value) else UnlinkReclaim(false))
        else if stamp.Some? then FirstRead(stamp.value) else Idle
    {
      ghost var before := View();
      stamp := if lock.Some? then Some(lock.value.stamp) else None;
      at := at[me := if at[me].SecondStat? then (if stamp.Some? then SecondRead(at[me].seen, stamp.value) else UnlinkReclaim(false))
                     else if stamp.Some? then FirstRead(stamp.value) else Idle];
      Record(me, before, 0, false);
    }

    /** Its second half: the process the file names, by then maybe another file's. */
    method Read(me: Actor) returns (found: Option<LockFile>)
      requires Valid() && View().Live(me) && (View().At(me).FirstRead? || View().At(me).SecondRead?)
      modifies this
      ensures Valid() && start == old(start) && old(run) <= run && View().Live(me)
      ensures lock == old(lock) && reclaim == old(reclaim) && dead == old(dead)
      ensures found == if lock.Some? then Some(LockFile(old(View().At(me)).stamp, lock.value.owner)) else None
      ensures View().At(me) ==
        var was := old(View().At(me));
        if was.SecondRead? then (if found.Some? then SecondJudge(was.seen, found.value) else UnlinkReclaim(false))
        else if found.Some? then FirstJudge(found.value) else Idle
    {
      ghost var before := View();
      found := if lock.Some? then Some(LockFile(at[me].stamp, lock.value.owner)) else None;
      at := at[me := if at[me].SecondRead? then (if found.Some? then SecondJudge(at[me].seen, found.value) else UnlinkReclaim(false))
                     else if found.Some? then FirstJudge(found.value) else Idle];
      Record(me, before, 0, false);
    }

    /** The verdict about the owner `staleLock` found: gone exactly if that one is dead and the verdict says so. */
    method Judge(me: Actor, verdict: bool) returns (gone: bool)
      requires Valid() && View().Live(me) && (View().At(me).FirstJudge? || View().At(me).SecondJudge?)
      modifies this
      ensures Valid() && start == old(start) && old(run) <= run && View().Live(me)
      ensures lock == old(lock) && reclaim == old(reclaim) && dead == old(dead)
      ensures gone <==> verdict && Judged(old(View().At(me))).value in dead
      ensures View().At(me) ==
        var was := old(View().At(me));
        if was.SecondJudge? then (if gone && was.again == was.seen then UnlinkLock(was.seen) else UnlinkReclaim(false))
        else if gone then LinkReclaim(was.seen) else Idle
    {
      ghost var before := View();
      var was := at[me];
      gone := verdict && (if was.SecondJudge? then was.again.owner else was.seen.owner) in dead;
      at := at[me := if was.SecondJudge? then (if gone && was.again == was.seen then UnlinkLock(was.seen) else UnlinkReclaim(false))
                     else if gone then LinkReclaim(was.seen) else Idle];
      Record(me, before, 0, gone);
    }

    /**
     * `staleLock` with the others' steps between its operations. None when the file is gone or its owner isn't; `i` is
     * the number of the stat among the call's operations.
     */
    method Look(me: Actor, e: Environment, i: nat) returns (stale: Option<LockFile>)
      requires Valid() && View().Live(me) && (View().At(me).FirstStat? || View().At(me).SecondStat?)
      requires forall k :: Foreign(e.others(k), me)
      modifies this
      ensures Valid() && start == old(start) && old(run) <= run && View().Live(me)
      ensures View().At(me) ==
        var was := old(View().At(me));
        if was.SecondStat? then (if stale == Some(was.seen) then UnlinkLock(was.seen) else UnlinkReclaim(false))
        else if stale.Some? then LinkReclaim(stale.value) else Idle
      ensures Undisturbed(e) ==>
        && lock == old(lock) && reclaim == old(reclaim) && dead == old(dead)
        && stale == if lock.Some? && lock.value.owner in dead then lock else None
    {
      var stamp := Stat(me);
      if stamp.None? { return None; }
      Interfere(me, e.others(i + 1));
      var found := Read(me);
      if found.None? { return None; }
      Interfere(me, e.others(i + 2));
      var gone := Judge(me, e.verdict(i + 2));
      stale := if gone then found else None;
    }

    /** `takeLock` on `<lock>.reclaim`. */
    method LinkMarker(me: Actor, stamp: nat) returns (linked: bool)
      requires Valid() && View().Live(me) && View().At(me).LinkReclaim?
      modifies this
      ensures Valid() && start == old(start) && old(run) <= run && View().Live(me)
      ensures linked <==> old(reclaim).None?
      ensures reclaim == (if linked then Some(LockFile(stamp, me.pid)) else old(reclaim)) && lock == old(lock) && dead == old(dead)
      ensures View().At(me) == (if linked then SecondStat(old(View().At(me)).seen) else Idle)
    {
      ghost var before := View();
      linked := reclaim.None?;
      if linked { reclaim := Some(LockFile(stamp, me.pid)); }
      at := at[me := if linked then SecondStat(at[me].seen) else Idle];
      Record(me, before, stamp, false);
    }

    /** Unlinks the stale lock, by its path; false when nothing is there (the source throws then). */
    method Unlink(me: Actor) returns (there: bool)
      requires Valid() && View().Live(me) && View().At(me).UnlinkLock?
      modifies this
      ensures Valid() && start == old(start) && old(run) <= run && View().Live(me)
      ensures (there <==> old(lock).Some?) && lock.None? && reclaim == old(reclaim) && dead == old(dead)
      ensures View().At(me) == (if there then Relink else UnlinkReclaim(false))
    {
      ghost var before := View();
      there := lock.Some?;
      lock := None;
      at := at[me := if there then Relink else UnlinkReclaim(false)];
      Record(me, before, 0, false);
    }

    /** The `finally` of the takeover: the marker goes. */
    method UnlinkMarker(me: Actor, won: bool)
      requires Valid() && View().Live(me) && View().At(me) == UnlinkReclaim(won)
      modifies this
      ensures Valid() && start == old(start) && old(run) <= run && View().Live(me)
      ensures reclaim.None? && lock == old(lock) && dead == old(dead)
      ensures View().At(me) == (if won then Holding else Idle)
    {
      ghost var before := View();
      reclaim := None;
      at := at[me := if won then Holding else Idle];
      Record(me, before, 0, false);
    }

    /** The work under the marker: the second look, and the replacement if it is still that same stale file. */
    method Replace(me: Actor, e: Environment, seen: LockFile) returns (won: bool)
      requires Valid() && View().Live(me) && View().At(me) == SecondStat(seen)
      requires forall k :: Foreign(e.others(k), me)
      modifies this
      ensures Valid() && start == old(start) && old(run) <= run && View().Live(me)
      ensures View().At(me) == UnlinkReclaim(won)
      ensures Undisturbed(e) && old(lock) == Some(seen) && seen.owner in old(dead) ==>
        won && lock == Some(LockFile(e.stamp(9), me.pid)) && reclaim == old(reclaim) && dead == old(dead)
    {
      var again := Look(me, e, 5);
      if again != Some(seen) { return false; }
      Interfere(me, e.others(8));
      var there := Unlink(me);
      if !there { return false; }
      Interfere(me, e.others(9));
      won := LinkLock(me, e.stamp(9));
    }

    /** The body of `tryLock`: in every environment it ends holding the lock or idle, and says which. */
    method Attempt(me: Actor, e: Environment) returns (won: bool)
      requires Valid() && View().Live(me) && View().At(me) == Idle
      requires forall k :: Foreign(e.others(k), me)
      modifies this
      ensures Valid() && start == old(start) && old(run) <= run && View().Live(me)
      ensures View().At(me) == (if won then Holding else Idle)
      ensures Undisturbed(e) ==>
        && (won <==> Takable(old(View()))) && reclaim == old(reclaim) && dead == old(dead)
        && (if won then lock.Some? && lock.value.owner == me.pid else lock == old(lock))
    {
      Interfere(me, e.others(0));
      won := LinkLock(me, e.stamp(0));
      if won { return; }
      Interfere(me, e.others(1));
      var seen := Look(me, e, 1);
      if seen.None? { return; }
      won := TakeOver(me, e, seen.value);
    }

    /** The takeover of a lock found stale: only under the marker, which goes again in the end. */
    method TakeOver(me: Actor, e: Environment, seen: LockFile) returns (won: bool)
      requires Valid() && View().Live(me) && View().At(me) == LinkReclaim(seen)
      requires forall k :: Foreign(e.others(k), me)
      modifies this
      ensures Valid() && start == old(start) && old(run) <= run && View().Live(me)
      ensures View().At(me) == (if won then Holding else Idle)
      ensures Undisturbed(e) && old(lock) == Some(seen) && seen.owner in old(dead) ==>
        && (won <==> old(reclaim).None?) && reclaim == old(reclaim) && dead == old(dead)
        && lock == (if won then Some(LockFile(e.stamp(9), me.pid)) else old(lock))
    {
      Interfere(me, e.others(4));
      var marked := LinkMarker(me, e.stamp(4));
      if !marked { return false; }
      Interfere(me, e.others(5));
      won := Replace(me, e, seen);
      Interfere(me, e.others(10));
      UnlinkMarker(me, won);
    }

    /**
     * `tryLock`. The call is part of a run of the machine, whatever the others do meanwhile: a true answer means that
     * the lock file names the caller and that no other live actor holds the lock. Undisturbed, and with right verdicts, the
     * call takes the lock exactly if it is there to be taken, and leaves the files as they were but for that.
     */
    method TryLock(me: Actor, e: Environment) returns (won: bool)
      requires Valid() && View().Live(me) && View().At(me) == Idle
      requires forall k :: Foreign(e.others(k), me)
      modifies this
      ensures Valid() && start == old(start) && old(run) <= run && View().Live(me)
      ensures View().At(me) == (if won then Holding else Idle)
      ensures won ==> lock.Some? && lock.value.owner == me.pid
      ensures won ==> forall a :: Holds(View(), a) && View().Live(a) ==> a == me
      ensures Undisturbed(e) ==>
        && (won <==> Takable(old(View()))) && reclaim == old(reclaim) && dead == old(dead)
        && (!won ==> lock == old(lock))
    {
      won := Attempt(me, e);
      RunKeepsInv(start, run);
      assert Sound(View(), me);
    }

    /** The holder unlinks the lock, by its path: its own file, since nobody replaced it. */
    method Unlock(me: Actor)
      requires Valid() && View().Live(me) && View().At(me) == Holding
      modifies this
      ensures Valid() && start == old(start) && run == old(run) + [Release(me)]
      ensures old(lock).Some? && old(lock).value.owner == me.pid && lock.None?
      ensures View().At(me) == Idle && reclaim == old(reclaim) && dead == old(dead)
    {
      RunKeepsInv(start, run);
      assert Sound(View(), me);
      ExecJoins(start, run, [Release(me)]);
      lock := None;
      at := at[me := Idle];
      run := run + [Release(me)];
    }
  }
}
