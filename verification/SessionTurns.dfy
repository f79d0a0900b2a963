/**
 * What the session ledger keeps over every run: turns exclude each other, a session owned elsewhere or halted is given
 * to nobody, and a room that keeps asking is overtaken at most once by each other room.
 *
 * A run is any sequence of edits by any watchers, each with its own time and its own view of which processes live.
 */
module SessionTurns {
  import opened Wrappers
  import opened SessionLedger

  datatype Op =
    /** `seen`: its look before the edit finds the session halted, and answers without an edit. */
    | Claim(room: Room, me: Pid, seen: bool)
    | Started(room: Room, me: Pid, run: Pid)
    | Release(room: Room, me: Pid, busy: bool, coordination: bool)
    /** `seen`: its look before the edit finds the room in line; without that it edits nothing. */
    | Withdraw(room: Room, seen: bool)
    | ClearHalt

  datatype Event = Event(op: Op, at: int, alive: set<Pid>)

  /** The edit granted the session to the room that claimed it. */
  ghost predicate Grants(l: Ledger, e: Event, t: Timing) {
    e.op.Claim? && !e.op.seen && Decide(Join(l, e.op.room, e.op.me, e.at, e.alive), e.op.room, e.at, t).Granted?
  }

  ghost function Apply(l: Ledger, e: Event, t: Timing): Ledger {
    match e.op
    case Claim(room, me, seen) =>
      if seen then l else
      var joined := Join(l, room, me, e.at, e.alive);
      if Grants(l, e, t) then Grant(joined, room, me, e.at, t) else joined
    case Started(room, me, run) => Start(l, room, me, run, e.at, e.alive)
    case Release(room, me, busy, coordination) => End(l, room, me, busy, coordination, e.at, e.alive, t)
    case Withdraw(room, seen) => Leave(l, room, seen, e.at, e.alive)
    case ClearHalt => Clear(l, e.at, e.alive)
  }

  /** The ledger after the first `k` edits. */
  ghost function After(l: Ledger, es: seq<Event>, k: nat, t: Timing): Ledger
    requires k <= |es|
  {
    if k == 0 then l else Apply(After(l, es, k - 1, t), es[k - 1], t)
  }

  // ---- Exclusion ----

  /** The same turn: only its run may have been recorded since. */
  predicate SameTurn(a: Turn, b: Turn) {
    a.(run := None) == b.(run := None)
  }

  /**
   * A turn is over at an edit exactly then: its watcher releases it or asks again, its time is past, or neither its
   * watcher nor its recorded run lives.
   */
  predicate Over(turn: Turn, e: Event) {
    || turn.until <= e.at
    || !TurnLives(turn, e.alive)
    || (e.op.Claim? && !e.op.seen && e.op.room == turn.room && e.op.me == turn.watcher)
    || (e.op.Release? && e.op.room == turn.room && e.op.me == turn.watcher)
  }

  /** The events that edit the file at all: a withdrawal that doesn't see its room in line, and a claim that sees a halt, only read it. */
  predicate Edits(e: Event) {
    (e.op.Withdraw? ==> e.op.seen) && !(e.op.Claim? && e.op.seen)
  }

  /** A turn that isn't over stands: the edit keeps it and grants nothing, whoever else releases, late or not. */
  lemma TurnStands(l: Ledger, e: Event, t: Timing)
    requires l.running.Some? && !Over(l.running.value, e)
    ensures Apply(l, e, t).running.Some? && SameTurn(Apply(l, e, t).running.value, l.running.value)
    ensures !Grants(l, e, t)
  {
  }

  /** And one that is over ends with the edit: what runs afterwards, if anything, was granted by it. */
  lemma OverEndsTurn(l: Ledger, e: Event, t: Timing)
    requires l.running.Some? && Over(l.running.value, e) && Edits(e)
    ensures Apply(l, e, t).running.Some? ==> Grants(l, e, t) && Apply(l, e, t).running.value.startedAt == e.at
  {
  }

  /** The turn running before edit `k` is over at it. */
  ghost predicate OverAt(l: Ledger, es: seq<Event>, k: nat, t: Timing)
    requires k < |es|
  {
    var running := After(l, es, k, t).running;
    running.Some? && Over(running.value, es[k])
  }

  lemma {:induction false} StandsUntilOver(l: Ledger, es: seq<Event>, i: nat, j: nat, t: Timing)
    requires i < j <= |es| && After(l, es, i + 1, t).running.Some?
    requires forall k :: i < k < j ==> !OverAt(l, es, k, t)
    ensures After(l, es, j, t).running.Some?
    ensures SameTurn(After(l, es, j, t).running.value, After(l, es, i + 1, t).running.value)
    decreases j
  {
    if j > i + 1 {
      StandsUntilOver(l, es, i, j - 1, t);
      assert !OverAt(l, es, j - 1, t);
      TurnStands(After(l, es, j - 1, t), es[j - 1], t);
    }
  }

  /**
   * Session turns exclude each other in every run: when a second claim is granted, the first turn was over at some edit
   * in between, or at that claim itself.
   */
  lemma TurnsExcludeEachOther(l: Ledger, es: seq<Event>, i: nat, j: nat, t: Timing)
    requires i < j < |es|
    requires Grants(After(l, es, i, t), es[i], t) && Grants(After(l, es, j, t), es[j], t)
    ensures After(l, es, i + 1, t).running.Some?
    ensures exists k :: (i < k <= j && OverAt(l, es, k, t)
      && SameTurn(After(l, es, k, t).running.value, After(l, es, i + 1, t).running.value))
  {
    assert After(l, es, i + 1, t) == Apply(After(l, es, i, t), es[i], t);
    var k := FirstOver(l, es, i, j, t);
    StandsUntilOver(l, es, i, k, t);
    if k == j && !OverAt(l, es, j, t) {
      TurnStands(After(l, es, j, t), es[j], t);
    }
    assert OverAt(l, es, k, t);
  }

  /** The first edit after `i` at which the running turn is over, or `j` when there is none before it. */
  lemma {:induction false} FirstOver(l: Ledger, es: seq<Event>, i: nat, j: nat, t: Timing) returns (k: nat)
    requires i < j < |es|
    ensures i < k <= j && (k < j ==> OverAt(l, es, k, t))
    ensures forall m :: i < m < k ==> !OverAt(l, es, m, t)
    decreases j
  {
    if j == i + 1 {
      k := j;
    } else {
      k := FirstOver(l, es, i, j - 1, t);
      if k == j - 1 && !OverAt(l, es, k, t) {
        k := j;
      }
    }
  }

  // ---- Owned elsewhere, or halted ----

  /** A running turn never coexists with an owner elsewhere or a halt. */
  predicate Sole(l: Ledger) {
    l.running.Some? ==> l.owned.None? && l.halted.None?
  }

  lemma {:induction false} RunningIsSole(es: seq<Event>, k: nat, t: Timing)
    requires k <= |es|
    ensures Sole(After(Empty, es, k, t))
    decreases k
  {
    if k > 0 {
      RunningIsSole(es, k - 1, t);
    }
  }

  /** Held back: nothing runs, and the session is halted, or owned elsewhere beyond `until`. */
  predicate HeldBack(l: Ledger, until: int) {
    l.running.None? && (l.halted.Some? || (l.owned.Some? && until <= l.owned.value.until))
  }

  lemma HeldBackStep(l: Ledger, e: Event, until: int, t: Timing)
    requires HeldBack(l, until) && !e.op.ClearHalt? && (l.halted.None? ==> e.at < until)
    ensures HeldBack(Apply(l, e, t), until) && !Grants(l, e, t)
    ensures l.halted.Some? ==> Apply(l, e, t).halted.Some?
  {
  }

  /** Once held back, it stays so until its owner's time is up or the operator binds again. */
  lemma {:induction false} HeldBackSince(l: Ledger, es: seq<Event>, i: nat, k: nat, until: int, t: Timing)
    requires i <= k < |es| && HeldBack(After(l, es, i, t), until)
    requires forall j :: i <= j <= k ==> !es[j].op.ClearHalt? && (After(l, es, i, t).halted.None? ==> es[j].at < until)
    ensures HeldBack(After(l, es, k, t), until) && !Grants(After(l, es, k, t), es[k], t)
    ensures After(l, es, i, t).halted.Some? ==> After(l, es, k, t).halted.Some?
    decreases k
  {
    if k > i {
      HeldBackSince(l, es, i, k - 1, until, t);
      HeldBackStep(After(l, es, k - 1, t), es[k - 1], until, t);
    }
    HeldBackStep(After(l, es, k, t), es[k], until, t);
  }

  /**
   * A session held elsewhere is given to no room before `owned.until`, and a halted one to none at all, unless the
   * operator binds again (`ClearHalt`) first.
   */
  lemma HeldBackGrantsNothing(l: Ledger, es: seq<Event>, k: nat, until: int, t: Timing)
    requires Sole(l) && (l.halted.Some? || (l.owned.Some? && until <= l.owned.value.until))
    requires k < |es| && forall i :: 0 <= i <= k ==> !es[i].op.ClearHalt? && (l.halted.None? ==> es[i].at < until)
    ensures HeldBack(After(l, es, k, t), until) && !Grants(After(l, es, k, t), es[k], t)
    ensures l.halted.Some? ==> After(l, es, k, t).halted.Some?
  {
    HeldBackSince(l, es, 0, k, until, t);
  }

  // ---- What the end of a turn brings about ----

  /** A watcher releases its own turn, which still stands. */
  predicate EndsOwn(l: Ledger, e: Event) {
    e.op.Release? && IsTurnOf(l.running, e.op.room, e.op.me) && e.at < l.running.value.until && TurnLives(l.running.value, e.alive)
  }

  lemma AfterOne(l: Ledger, es: seq<Event>, i: nat, t: Timing)
    requires i < |es|
    ensures After(l, es, i + 1, t) == Apply(After(l, es, i, t), es[i], t)
  {
  }

  lemma OwnEnd(l: Ledger, e: Event, t: Timing)
    requires EndsOwn(l, e)
    ensures var l1 := Apply(l, e, t);
      && l1.running.None?
      && (e.op.coordination ==> l1.halted == Some(e.op.room))
      && l1.owned == (if e.op.busy then Some(Owned(e.op.room, e.at + t.ownedMs)) else None)
    ensures e.op.busy || e.op.coordination ==> HeldBack(Apply(l, e, t), e.at + t.ownedMs)
  {
  }

  /** After a turn that ended with broken session records nobody is given the session until the operator binds again. */
  lemma BrokenSessionIsHalted(l: Ledger, es: seq<Event>, i: nat, k: nat, t: Timing)
    requires i < k < |es| && EndsOwn(After(l, es, i, t), es[i]) && es[i].op.coordination
    requires forall j :: i < j <= k ==> !es[j].op.ClearHalt?
    ensures After(l, es, k, t).halted.Some? && !Grants(After(l, es, k, t), es[k], t)
  {
    hide Apply, Grants, EndsOwn, HeldBack, After;
    AfterOne(l, es, i, t);
    OwnEnd(After(l, es, i, t), es[i], t);
    HeldBackSince(l, es, i + 1, k, es[i].at + t.ownedMs, t);
  }

  /** And after one that was refused, nobody is for the next `ownedMs`. */
  lemma RefusedSessionWaits(l: Ledger, es: seq<Event>, i: nat, k: nat, t: Timing)
    requires i < k < |es| && EndsOwn(After(l, es, i, t), es[i]) && es[i].op.busy
    requires forall j :: i < j <= k ==> !es[j].op.ClearHalt? && es[j].at < es[i].at + t.ownedMs
    ensures !Grants(After(l, es, k, t), es[k], t)
  {
    hide Apply, Grants, EndsOwn, HeldBack, After;
    AfterOne(l, es, i, t);
    OwnEnd(After(l, es, i, t), es[i], t);
    HeldBackSince(l, es, i + 1, k, es[i].at + t.ownedMs, t);
  }

  /** The place in line a claim has: its own from before, or one at the end. */
  function PlaceOf(l: Ledger, e: Event): Entry
    requires e.op.Claim?
  {
    var since := if e.op.room in l.pending && l.pending[e.op.room].watcher in e.alive then l.pending[e.op.room].since else e.at;
    Entry(since, e.at, e.op.me)
  }

  /** Nobody whose watcher lives and has asked within `freshMs` is ahead of the claim. */
  ghost predicate Foremost(l: Ledger, e: Event, t: Timing)
    requires e.op.Claim?
  {
    forall q :: q in l.pending && q != e.op.room && l.pending[q].watcher in e.alive && e.at - l.pending[q].seenAt <= t.freshMs ==>
      var mine, theirs := PlaceOf(l, e).since, l.pending[q].since;
      mine < theirs || (mine == theirs && e.op.room < q)
  }

  predicate Unowned(l: Ledger, at: int) {
    l.owned.None? || l.owned.value.until <= at
  }

  /**
   * When a claim is granted, exactly: it didn't see a halt and there is none, the turn before is over, no owner's time runs, and
   * nobody asking is ahead. It then runs, off the line, from that moment on and for `holdMs`, in the place it had.
   */
  lemma GrantsExactly(l: Ledger, e: Event, t: Timing)
    requires e.op.Claim?
    ensures Grants(l, e, t) <==>
      && !e.op.seen && l.halted.None? && Unowned(l, e.at) && Foremost(l, e, t)
      && (l.running.Some? ==> Over(l.running.value, e))
    ensures Grants(l, e, t) ==>
      && Apply(l, e, t).running == Some(Turn(e.op.room, PlaceOf(l, e).since, e.op.me, None, e.at, e.at + t.holdMs))
      && e.op.room !in Apply(l, e, t).pending
    ensures !Grants(l, e, t) && !e.op.seen ==>
      e.op.room in Apply(l, e, t).pending && Apply(l, e, t).pending[e.op.room] == PlaceOf(l, e)
  {
    var joined := Join(l, e.op.room, e.op.me, e.at, e.alive);
    assert joined.pending[e.op.room] == PlaceOf(l, e);
    assert forall q :: q in joined.pending && q != e.op.room ==> q in l.pending && joined.pending[q] == l.pending[q];
    assert forall q :: q in l.pending && q != e.op.room && l.pending[q].watcher in e.alive ==> q in joined.pending;
    assert IsFresh(joined.pending[e.op.room], e.at, t);
    assert Foremost(l, e, t) <==> Leads(e.op.room, joined.pending, e.at, t);
  }

  /** Once the operator binds again, the next claim of the foremost room is granted as soon as no turn stands. */
  lemma ClearedGrantsForemost(l: Ledger, clear: Event, e: Event, t: Timing)
    requires clear.op.ClearHalt? && e.op.Claim? && !e.op.seen
    ensures var l1 := Apply(l, clear, t);
      Grants(l1, e, t) <==> Foremost(l1, e, t) && (l1.running.Some? ==> Over(l1.running.value, e))
  {
    GrantsExactly(Apply(l, clear, t), e, t);
  }

  /** A turn that ended well leaves the session to the foremost room at once, unless it was halted meanwhile. */
  lemma EndedGrantsForemost(l: Ledger, end: Event, e: Event, t: Timing)
    requires EndsOwn(l, end) && !end.op.busy && !end.op.coordination && e.op.Claim? && !e.op.seen
    ensures var l1 := Apply(l, end, t); Grants(l1, e, t) <==> Foremost(l1, e, t) && l.halted.None?
  {
    GrantsExactly(Apply(l, end, t), e, t);
  }

  /** A room that withdraws is off the line, and every other whose watcher lives is where it was; nothing is granted, and no turn ends. */
  lemma WithdrawsAlone(l: Ledger, e: Event, q: Room, t: Timing)
    requires e.op.Withdraw? && e.op.seen
    ensures var after := Apply(l, e, t).pending;
      e.op.room !in after
      && (q != e.op.room && q in l.pending && l.pending[q].watcher in e.alive ==> q in after && after[q] == l.pending[q])
      && (q in after ==> q in l.pending)
  {
  }

  /** A turn whose run was recorded stands while that run lives, also when its watcher doesn't; one that wasn't ends with its watcher. */
  lemma RecordedRunKeepsTurn(l: Ledger, start: Event, e: Event, t: Timing)
    requires start.op.Started? && IsTurnOf(l.running, start.op.room, start.op.me)
    requires start.at < l.running.value.until && TurnLives(l.running.value, start.alive)
    requires e.at < l.running.value.until
    requires (e.op.Release? || e.op.Claim?) ==> !(e.op.room == start.op.room && e.op.me == start.op.me)
    ensures var l1 := Apply(l, start, t);
      && l1.running.Some? && SameTurn(l1.running.value, l.running.value)
      && (start.op.run in e.alive || start.op.me in e.alive <==> !Over(l1.running.value, e))
      && (start.op.run in e.alive ==> Apply(l1, e, t).running.Some? && SameTurn(Apply(l1, e, t).running.value, l.running.value))
  {
    var l1 := Apply(l, start, t);
    if start.op.run in e.alive { TurnStands(l1, e, t); }
  }

  // ---- A refused turn keeps its place ----

  /** Of the others in line each is where it was in `before`, or joined after `at`. */
  ghost predicate Behind(l: Ledger, before: map<Room, Entry>, r: Room, at: int) {
    forall q :: q in l.pending && q != r ==> (q in before && l.pending[q].since == before[q].since) || l.pending[q].since > at
  }

  lemma TurnKeepsLine(l: Ledger, e: Event, before: map<Room, Entry>, at: int, t: Timing)
    requires l.running.Some? && Behind(l, before, l.running.value.room, at) && at < e.at
    requires !Over(l.running.value, e) || EndsOwn(l, e)
    ensures Behind(Apply(l, e, t), before, l.running.value.room, at)
  {
  }

  lemma {:induction false} LineWhileRunning(l: Ledger, es: seq<Event>, i: nat, j: nat, t: Timing)
    requires i < j <= |es| && Grants(After(l, es, i, t), es[i], t)
    requires forall k :: 0 < k < |es| ==> es[k - 1].at < es[k].at
    requires forall k :: i < k < j ==> !OverAt(l, es, k, t)
    ensures var turn := After(l, es, i + 1, t).running;
      && turn.Some? && After(l, es, j, t).running.Some? && SameTurn(After(l, es, j, t).running.value, turn.value)
      && Behind(After(l, es, j, t), After(l, es, i + 1, t).pending, turn.value.room, es[i].at)
    decreases j
  {
    hide Apply, Grants, Over, Behind;
    StandsFromGrant(l, es, i, t);
    if j > i + 1 {
      LineWhileRunning(l, es, i, j - 1, t);
      var u := After(l, es, j - 1, t);
      assert !OverAt(l, es, j - 1, t);
      TurnStands(u, es[j - 1], t);
      ClockGoesOn(es, i, j - 1);
      TurnKeepsLine(u, es[j - 1], After(l, es, i + 1, t).pending, es[i].at, t);
    }
  }

  lemma StandsFromGrant(l: Ledger, es: seq<Event>, i: nat, t: Timing)
    requires i < |es| && Grants(After(l, es, i, t), es[i], t)
    ensures var u := After(l, es, i + 1, t);
      u.running.Some? && u.running.value.room == es[i].op.room && Behind(u, u.pending, es[i].op.room, es[i].at)
  {
  }

  lemma {:induction false} ClockGoesOn(es: seq<Event>, i: nat, j: nat)
    requires i < j < |es| && forall k :: 0 < k < |es| ==> es[k - 1].at < es[k].at
    ensures es[i].at < es[j].at
    decreases j
  {
    if i < j - 1 { ClockGoesOn(es, i, j - 1); }
  }

  /**
   * A room whose turn was refused is in line again, in the place it was granted from: ahead of everyone it was ahead of then,
   * and of everyone who joined since.
   */
  lemma RefusedKeepsPlace(es: seq<Event>, i: nat, j: nat, t: Timing)
    requires i < j < |es| && Grants(After(Empty, es, i, t), es[i], t)
    requires forall k :: 0 < k < |es| ==> es[k - 1].at < es[k].at
    requires forall k :: i < k < j ==> !OverAt(Empty, es, k, t)
    requires EndsOwn(After(Empty, es, j, t), es[j]) && es[j].op.busy
    ensures var r, place := es[i].op.room, PlaceOf(After(Empty, es, i, t), es[i]);
      var line, after := After(Empty, es, i + 1, t).pending, After(Empty, es, j + 1, t).pending;
      && r in after && after[r].since == place.since
      && forall q :: q in after && q != r && (q in line ==> Before(place, r, line[q], q)) ==> Before(after[r], r, after[q], q)
  {
    var granted, u := After(Empty, es, i, t), After(Empty, es, j, t);
    GrantsExactly(granted, es[i], t);
    ReachableTakenBefore(es, i, t);
    LineWhileRunning(Empty, es, i, j, t);
    ClockGoesOn(es, i, j);
    TurnKeepsLine(u, es[j], After(Empty, es, i + 1, t).pending, es[i].at, t);
  }

  // ---- Bounded overtaking ----

  /** How many turns `q` may still take before `r`: one if it runs, one if it waits ahead of `r`. */
  function Weight(l: Ledger, r: Room, q: Room): nat
    requires r in l.pending
  {
    (if l.running.Some? && l.running.value.room == q then 1 else 0)
    + (if q in l.pending && Before(l.pending[q], q, l.pending[r], r) then 1 else 0)
  }

  /** The turn in progress ends at this edit because the harness refused it: nothing was delivered. */
  predicate Refused(l: Ledger, e: Event) {
    var c := Clean(l, e.at, e.alive);
    e.op.Release? && e.op.busy && IsTurnOf(c.running, e.op.room, e.op.me)
  }

  /** 1 when a turn of `q` ends at this edit other than by a refusal. */
  function TurnEnded(l: Ledger, e: Event, q: Room): nat {
    if l.running.Some? && l.running.value.room == q && Over(l.running.value, e) && Edits(e) && !Refused(l, e) then 1 else 0
  }

  /**
   * Every place in line, and the one the running turn had, was taken before `at`; and a room that runs and is in line
   * again joined it after.
   */
  ghost predicate TakenBefore(l: Ledger, at: int) {
    && (forall q :: q in l.pending ==> l.pending[q].since < at)
    && (l.running.Some? ==> l.running.value.since < at)
    && (l.running.Some? && l.running.value.room in l.pending ==>
          l.running.value.since <= l.pending[l.running.value.room].since)
  }

  /** `r` stays in line through the edit, its watcher lives, and it asked within `freshMs`. */
  ghost predicate StaysInLine(l: Ledger, e: Event, r: Room, t: Timing) {
    && r in l.pending && l.pending[r].watcher in e.alive && IsFresh(l.pending[r], e.at, t)
    && r in Apply(l, e, t).pending
  }

  /** Nobody joins ahead of `r`, and every turn that ends takes one off its room's count. */
  lemma OvertakingStep(l: Ledger, e: Event, r: Room, q: Room, t: Timing)
    requires q != r && StaysInLine(l, e, r, t) && TakenBefore(l, e.at)
    ensures r in Apply(l, e, t).pending
    ensures Weight(Apply(l, e, t), r, q) + TurnEnded(l, e, q) <= Weight(l, r, q)
    ensures Grants(l, e, t) && e.op.room == q ==> Weight(l, r, q) >= 1
  {
    var c := Clean(l, e.at, e.alive);
    assert c.pending[r] == l.pending[r];
    if e.op.Claim? && !e.op.seen {
      var joined := Join(l, e.op.room, e.op.me, e.at, e.alive);
      if Grants(l, e, t) && e.op.room == q {
        assert Before(joined.pending[q], q, joined.pending[r], r);
      }
    }
  }

  lemma TakenBeforeStep(l: Ledger, e: Event, at: int, t: Timing)
    requires TakenBefore(l, e.at) && e.at < at
    ensures TakenBefore(Apply(l, e, t), at)
  {
  }

  /** Which holds in every run from an empty ledger on a strictly increasing clock. */
  lemma {:induction false} ReachableTakenBefore(es: seq<Event>, k: nat, t: Timing)
    requires k < |es| && forall i :: 0 < i < |es| ==> es[i - 1].at < es[i].at
    ensures TakenBefore(After(Empty, es, k, t), es[k].at)
    decreases k
  {
    if k > 0 {
      ReachableTakenBefore(es, k - 1, t);
      TakenBeforeStep(After(Empty, es, k - 1, t), es[k - 1], es[k].at, t);
    }
  }

  /** Through the whole run `r` stays in line and keeps asking, on a clock that strictly increases. */
  ghost predicate KeepsAsking(l: Ledger, es: seq<Event>, r: Room, t: Timing) {
    && (es != [] ==> TakenBefore(l, es[0].at))
    && (forall k :: 0 < k < |es| ==> es[k - 1].at < es[k].at)
    && (forall k :: 0 <= k < |es| ==> StaysInLine(After(l, es, k, t), es[k], r, t))
  }

  ghost function TurnsEnded(l: Ledger, es: seq<Event>, k: nat, q: Room, t: Timing): nat
    requires k <= |es|
  {
    if k == 0 then 0 else TurnsEnded(l, es, k - 1, q, t) + TurnEnded(After(l, es, k - 1, t), es[k - 1], q)
  }

  lemma {:induction false} StillTakenBefore(l: Ledger, es: seq<Event>, r: Room, k: nat, t: Timing)
    requires KeepsAsking(l, es, r, t) && k < |es|
    ensures TakenBefore(After(l, es, k, t), es[k].at)
    decreases k
  {
    if k > 0 {
      StillTakenBefore(l, es, r, k - 1, t);
      TakenBeforeStep(After(l, es, k - 1, t), es[k - 1], es[k].at, t);
    }
  }

  lemma WeightAtMost(l: Ledger, r: Room, q: Room)
    requires r in l.pending
    ensures Weight(l, r, q) <= 2
    ensures !(q in l.pending && l.running.Some? && l.running.value.room == q) ==> Weight(l, r, q) <= 1
  {
  }

  /**
   * Bounded overtaking: while `r` keeps asking, the turns of `q` that end other than by a refusal, and the ones it may
   * still take, never exceed what it had ahead of `r` at first. A room that wasn't both running and in line again takes
   * at most one.
   */
  lemma {:induction false} BoundedOvertaking(l: Ledger, es: seq<Event>, r: Room, q: Room, k: nat, t: Timing)
    requires k <= |es| && q != r && r in l.pending && KeepsAsking(l, es, r, t)
    ensures r in After(l, es, k, t).pending
    ensures TurnsEnded(l, es, k, q, t) + Weight(After(l, es, k, t), r, q) <= Weight(l, r, q) <= 2
    ensures !(q in l.pending && l.running.Some? && l.running.value.room == q) ==> TurnsEnded(l, es, k, q, t) <= 1
    decreases k
  {
    hide Apply, TakenBefore, Weight, StaysInLine;
    WeightAtMost(l, r, q);
    if k > 0 {
      BoundedOvertaking(l, es, r, q, k - 1, t);
      StillTakenBefore(l, es, r, k - 1, t);
      assert StaysInLine(After(l, es, k - 1, t), es[k - 1], r, t);
      OvertakingStep(After(l, es, k - 1, t), es[k - 1], r, q, t);
    }
  }

  /**
   * `q`'s watcher dies while its run goes on, `q` joins the line again under another watcher, and then `r` joins: `q` both runs
   * and is in line ahead of `r`.
   */
  function RunsAndWaits(q: Room, r: Room): seq<Event> {
    [Event(Claim(q, 11, false), 1, {11}), Event(Started(q, 11, 21), 2, {11, 21}), Event(Claim(q, 12, false), 3, {12, 21}),
     Event(Claim(r, 13, false), 4, {12, 13, 21})]
  }

  /** The run ends, `q` gets the session again, and releases it. */
  function RunsAgain(q: Room): seq<Event> {
    [Event(Claim(q, 12, false), 5, {12, 13}), Event(Release(q, 12, false, false), 6, {12, 13})]
  }

  lemma InLineTwice(q: Room, r: Room, t: Timing)
    requires q != r && t.holdMs > 10 && t.freshMs > 10
    ensures After(Empty, RunsAndWaits(q, r), 4, t)
      == Empty.(running := Some(Turn(q, 1, 11, Some(21), 1, 1 + t.holdMs)), pending := map[q := Entry(3, 3, 12), r := Entry(4, 4, 13)])
  {
    var es, turn := RunsAndWaits(q, r), Turn(q, 1, 11, None, 1, 1 + t.holdMs);
    var l1 := Apply(Empty, es[0], t);
    assert l1 == Empty.(running := Some(turn)) by {
      assert map[q := Entry(1, 1, 11)] - {q} == map[];
      assert Join(Empty, q, 11, 1, {11}).pending == map[q := Entry(1, 1, 11)];
    }
    var l2 := Apply(l1, es[1], t);
    assert l2 == Empty.(running := Some(turn.(run := Some(21))));
    var l3 := Apply(l2, es[2], t);
    assert l3.running == l2.running && l3.pending == map[q := Entry(3, 3, 12)];
    var l4 := Apply(l3, es[3], t);
    assert l4.pending == map[q := Entry(3, 3, 12), r := Entry(4, 4, 13)];
    assert After(Empty, es, 1, t) == l1;
    assert After(Empty, es, 2, t) == l2;
    assert After(Empty, es, 3, t) == l3;
  }

  /** What `q`'s second turn leaves: `r` is next in line. */
  lemma RunsAgainFrom(l: Ledger, q: Room, r: Room, t: Timing)
    requires q != r && t.holdMs > 10 && t.freshMs > 10
    requires l == Empty.(running := Some(Turn(q, 1, 11, Some(21), 1, 1 + t.holdMs)), pending := map[q := Entry(3, 3, 12), r := Entry(4, 4, 13)])
    ensures var es := RunsAgain(q); var l1 := Apply(l, es[0], t);
      && l1 == Empty.(running := Some(Turn(q, 3, 12, None, 5, 5 + t.holdMs)), pending := map[r := Entry(4, 4, 13)])
      && Apply(l1, es[1], t) == Empty.(pending := map[r := Entry(4, 4, 13)])
  {
    var es := RunsAgain(q);
    var l1 := Apply(l, es[0], t);
    assert map[q := Entry(3, 5, 12), r := Entry(4, 4, 13)] - {q} == map[r := Entry(4, 4, 13)];
    assert Join(l, q, 12, 5, {12, 13}).pending == map[q := Entry(3, 5, 12), r := Entry(4, 4, 13)];
    assert Apply(l1, es[1], t).pending == map[r := Entry(4, 4, 13)];
  }

  /** So the exception is reached, from an empty ledger: two unrefused turns of `q` while `r` keeps asking. */
  lemma OvertakenTwice(q: Room, r: Room, t: Timing)
    requires q != r && t.holdMs > 10 && t.freshMs > 10
    ensures var l := After(Empty, RunsAndWaits(q, r), 4, t);
      r in l.pending && KeepsAsking(l, RunsAgain(q), r, t) && Weight(l, r, q) == 2 && TurnsEnded(l, RunsAgain(q), 2, q, t) == 2
  {
    hide Apply;
    var l, es := After(Empty, RunsAndWaits(q, r), 4, t), RunsAgain(q);
    InLineTwice(q, r, t);
    RunsAgainFrom(l, q, r, t);
    assert After(l, es, 0, t) == l;
    assert After(l, es, 1, t) == Apply(l, es[0], t);
    assert TurnsEnded(l, es, 1, q, t) == 1;
    assert StaysInLine(l, es[0], r, t) && StaysInLine(After(l, es, 1, t), es[1], r, t);
  }

  /** The rooms ahead of `r`, the running one included, only ever leave: none joins while `r` keeps asking. */
  ghost predicate IsAhead(l: Ledger, r: Room, q: Room)
    requires r in l.pending
  {
    q != r && Weight(l, r, q) > 0
  }

  lemma AheadNeverGains(l: Ledger, es: seq<Event>, r: Room, q: Room, k: nat, t: Timing)
    requires k <= |es| && r in l.pending && KeepsAsking(l, es, r, t)
    ensures r in After(l, es, k, t).pending
    ensures IsAhead(After(l, es, k, t), r, q) ==> IsAhead(l, r, q)
  {
    if q != r {
      BoundedOvertaking(l, es, r, q, k, t);
    } else if k > 0 {
      assert StaysInLine(After(l, es, k - 1, t), es[k - 1], r, t);
    }
  }

  /** And once nobody is ahead, the room's next claim is granted, unless the session is halted or held elsewhere. */
  lemma FrontIsGranted(l: Ledger, e: Event, r: Room, t: Timing)
    requires r in l.pending && l.pending[r].watcher in e.alive
    requires e.op.Claim? && !e.op.seen && e.op.room == r
    requires forall q :: !IsAhead(l, r, q)
    requires l.running.Some? ==> Over(l.running.value, e)
    ensures Grants(l, e, t) <==>
      l.halted.None? && (l.owned.None? || l.owned.value.until <= e.at)
  {
    var joined := Join(l, r, e.op.me, e.at, e.alive);
    if l.running.Some? {
      assert !IsAhead(l, r, l.running.value.room);
    }
    forall q | q in joined.pending && q != r ensures Before(joined.pending[r], r, joined.pending[q], q) {
      assert !IsAhead(l, r, q);
    }
  }
}
