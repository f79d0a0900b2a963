/**
 * The wakes of all rooms of one harness session: their watchers' iterations, the ledger they take turns by, and each room's
 * mailbox, as the loop in server/agent-watch.ts uses them together.
 *
 * An iteration looks at the mailbox (the gate), asks the ledger for the session, claims the mailbox, and dispatches; whatever it
 * finds in its way, it leaves the line or gives the turn back. Between its steps and those of others' the ledger and the
 * mailboxes change as SessionLedger and LiveRuns say.
 */
module SessionWakes {
  import opened Wrappers
  import W = WatchLoop
  import S = SessionLedger
  import T = SessionTurns
  import L = LiveLease
  import R = LiveRuns

  /** One room: what its watcher has on record, and its mailbox. */
  datatype Seat = Seat(state: W.State, mail: R.World)

  datatype Site = Site(ledger: S.Ledger, rooms: map<S.Room, Seat>)
  {
    function At(room: S.Room): Seat {
      if room in rooms then rooms[room] else Seat(W.EmptyState, R.Fresh(0))
    }

    function With(room: S.Room, seat: Seat): Site {
      this.(rooms := rooms[room := seat])
    }
  }

  /**
   * What an iteration meets. `gate` and `begin`: what the system answers at the look at the mailbox and at its claim; `asks`: the
   * ledger's lock is to be had, and `mailLocked`: the mailbox's isn't; `sawHalt`, `sawLine`: what it reads of the ledger before an
   * edit; `at`, `alive`: the clock and the living processes at its first edit, `later`, `aliveLater` at those after it.
   */
  datatype Meets = Meets(now: int, ready: bool, gate: L.System, work: bool, agentFull: bool, max: nat, asks: bool, sawHalt: bool,
    sawLine: bool, at: int, alive: set<S.Pid>, begin: L.System, mailLocked: bool, later: int, aliveLater: set<S.Pid>,
    untilMs: nat, started: int, cursor: nat, items: seq<W.Item>)

  datatype Event =
    | Iterates(room: S.Room, me: L.Process, m: Meets)
    /** The dispatched run is recorded, with the ledger and in the mailbox; it ends. */
    | RunStarts(room: S.Room, me: L.Process, run: L.Process, at: int, alive: set<S.Pid>, sys: L.System)
    | RunEnds(room: S.Room, me: L.Process, busy: bool, coordination: bool, at: int, alive: set<S.Pid>, sys: L.System)
    /** A step of the room's listeners, or the death of a process. */
    | Listens(room: S.Room, step: R.Step)
    /** Whatever else becomes of the room's record: a settlement, a restart, another binding. */
    | Becomes(room: S.Room, state: W.State)
    | Binds(at: int, alive: set<S.Pid>)

  // ---- One iteration ----

  function GateOf(seat: Seat, m: Meets): W.Gate {
    var hold := L.HoldOf(seat.mail.lease, m.gate);
    if hold.HeldAttached? || hold.HeldPickup? then W.LiveHolds
    else W.Clear(L.GateGives(seat.mail.lease, m.gate, seat.mail.cursor, seat.mail.actions))
  }

  function ClaimOf(room: S.Room, me: L.Process, m: Meets): T.Event {
    T.Event(T.Claim(room, me.pid, m.sawHalt), m.at, m.alive)
  }

  /** What the ledger answers an iteration that asks it. */
  ghost function AskedOf(ledger: S.Ledger, room: S.Room, me: L.Process, m: Meets, t: S.Timing): W.Asked {
    var claim := ClaimOf(room, me, m);
    if m.asks && T.Grants(ledger, claim, t) then W.Turn
    else if m.asks && !m.sawHalt && S.Decide(S.Join(ledger, room, me.pid, m.at, m.alive), room, m.at, t).HeldElsewhere? then W.HeldElsewhere
    else W.MustWait
  }

  function Gated(seat: Seat, m: Meets): R.World {
    R.Do(seat.mail, R.Gate(m.gate))
  }

  predicate BeginsWith(seat: Seat, m: Meets) {
    !m.mailLocked && L.MayBegin(Gated(seat, m).lease, m.begin)
  }

  ghost function LookOf(site: Site, room: S.Room, me: L.Process, m: Meets, t: S.Timing): W.Look {
    W.Look(m.now, m.ready, GateOf(site.At(room), m), m.work, m.agentFull, AskedOf(site.ledger, room, me, m, t),
           BeginsWith(site.At(room), m), m.started, m.cursor, m.items)
  }

  ghost function IterationOf(site: Site, room: S.Room, me: L.Process, m: Meets, t: S.Timing): W.Iteration {
    W.Iterate(site.At(room).state, m.max, LookOf(site, room, me, m, t))
  }

  /** It comes as far as asking for the session: only the ledger and the mailbox's claim can still stop it. */
  ghost predicate Comes(site: Site, room: S.Room, me: L.Process, m: Meets, t: S.Timing) {
    W.Iterate(site.At(room).state, m.max, LookOf(site, room, me, m, t).(asked := W.Turn, begin := true)).wakes
  }

  ghost predicate Dispatches(site: Site, e: Event, t: S.Timing) {
    e.Iterates? && Allowed(site, e, t) && IterationOf(site, e.room, e.me, e.m, t).wakes
  }

  /** The edits of the ledger an event makes, in order. */
  ghost function Edits(site: Site, e: Event, t: S.Timing): seq<T.Event> {
    match e
    case Iterates(room, me, m) =>
      var gives := T.Event(T.Release(room, me.pid, false, false), m.later, m.aliveLater);
      var leaves := T.Withdraw(room, m.sawLine);
      if !Comes(site, room, me, m, t) then [T.Event(leaves, m.at, m.alive)]
      else if !m.asks then []
      else if LookOf(site, room, me, m, t).asked != W.Turn || LookOf(site, room, me, m, t).begin then [ClaimOf(room, me, m)]
      else [ClaimOf(room, me, m), gives, T.Event(leaves, m.later, m.aliveLater)]
    case RunStarts(room, me, run, at, alive, _) => [T.Event(T.Started(room, me.pid, run.pid), at, alive)]
    case RunEnds(room, me, busy, coordination, at, alive, _) => [T.Event(T.Release(room, me.pid, busy, coordination), at, alive)]
    case Binds(at, alive) => [T.Event(T.ClearHalt, at, alive)]
    case _ => []
  }

  predicate OfListeners(step: R.Step) {
    !step.Gate? && !step.Begin? && !step.Started? && !step.End?
  }

  ghost function MailOf(site: Site, e: Event, t: S.Timing): R.World
    requires !e.Binds?
  {
    var seat := site.At(e.room);
    match e
    case Iterates(room, me, m) =>
      if seat.state.halted.Some? || !m.ready then seat.mail
      else if IterationOf(site, room, me, m, t).wakes then R.Do(Gated(seat, m), R.Begin(me, m.untilMs, m.begin))
      else Gated(seat, m)
    case RunStarts(_, _, run, _, _, sys) => R.Do(seat.mail, R.Started(run, sys))
    case RunEnds(_, _, _, _, _, _, sys) => R.Do(seat.mail, R.End(sys))
    case Listens(_, step) => R.Do(seat.mail, step)
    case _ => seat.mail
  }

  /** What the system answers is true, and the watcher begins no wake while an earlier one of the room's is still going. */
  ghost predicate Allowed(site: Site, e: Event, t: S.Timing) {
    match e
    case Iterates(room, me, m) =>
      && R.Enabled(site.At(room).mail, R.Gate(m.gate))
      && (IterationOf(site, room, me, m, t).wakes ==> R.Enabled(Gated(site.At(room), m), R.Begin(me, m.untilMs, m.begin)))
    case Listens(_, step) => OfListeners(step)
    case _ => true
  }

  ghost function Edited(l: S.Ledger, edits: seq<T.Event>, t: S.Timing): S.Ledger {
    T.After(l, edits, |edits|, t)
  }

  ghost function Do(site: Site, e: Event, t: S.Timing): Site {
    if !Allowed(site, e, t) then site
    else
      var edited := site.(ledger := Edited(site.ledger, Edits(site, e, t), t));
      match e
      case Binds(_, _) => edited
      case Becomes(room, state) => edited.With(room, site.At(room).(state := state))
      case Iterates(room, me, m) => edited.With(room, Seat(IterationOf(site, room, me, m, t).state, MailOf(site, e, t)))
      case _ => edited.With(e.room, site.At(e.room).(mail := MailOf(site, e, t)))
  }

  ghost function Reach(site: Site, es: seq<Event>, k: nat, t: S.Timing): Site
    requires k <= |es|
  {
    if k == 0 then site else Do(Reach(site, es, k - 1, t), es[k - 1], t)
  }

  const Start := Site(S.Empty, map[])

  // ---- When a wake is dispatched ----

  /** A live session holds the room's mailbox: its listener is there, or what it returned is being handled. */
  predicate LiveHas(mail: R.World, sys: L.System) {
    mail.lease.Some? && (L.ListenerThere(mail.lease.value, sys) || L.WindowOpen(mail.lease.value, sys))
  }

  lemma MayBeginUnlessLive(mail: R.World, sys: L.System)
    ensures L.MayBegin(mail.lease, sys) <==> !LiveHas(mail, sys)
    ensures L.MayBegin(mail.lease, sys) <==> !L.HoldOf(mail.lease, sys).HeldAttached? && !L.HoldOf(mail.lease, sys).HeldPickup?
  {
    if mail.lease.Some? {
      L.DecisionsExactly(mail.lease.value, mail.lease.value.holder, sys, 0, 0);
    } else {
      L.NoLeaseHoldsNothing(L.Process(0, 0), sys, 0, 0);
    }
  }

  /** Nothing about the room itself is in the way of a wake: its record, its caps, its work. */
  ghost predicate RoomWakes(s: W.State, m: Meets) {
    && s.halted.None? && m.ready && m.work && (s.backoffUntil.None? || s.backoffUntil.value <= m.now)
    && |W.InHour(s.wakes, m.now)| < m.max && !m.agentFull
  }

  /** The session is the room's to take: neither halted nor owned, no other turn stands, and nobody asking is ahead. */
  ghost predicate SessionFree(l: S.Ledger, claim: T.Event, t: S.Timing)
    requires claim.op.Claim?
  {
    && !claim.op.seen && l.halted.None? && T.Unowned(l, claim.at) && T.Foremost(l, claim, t)
    && (l.running.Some? ==> T.Over(l.running.value, claim))
  }

  /**
   * An iteration dispatches a wake exactly if the room has work it may wake for, no live session has its mailbox at the look before
   * or at the claim, and the session is its to take.
   */
  lemma DispatchesExactly(site: Site, e: Event, t: S.Timing)
    requires e.Iterates? && Allowed(site, e, t)
    ensures var seat := site.At(e.room);
      Dispatches(site, e, t) <==>
        && RoomWakes(seat.state, e.m)
        && !LiveHas(seat.mail, e.m.gate) && !LiveHas(Gated(seat, e.m), e.m.begin) && !e.m.mailLocked
        && e.m.asks && SessionFree(site.ledger, ClaimOf(e.room, e.me, e.m), t)
  {
    hide W.Iterate, T.Grants, S.Decide, L.HoldOf, L.MayBegin, R.Do, R.Enabled, LiveHas, W.InHour, S.Join;
    var seat := site.At(e.room);
    W.DispatchesExactly(seat.state, e.m.max, LookOf(site, e.room, e.me, e.m, t));
    T.GrantsExactly(site.ledger, ClaimOf(e.room, e.me, e.m), t);
    MayBeginUnlessLive(seat.mail, e.m.gate);
    MayBeginUnlessLive(Gated(seat, e.m), e.m.begin);
  }

  lemma DispatchEdits(site: Site, e: Event, t: S.Timing)
    requires Dispatches(site, e, t)
    ensures Edits(site, e, t) == [ClaimOf(e.room, e.me, e.m)] && T.Grants(site.ledger, ClaimOf(e.room, e.me, e.m), t)
    ensures Do(site, e, t).ledger == T.Apply(site.ledger, ClaimOf(e.room, e.me, e.m), t)
  {
    hide T.Grants, S.Decide, L.HoldOf, L.MayBegin, R.Do, R.Enabled, W.InHour, S.Join, T.Apply;
    var seat, look := site.At(e.room), LookOf(site, e.room, e.me, e.m, t);
    W.DispatchesExactly(seat.state, e.m.max, look);
    W.DispatchesExactly(seat.state, e.m.max, look.(asked := W.Turn, begin := true));
    assert T.After(site.ledger, Edits(site, e, t), 0, t) == site.ledger;
  }

  /**
   * An iteration that dispatches nothing takes no turn, or gives back the one it was granted: what runs in the session afterwards
   * ran before it. One that stands aside leaves the line.
   */
  lemma NoWakeKeepsNoTurn(site: Site, e: Event, t: S.Timing)
    requires e.Iterates? && Allowed(site, e, t) && !Dispatches(site, e, t)
    ensures var before, after := site.ledger.running, Do(site, e, t).ledger.running;
      after.Some? ==> before.Some? && T.SameTurn(after.value, before.value)
    ensures !Comes(site, e.room, e.me, e.m, t) && e.m.sawLine ==> e.room !in Do(site, e, t).ledger.pending
  {
    hide W.Iterate, L.HoldOf, L.MayBegin, R.Do, R.Enabled, W.InHour, AskedOf, T.Grants, T.Apply;
    var look := LookOf(site, e.room, e.me, e.m, t);
    W.DispatchesExactly(site.At(e.room).state, e.m.max, look);
    W.DispatchesExactly(site.At(e.room).state, e.m.max, look.(asked := W.Turn, begin := true));
    EditsLeaveNoTurn(site.ledger, Edits(site, e, t), e, AskedOf(site.ledger, e.room, e.me, e.m, t), t);
  }

  lemma EditsLeaveNoTurn(l: S.Ledger, edits: seq<T.Event>, e: Event, asked: W.Asked, t: S.Timing)
    requires e.Iterates? && asked == AskedOf(l, e.room, e.me, e.m, t)
    requires var m := e.m; var claim := ClaimOf(e.room, e.me, m);
      var leaves := T.Withdraw(e.room, m.sawLine);
      || edits == [T.Event(leaves, m.at, m.alive)]
      || (edits == [] && !m.asks)
      || (m.asks && asked != W.Turn && edits == [claim])
      || (m.asks && edits == [claim, T.Event(T.Release(e.room, e.me.pid, false, false), m.later, m.aliveLater),
                              T.Event(leaves, m.later, m.aliveLater)])
    ensures Edited(l, edits, t).running.Some? ==> l.running.Some? && T.SameTurn(Edited(l, edits, t).running.value, l.running.value)
    ensures edits != [] && edits[0].op.Withdraw? && e.m.sawLine ==> e.room !in Edited(l, edits, t).pending
  {
    if edits != [] {
      var l1 := T.Apply(l, edits[0], t);
      assert T.After(l, edits, 0, t) == l && T.After(l, edits, 1, t) == l1;
      if |edits| == 3 {
        var l2 := T.Apply(l1, edits[1], t);
        assert T.After(l, edits, 2, t) == l2 && T.After(l, edits, 3, t) == T.Apply(l2, edits[2], t);
      }
    }
  }

  /** The room's mailbox has one consumer, in every room. */
  ghost predicate OneConsumerEach(site: Site) {
    forall room :: R.OneConsumer(site.At(room).mail)
  }

  /**
   * With a dispatch the session's turn is the room's own, held from that moment on, its mailbox is claimed for the wake, and no
   * listener of it lives.
   */
  lemma WakeHasTheTurn(site: Site, e: Event, t: S.Timing)
    requires OneConsumerEach(site) && Dispatches(site, e, t)
    ensures var after := Do(site, e, t);
      && after.ledger.running.Some? && S.IsTurnOf(after.ledger.running, e.room, e.me.pid)
      && after.ledger.running.value.startedAt == e.m.at && after.ledger.running.value.until == e.m.at + t.holdMs
      && L.ClaimOf(after.At(e.room).mail.lease, e.me.pid)
      && (forall l :: l in after.At(e.room).mail.listening ==> l in after.At(e.room).mail.gone)
      && after.At(e.room).state.offer.Some? && after.At(e.room).state.offer.value.items == e.m.items
  {
    hide W.Iterate, T.Grants, S.Decide, L.HoldOf, L.MayBegin, R.Enabled, W.InHour, S.Join, T.Apply, R.Do, R.OneConsumer;
    var look := LookOf(site, e.room, e.me, e.m, t);
    DispatchEdits(site, e, t);
    T.GrantsExactly(site.ledger, ClaimOf(e.room, e.me, e.m), t);
    W.DispatchIsRecorded(site.At(e.room).state, e.m.max, look);
    W.DispatchesExactly(site.At(e.room).state, e.m.max, look);
    BegunHasMailbox(site.At(e.room), e.me, e.m);
  }

  lemma BegunHasMailbox(seat: Seat, me: L.Process, m: Meets)
    requires R.OneConsumer(seat.mail) && BeginsWith(seat, m) && R.Enabled(Gated(seat, m), R.Begin(me, m.untilMs, m.begin))
    ensures var after := R.Do(Gated(seat, m), R.Begin(me, m.untilMs, m.begin));
      L.ClaimOf(after.lease, me.pid) && forall l :: l in after.listening ==> l in after.gone
  {
    R.StepKeepsOneConsumer(seat.mail, R.Gate(m.gate));
    var gated := Gated(seat, m);
    forall l | l in gated.listening ensures l in gated.gone {
      if l !in gated.gone { R.ListenerHolds(gated, m.begin, l); }
    }
  }

  // ---- Over whole runs ----

  lemma EventKeepsConsumers(site: Site, e: Event, t: S.Timing)
    requires OneConsumerEach(site)
    ensures OneConsumerEach(Do(site, e, t))
  {
    hide R.OneConsumer, R.Do, R.Enabled, IterationOf, Edits, Edited, MailOf, Allowed;
    if Allowed(site, e, t) && !e.Binds? {
      MailKeepsConsumer(site, e, t);
      forall room ensures R.OneConsumer(Do(site, e, t).At(room).mail) {
        assert R.OneConsumer(site.At(room).mail);
      }
    } else {
      assert forall room :: Do(site, e, t).At(room) == site.At(room);
    }
  }

  lemma MailKeepsConsumer(site: Site, e: Event, t: S.Timing)
    requires OneConsumerEach(site) && !e.Binds?
    ensures R.OneConsumer(MailOf(site, e, t))
  {
    hide R.OneConsumer, R.Do, R.Enabled, IterationOf;
    var seat := site.At(e.room);
    assert R.OneConsumer(seat.mail);
    match e
    case Iterates(_, me, m) =>
      R.StepKeepsOneConsumer(seat.mail, R.Gate(m.gate));
      R.StepKeepsOneConsumer(Gated(seat, m), R.Begin(me, m.untilMs, m.begin));
    case RunStarts(_, _, run, _, _, sys) => R.StepKeepsOneConsumer(seat.mail, R.Started(run, sys));
    case RunEnds(_, _, _, _, _, _, sys) => R.StepKeepsOneConsumer(seat.mail, R.End(sys));
    case Listens(_, step) => R.StepKeepsOneConsumer(seat.mail, step);
    case _ =>
  }

  lemma {:induction false} ConsumersStayOne(es: seq<Event>, k: nat, t: S.Timing)
    requires k <= |es|
    ensures OneConsumerEach(Reach(Start, es, k, t))
    decreases k
  {
    hide Do;
    if k > 0 {
      ConsumersStayOne(es, k - 1, t);
      EventKeepsConsumers(Reach(Start, es, k - 1, t), es[k - 1], t);
    }
  }

  /** One of the event's edits finds this turn running and over. */
  ghost predicate EndsTurn(site: Site, e: Event, turn: S.Turn, t: S.Timing) {
    Allowed(site, e, t) && exists n :: 0 <= n < |Edits(site, e, t)| && OverAtEdit(site.ledger, Edits(site, e, t), n, turn, t)
  }

  ghost predicate OverAtEdit(l: S.Ledger, edits: seq<T.Event>, n: nat, turn: S.Turn, t: S.Timing)
    requires n < |edits|
  {
    var running := T.After(l, edits, n, t).running;
    running.Some? && T.SameTurn(running.value, turn) && T.Over(running.value, edits[n])
  }

  lemma {:induction false} TurnStandsThrough(l: S.Ledger, edits: seq<T.Event>, k: nat, turn: S.Turn, t: S.Timing)
    requires k <= |edits| && l.running.Some? && T.SameTurn(l.running.value, turn)
    requires forall n :: 0 <= n < k ==> !OverAtEdit(l, edits, n, turn, t)
    ensures T.After(l, edits, k, t).running.Some? && T.SameTurn(T.After(l, edits, k, t).running.value, turn)
    decreases k
  {
    hide T.Apply, T.Over;
    if k > 0 {
      TurnStandsThrough(l, edits, k - 1, turn, t);
      assert !OverAtEdit(l, edits, k - 1, turn, t);
      T.TurnStands(T.After(l, edits, k - 1, t), edits[k - 1], t);
    }
  }

  lemma {:induction false} TurnStandsOn(site: Site, es: seq<Event>, i: nat, j: nat, t: S.Timing)
    requires i < j <= |es| && OneConsumerEach(Reach(site, es, i, t)) && Dispatches(Reach(site, es, i, t), es[i], t)
    requires var turn := Reach(site, es, i + 1, t).ledger.running;
      turn.Some? ==> forall k :: i < k < j ==> !EndsTurn(Reach(site, es, k, t), es[k], turn.value, t)
    ensures var turn, running := Reach(site, es, i + 1, t).ledger.running, Reach(site, es, j, t).ledger.running;
      turn.Some? && running.Some? && T.SameTurn(running.value, turn.value)
    decreases j
  {
    hide Do, Edits, Allowed, EndsTurn, Dispatches, OneConsumerEach;
    WakeHasTheTurn(Reach(site, es, i, t), es[i], t);
    if j > i + 1 {
      TurnStandsOn(site, es, i, j - 1, t);
      var turn := Reach(site, es, i + 1, t).ledger.running.value;
      assert !EndsTurn(Reach(site, es, j - 1, t), es[j - 1], turn, t);
      EventLeavesTurn(Reach(site, es, j - 1, t), es[j - 1], turn, t);
    }
  }

  lemma EventLeavesTurn(site: Site, e: Event, turn: S.Turn, t: S.Timing)
    requires site.ledger.running.Some? && T.SameTurn(site.ledger.running.value, turn) && !EndsTurn(site, e, turn, t)
    ensures Do(site, e, t).ledger.running.Some? && T.SameTurn(Do(site, e, t).ledger.running.value, turn)
  {
    hide Edits, Allowed, T.After, OverAtEdit, IterationOf, MailOf;
    if Allowed(site, e, t) {
      TurnStandsThrough(site.ledger, Edits(site, e, t), |Edits(site, e, t)|, turn, t);
    }
  }

  /**
   * Over every run of any rooms' watchers, runs, listeners, deaths and bindings: between two dispatches, of one room or of two, the
   * first one's turn was over at an edit of some event after it, at the latest at the second one's own claim. So no wake is
   * dispatched while another's turn stands.
   */
  lemma WakesTakeTurns(es: seq<Event>, i: nat, j: nat, t: S.Timing)
    requires i < j < |es| && Dispatches(Reach(Start, es, i, t), es[i], t) && Dispatches(Reach(Start, es, j, t), es[j], t)
    ensures var turn := Reach(Start, es, i + 1, t).ledger.running;
      && turn.Some? && S.IsTurnOf(turn, es[i].room, es[i].me.pid)
      && exists k :: i < k <= j && EndsTurn(Reach(Start, es, k, t), es[k], turn.value, t)
  {
    hide Do, Edits, EndsTurn, Dispatches, OneConsumerEach;
    ConsumersStayOne(es, i, t);
    WakeHasTheTurn(Reach(Start, es, i, t), es[i], t);
    var turn := Reach(Start, es, i + 1, t).ledger.running.value;
    if forall k :: i < k < j ==> !EndsTurn(Reach(Start, es, k, t), es[k], turn, t) {
      TurnStandsOn(Start, es, i, j, t);
      ClaimFindsItOver(Reach(Start, es, j, t), es[j], turn, t);
    }
  }

  lemma ClaimFindsItOver(site: Site, e: Event, turn: S.Turn, t: S.Timing)
    requires Dispatches(site, e, t) && site.ledger.running.Some? && T.SameTurn(site.ledger.running.value, turn)
    ensures EndsTurn(site, e, turn, t)
  {
    hide Edits, T.Grants, T.Apply, IterationOf;
    DispatchEdits(site, e, t);
    T.GrantsExactly(site.ledger, ClaimOf(e.room, e.me, e.m), t);
    assert OverAtEdit(site.ledger, Edits(site, e, t), 0, turn, t);
  }

  /** And in no run is one dispatched beside a living listener of its room. */
  lemma WakesNeverBesideAListener(es: seq<Event>, j: nat, t: S.Timing)
    requires j < |es| && Dispatches(Reach(Start, es, j, t), es[j], t)
    ensures var mail := Reach(Start, es, j + 1, t).At(es[j].room).mail;
      L.ClaimOf(mail.lease, es[j].me.pid) && forall l :: l in mail.listening ==> l in mail.gone
  {
    hide Do, Dispatches;
    ConsumersStayOne(es, j, t);
    WakeHasTheTurn(Reach(Start, es, j, t), es[j], t);
  }
}
