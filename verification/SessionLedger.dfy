/**
 * One harness session's wakes across every room bound to it: `sessionLedger` in server/agent-watch.ts.
 *
 * The ledger is one small file changed only under its lock, so each `edit` is atomic. Every edit first drops the rooms
 * whose watcher is gone and the turn whose time or whose processes are over; `alive` is what the process checks of that
 * edit answered. Rooms are compared as the source compares their ids, by a total order.
 */
module SessionLedger {
  import opened Wrappers

  type Room = nat
  type Pid = nat

  datatype Entry = Entry(since: int, seenAt: int, watcher: Pid)
  datatype Turn = Turn(room: Room, since: int, watcher: Pid, run: Option<Pid>, startedAt: int, until: int)
  datatype Owned = Owned(who: Room, until: int)
  datatype Ledger = Ledger(pending: map<Room, Entry>, running: Option<Turn>, owned: Option<Owned>, halted: Option<Room>)
  datatype Timing = Timing(holdMs: nat, ownedMs: nat, freshMs: nat)

  datatype Answer =
    | Granted
    | Halted(who: Room)
    | Running(room: Room, until: int)
    | HeldElsewhere(who: Room, until: int)
    | Queued

  const Empty := Ledger(map[], None, None, None)

  predicate TurnLives(turn: Turn, alive: set<Pid>) {
    turn.watcher in alive || (turn.run.Some? && turn.run.value in alive)
  }

  predicate IsTurnOf(running: Option<Turn>, room: Room, me: Pid) {
    running.Some? && running.value.room == room && running.value.watcher == me
  }

  /** What every edit does first. */
  function Clean(l: Ledger, at: int, alive: set<Pid>): Ledger {
    l.(pending := map r | r in l.pending && l.pending[r].watcher in alive :: l.pending[r],
       running := if l.running.Some? && (l.running.value.until <= at || !TurnLives(l.running.value, alive)) then None else l.running,
       owned := if l.owned.Some? && l.owned.value.until <= at then None else l.owned)
  }

  predicate Before(x: Entry, a: Room, y: Entry, b: Room) {
    x.since < y.since || (x.since == y.since && a < b)
  }

  predicate IsFresh(e: Entry, at: int, t: Timing) {
    at - e.seenAt <= t.freshMs
  }

  /** The first in line among the rooms whose watchers are asking now. */
  ghost predicate Leads(room: Room, pending: map<Room, Entry>, at: int, t: Timing) {
    && room in pending && IsFresh(pending[room], at, t)
    && forall q :: q in pending && IsFresh(pending[q], at, t) && q != room ==> Before(pending[room], room, pending[q], q)
  }

  /** A claim as far as the decision: its own unreleased turn is over, and the room is in line. */
  function Join(l: Ledger, room: Room, me: Pid, at: int, alive: set<Pid>): Ledger {
    var c := Clean(l, at, alive);
    var since := if room in c.pending then c.pending[room].since else at;
    c.(running := if IsTurnOf(c.running, room, me) then None else c.running,
       pending := c.pending[room := Entry(since, at, me)])
  }

  ghost function Decide(joined: Ledger, room: Room, at: int, t: Timing): Answer {
    if joined.halted.Some? then Halted(joined.halted.value)
    else if joined.running.Some? then Running(joined.running.value.room, joined.running.value.until)
    else if joined.owned.Some? then HeldElsewhere(joined.owned.value.who, joined.owned.value.until)
    else if !Leads(room, joined.pending, at, t) then Queued
    else Granted
  }

  function Grant(joined: Ledger, room: Room, me: Pid, at: int, t: Timing): Ledger
    requires room in joined.pending
  {
    joined.(pending := joined.pending - {room},
            running := Some(Turn(room, joined.pending[room].since, me, None, at, at + t.holdMs)))
  }

  function Start(l: Ledger, room: Room, me: Pid, run: Pid, at: int, alive: set<Pid>): Ledger {
    var c := Clean(l, at, alive);
    if IsTurnOf(c.running, room, me) then c.(running := Some(c.running.value.(run := Some(run)))) else c
  }

  /** The end of a turn: refused because the session is held elsewhere (`busy`), broken (`coordination`), or done. */
  function End(l: Ledger, room: Room, me: Pid, busy: bool, coordination: bool, at: int, alive: set<Pid>, t: Timing): Ledger {
    var c := Clean(l, at, alive);
    if !IsTurnOf(c.running, room, me) then c else
      var ended := c.(running := None,
        owned := if busy then Some(Owned(room, at + t.ownedMs)) else None,
        pending := if busy then c.pending[room := Entry(c.running.value.since, at, me)] else c.pending);
      if coordination then ended.(halted := Some(room)) else ended
  }

  /** `seen`: a look before the edit found the room in line. It may have been dropped since; the edit is made all the same. */
  function Leave(l: Ledger, room: Room, seen: bool, at: int, alive: set<Pid>): Ledger {
    if !seen then l else
      var c := Clean(l, at, alive);
      c.(pending := c.pending - {room})
  }

  function Clear(l: Ledger, at: int, alive: set<Pid>): Ledger {
    Clean(l, at, alive).(halted := None, owned := None)
  }

  // ---- The ledger as the source's object: the record's fields, edited in place ----

  class Book {
    var pending: map<Room, Entry>
    var running: Option<Turn>
    var owned: Option<Owned>
    var halted: Option<Room>

    function View(): Ledger
      reads this
    {
      Ledger(pending, running, owned, halted)
    }

    constructor ()
      ensures View() == Empty
    {
      pending, running, owned, halted := map[], None, None, None;
    }

    /** The start of every `edit`. */
    method Tidy(at: int, alive: set<Pid>)
      modifies this
      ensures View() == Clean(old(View()), at, alive)
    {
      var left, was := pending.Keys, pending;
      while left != {}
        invariant left <= was.Keys
        invariant pending == map r | r in was && (r in left || was[r].watcher in alive) :: was[r]
        invariant running == old(running) && owned == old(owned) && halted == old(halted)
        decreases |left|
      {
        var r :| r in left;
        if was[r].watcher !in alive {
          pending := pending - {r};
        }
        left := left - {r};
      }
      if running.Some? && (running.value.until <= at || !TurnLives(running.value, alive)) {
        running := None;
      }
      if owned.Some? && owned.value.until <= at {
        owned := None;
      }
    }

    /** The room asking now that joined first: the head of the sorted line. */
    method FirstInLine(at: int, t: Timing) returns (first: Option<Room>)
      ensures first.Some? ==> Leads(first.value, pending, at, t)
      ensures first.None? ==> forall q :: q in pending ==> !IsFresh(pending[q], at, t)
    {
      var left := pending.Keys;
      first := None;
      while left != {}
        invariant left <= pending.Keys
        invariant first.Some? ==> first.value in pending && first.value !in left && IsFresh(pending[first.value], at, t)
        invariant forall q :: q in pending && q !in left && IsFresh(pending[q], at, t) ==>
          first.Some? && (q == first.value || Before(pending[first.value], first.value, pending[q], q))
        decreases |left|
      {
        var r :| r in left;
        if IsFresh(pending[r], at, t) && (first.None? || Before(pending[r], r, pending[first.value], first.value)) {
          first := Some(r);
        }
        left := left - {r};
      }
    }

    /**
     * `claim`: a halted ledger is answered without an edit; otherwise the room joins the line, and gets the session when
     * nothing else has it and it leads. `first` is whom a queued room waits for.
     */
    method Claim(room: Room, me: Pid, seen: Option<Room>, at: int, alive: set<Pid>, t: Timing) returns (answer: Answer, first: Option<Room>)
      modifies this
      ensures seen.Some? ==> answer == Halted(seen.value) && View() == old(View())
      ensures seen.None? ==>
        var joined := Join(old(View()), room, me, at, alive);
        && answer == Decide(joined, room, at, t)
        && View() == (if answer.Granted? then Grant(joined, room, me, at, t) else joined)
        && (answer.Queued? ==> first.Some? && first.value != room && Leads(first.value, pending, at, t))
    {
      first := None;
      if seen.Some? {
        return Halted(seen.value), None;
      }
      Tidy(at, alive);
      if IsTurnOf(running, room, me) {
        running := None;
      }
      pending := pending[room := Entry(if room in pending then pending[room].since else at, at, me)];
      if halted.Some? {
        return Halted(halted.value), None;
      }
      if running.Some? {
        return Running(running.value.room, running.value.until), None;
      }
      if owned.Some? {
        return HeldElsewhere(owned.value.who, owned.value.until), None;
      }
      first := FirstInLine(at, t);
      assert IsFresh(pending[room], at, t);
      if first != Some(room) {
        return Queued, first;
      }
      var since := pending[room].since;
      pending := pending - {room};
      running := Some(Turn(room, since, me, None, at, at + t.holdMs));
      return Granted, None;
    }

    method Started(room: Room, me: Pid, run: Pid, at: int, alive: set<Pid>)
      modifies this
      ensures View() == Start(old(View()), room, me, run, at, alive)
    {
      Tidy(at, alive);
      if IsTurnOf(running, room, me) {
        running := Some(running.value.(run := Some(run)));
      }
    }

    method Release(room: Room, me: Pid, busy: bool, coordination: bool, at: int, alive: set<Pid>, t: Timing)
      modifies this
      ensures View() == End(old(View()), room, me, busy, coordination, at, alive, t)
    {
      Tidy(at, alive);
      if !IsTurnOf(running, room, me) {
        return;
      }
      var turn := running.value;
      running := None;
      if busy {
        owned := Some(Owned(room, at + t.ownedMs));
        pending := pending[room := Entry(turn.since, at, me)];
      } else {
        owned := None;
      }
      if coordination {
        halted := Some(room);
      }
    }

    method Withdraw(room: Room, seen: bool, at: int, alive: set<Pid>)
      modifies this
      ensures View() == Leave(old(View()), room, seen, at, alive)
    {
      if seen {
        Tidy(at, alive);
        pending := pending - {room};
      }
    }

    method ClearHalt(at: int, alive: set<Pid>)
      modifies this
      ensures View() == Clear(old(View()), at, alive)
    {
      Tidy(at, alive);
      halted := None;
      owned := None;
    }
  }
}
