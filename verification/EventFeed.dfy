/**
 * The local API's event feed: `EventFeed.push` and `EventFeed.since` in server/local-api.ts, and what a client that follows
 * its cursors is told.
 *
 * What the events say, and how `poll` finds them in the rooms' files, are inputs; so is what arrives while a request waits.
 */
module EventFeed {
  import opened Wrappers

  type Body = nat
  type Epoch = nat

  const KEPT_EVENTS := 1_000
  const BATCH := 200
  const MAX_WAITERS_PER_TOKEN := 4
  const MAX_WAITERS := 32

  datatype Event = Event(num: nat, body: Body)
  datatype Cursor = Cursor(epoch: Epoch, num: nat)

  datatype Feed = Feed(epoch: Epoch, num: nat, events: seq<Event>)

  /** The cursor a request names: none, something that isn't one, or one. */
  datatype Asked = Nothing | Garbled | At(cursor: Cursor)

  /** `held`, `waiting`: the long polls that wait now, this holder's and all. */
  datatype Request = Request(after: Asked, waits: bool, aborted: bool, held: nat, waiting: nat)

  datatype Answer = Batch(cursor: Cursor, events: seq<Event>, reset: bool) | Refused(status: nat)

  function Pushed(f: Feed, body: Body): Feed {
    var made := f.events + [Event(f.num + 1, body)];
    Feed(f.epoch, f.num + 1, if |made| > KEPT_EVENTS then made[|made| - KEPT_EVENTS..] else made)
  }

  function PushedAll(f: Feed, bodies: seq<Body>): Feed
    decreases |bodies|
  {
    if bodies == [] then f else Pushed(PushedAll(f, bodies[..|bodies| - 1]), bodies[|bodies| - 1])
  }

  /** The events numbered after `n`. */
  function After(events: seq<Event>, n: nat): seq<Event> {
    if events == [] then []
    else
      var last := events[|events| - 1];
      After(events[..|events| - 1], n) + (if last.num > n then [last] else [])
  }

  function Taken(f: Feed, n: nat): seq<Event> {
    var found := After(f.events, n);
    if |found| > BATCH then found[..BATCH] else found
  }

  /** A cursor of another daemon, from the future, or older than the events kept. */
  predicate Stale(f: Feed, c: Cursor) {
    || c.epoch != f.epoch || c.num > f.num
    || (f.events != [] && c.num + 1 < f.events[0].num) || (f.events == [] && c.num < f.num)
  }

  /** The request waits for events: there are none yet, and it may. */
  predicate Waits(f: Feed, r: Request) {
    && r.after.At? && !Stale(f, r.after.cursor) && Taken(f, r.after.cursor.num) == []
    && r.waits && !r.aborted && r.held < MAX_WAITERS_PER_TOKEN && r.waiting < MAX_WAITERS
  }

  function FeedAfter(f: Feed, r: Request, arrivals: seq<Body>): Feed {
    if Waits(f, r) then PushedAll(f, arrivals) else f
  }

  function Since(f: Feed, r: Request, arrivals: seq<Body>): Answer {
    match r.after
    case Nothing => Batch(Cursor(f.epoch, f.num), [], false)
    case Garbled => Refused(400)
    case At(c) =>
      if Stale(f, c) then Batch(Cursor(f.epoch, f.num), [], true)
      else if Taken(f, c.num) == [] && r.waits && r.aborted then Batch(c, [], false)
      else if Taken(f, c.num) == [] && r.waits && !Waits(f, r) then Refused(429)
      else
        var events := Taken(FeedAfter(f, r, arrivals), c.num);
        Batch(if events == [] then c else Cursor(f.epoch, events[|events| - 1].num), events, false)
  }

  // ---- What the feed holds of everything pushed ----

  /** The feed keeps the last of what was pushed, numbered in a row up to the feed's number. */
  ghost predicate Keeps(f: Feed, log: seq<Body>) {
    && |log| == f.num
    && |f.events| == (if f.num < KEPT_EVENTS then f.num else KEPT_EVENTS)
    && forall i :: 0 <= i < |f.events| ==> f.events[i] == Event(f.num - |f.events| + 1 + i, log[f.num - |f.events| + i])
  }

  /** The events numbered after `from`, up to `to`, of everything pushed. */
  function Between(log: seq<Body>, from: nat, to: nat): seq<Event>
    requires from <= to <= |log|
  {
    seq(to - from, i requires 0 <= i < to - from => Event(from + 1 + i, log[from + i]))
  }

  lemma PushKeeps(f: Feed, log: seq<Body>, body: Body)
    requires Keeps(f, log)
    ensures Keeps(Pushed(f, body), log + [body]) && Pushed(f, body).epoch == f.epoch
  {
    var g, made := Pushed(f, body), f.events + [Event(f.num + 1, body)];
    var cut := if |made| > KEPT_EVENTS then |made| - KEPT_EVENTS else 0;
    assert g.events == made[cut..];
    forall i | 0 <= i < |g.events|
      ensures g.events[i] == Event(g.num - |g.events| + 1 + i, (log + [body])[g.num - |g.events| + i])
    {
      if cut + i < |f.events| {
        assert g.events[i] == f.events[cut + i];
      } else {
        assert g.events[i] == Event(f.num + 1, body);
      }
    }
  }

  lemma {:induction false} PushesKeep(f: Feed, log: seq<Body>, bodies: seq<Body>)
    requires Keeps(f, log)
    ensures Keeps(PushedAll(f, bodies), log + bodies) && PushedAll(f, bodies).epoch == f.epoch
    decreases |bodies|
  {
    hide Keeps, Pushed;
    if bodies == [] {
      assert log + bodies == log;
    } else {
      var most, last := bodies[..|bodies| - 1], bodies[|bodies| - 1];
      PushesKeep(f, log, most);
      PushKeeps(PushedAll(f, most), log + most, last);
      assert log + bodies == log + most + [last];
    }
  }

  /** Of events numbered in a row, those after `n` are the rest of them. */
  lemma {:induction false} AfterIsTheRest(events: seq<Event>, log: seq<Body>, from: nat, n: nat)
    requires from + |events| <= |log| && events == Between(log, from, from + |events|)
    ensures After(events, n) == Between(log, if n < from then from else if n < from + |events| then n else from + |events|, from + |events|)
    decreases |events|
  {
    if events != [] {
      var most := events[..|events| - 1];
      assert most == Between(log, from, from + |most|);
      AfterIsTheRest(most, log, from, n);
    }
  }

  /** What a request takes after `n`: the next events in a row, from the oldest kept if `n` is older, at most a batch of them. */
  lemma TakenIsNext(f: Feed, log: seq<Body>, n: nat)
    requires Keeps(f, log) && n <= f.num
    ensures var oldest := f.num - |f.events|;
      var from := if n < oldest then oldest else n;
      Taken(f, n) == Between(log, from, if f.num - from > 200 then from + 200 else f.num)
  {
    var oldest := f.num - |f.events|;
    assert f.events == Between(log, oldest, oldest + |f.events|);
    AfterIsTheRest(f.events, log, oldest, n);
  }

  /** A cursor is stale exactly when it is another daemon's, from the future, or events after it were dropped. */
  lemma StaleMeansDropped(f: Feed, log: seq<Body>, c: Cursor)
    requires Keeps(f, log)
    ensures Stale(f, c) <==> c.epoch != f.epoch || c.num > f.num || f.num - c.num > 1_000
  {
  }

  /** A request only waits when its cursor is up to date. */
  lemma WaitsAtTheEnd(f: Feed, log: seq<Body>, r: Request)
    requires Keeps(f, log) && Waits(f, r)
    ensures r.after.cursor == Cursor(f.epoch, f.num)
  {
    TakenIsNext(f, log, r.after.cursor.num);
  }

  /** The answer goes on from the cursor: every event after it up to the new one, in order. */
  ghost predicate GoesOn(a: Answer, c: Cursor, log: seq<Body>) {
    && a.Batch? && a.cursor.epoch == c.epoch && c.num <= a.cursor.num <= |log|
    && a.events == Between(log, c.num, a.cursor.num)
  }

  lemma WaitGoesOn(f: Feed, log: seq<Body>, r: Request, arrivals: seq<Body>)
    requires Keeps(f, log) && Waits(f, r) && |arrivals| <= KEPT_EVENTS
    ensures GoesOn(Since(f, r, arrivals), r.after.cursor, log + arrivals)
  {
    WaitsAtTheEnd(f, log, r);
    PushesKeep(f, log, arrivals);
    TakenIsNext(PushedAll(f, arrivals), log + arrivals, r.after.cursor.num);
  }

  /** A flood during a wait: the answer begins with the oldest event kept, and says no reset. */
  lemma FloodGoesNotOn(f: Feed, log: seq<Body>, r: Request, arrivals: seq<Body>)
    requires Keeps(f, log) && Waits(f, r) && |arrivals| > KEPT_EVENTS
    ensures var a := Since(f, r, arrivals);
      && a.Batch? && !a.reset && |a.events| == BATCH
      && a.events[0].num == r.after.cursor.num + 1 + (|arrivals| - KEPT_EVENTS)
      && !GoesOn(a, r.after.cursor, log + arrivals)
  {
    WaitsAtTheEnd(f, log, r);
    PushesKeep(f, log, arrivals);
    var g, all, n := PushedAll(f, arrivals), log + arrivals, r.after.cursor.num;
    TakenIsNext(g, all, n);
    var oldest := g.num - KEPT_EVENTS;
    assert Taken(g, n) == Between(all, oldest, oldest + BATCH);
    var a := Since(f, r, arrivals);
    assert a.events == Taken(g, n) && a.events[0].num == oldest + 1;
  }

  lemma AtOnceGoesOn(f: Feed, log: seq<Body>, r: Request, arrivals: seq<Body>)
    requires Keeps(f, log) && r.after.At? && !Waits(f, r) && !Stale(f, r.after.cursor) && Since(f, r, arrivals).Batch?
    ensures GoesOn(Since(f, r, arrivals), r.after.cursor, log)
  {
    TakenIsNext(f, log, r.after.cursor.num);
  }

  /**
   * An answer to a cursor goes on from it, or says reset, or is a refusal, exactly unless more than KEPT_EVENTS events arrive
   * during its wait: then it skips some, and doesn't say so.
   */
  lemma AnswerGoesOn(f: Feed, log: seq<Body>, r: Request, arrivals: seq<Body>)
    requires Keeps(f, log) && r.after.At?
    ensures var a, c, all := Since(f, r, arrivals), r.after.cursor, log + (if Waits(f, r) then arrivals else []);
      && Keeps(FeedAfter(f, r, arrivals), all)
      && (Stale(f, c) <==> a.Batch? && a.reset)
      && (a.Batch? && !a.reset ==> (GoesOn(a, c, all) <==> !(Waits(f, r) && |arrivals| > KEPT_EVENTS)))
  {
    hide GoesOn, Taken, Keeps, PushedAll;
    if Waits(f, r) {
      PushesKeep(f, log, arrivals);
      if |arrivals| > KEPT_EVENTS {
        FloodGoesNotOn(f, log, r, arrivals);
      } else {
        WaitGoesOn(f, log, r, arrivals);
      }
    } else {
      assert log + [] == log;
      if !Stale(f, r.after.cursor) && Since(f, r, arrivals).Batch? {
        AtOnceGoesOn(f, log, r, arrivals);
      }
    }
  }

  /** An answer that doesn't say all there is still says a whole batch, so a client that keeps asking catches up. */
  lemma AnswerMovesOn(f: Feed, log: seq<Body>, r: Request, arrivals: seq<Body>)
    requires Keeps(f, log) && r.after.At? && !Stale(f, r.after.cursor) && Since(f, r, arrivals).Batch?
    requires Waits(f, r) ==> |arrivals| <= KEPT_EVENTS
    ensures var left := FeedAfter(f, r, arrivals).num - r.after.cursor.num;
      |Since(f, r, arrivals).events| == if left > BATCH then BATCH else left
  {
    var c := r.after.cursor;
    if Waits(f, r) {
      WaitsAtTheEnd(f, log, r);
      PushesKeep(f, log, arrivals);
      TakenIsNext(PushedAll(f, arrivals), log + arrivals, c.num);
    } else {
      TakenIsNext(f, log, c.num);
    }
  }

  const FirstAsk := Request(Nothing, false, false, 0, 0)

  /**
   * What every other request is answered: without a cursor, where the feed stands, and no events; with something else than a
   * cursor, a refusal; with a stale one, where the feed stands, to read the rooms again; and a wait is refused exactly where there
   * is nothing to say, nobody hung up, and too many wait already. A request that hung up, or may not wait, stays where it is.
   */
  lemma AnswersOtherwise(f: Feed, log: seq<Body>, r: Request, arrivals: seq<Body>)
    requires Keeps(f, log)
    ensures var a := Since(f, r, arrivals);
      && (r.after.Nothing? ==> a == Batch(Cursor(f.epoch, |log|), [], false))
      && (r.after.Garbled? ==> a == Refused(400))
      && (r.after.At? && Stale(f, r.after.cursor) ==> a == Batch(Cursor(f.epoch, |log|), [], true))
      && (a.Refused? <==> r.after.Garbled? || (r.after.At? && r.after.cursor == Cursor(f.epoch, |log|) && r.waits && !r.aborted
                                               && (r.held >= 4 || r.waiting >= 32)))
      && (a.Refused? && r.after.At? ==> a.status == 429)
      && (r.after.At? && r.after.cursor == Cursor(f.epoch, |log|) && (!r.waits || r.aborted) ==> a == Batch(r.after.cursor, [], false))
      && (Waits(f, r) <==> r.after.At? && r.after.cursor == Cursor(f.epoch, |log|) && r.waits && !r.aborted && r.held < 4 && r.waiting < 32)
  {
    if r.after.At? && !Stale(f, r.after.cursor) {
      TakenIsNext(f, log, r.after.cursor.num);
    }
  }

  // ---- A client that follows its cursors ----

  /**
   * The feed with everything this daemon pushed, the epochs daemons had, and a client: its cursor, where it first stood (or
   * stood when it was last told to read the rooms again), and the events it was told since.
   */
  datatype World = World(feed: Feed, log: seq<Body>, epochs: set<Epoch>, cursor: Cursor, first: Cursor, told: seq<Event>)

  datatype Step =
    | Push(body: Body)
    /** The client asks with its cursor; `arrivals` come while it waits, if it does. */
    | Ask(waits: bool, aborted: bool, held: nat, waiting: nat, arrivals: seq<Body>)
    | Restart(epoch: Epoch)

  function RequestOf(w: World, s: Step): Request
    requires s.Ask?
  {
    Request(At(w.cursor), s.waits, s.aborted, s.held, s.waiting)
  }

  function Do(w: World, s: Step): World {
    match s
    case Push(body) => w.(feed := Pushed(w.feed, body), log := w.log + [body])
    case Ask(_, _, _, _, arrivals) =>
      var r := RequestOf(w, s);
      var a := Since(w.feed, r, arrivals);
      var told := if a.Refused? then w else if a.reset then w.(cursor := a.cursor, first := a.cursor, told := [])
                  else w.(cursor := a.cursor, told := w.told + a.events);
      told.(feed := FeedAfter(w.feed, r, arrivals), log := w.log + (if Waits(w.feed, r) then arrivals else []))
    case Restart(epoch) =>
      if epoch in w.epochs then w else w.(feed := Feed(epoch, 0, []), log := [], epochs := w.epochs + {epoch})
  }

  function Exec(w: World, steps: seq<Step>): World
    decreases |steps|
  {
    if steps == [] then w else Exec(Do(w, steps[0]), steps[1..])
  }

  /** A client that starts now, with the answer to a request that names no cursor. */
  function Follows(f: Feed, log: seq<Body>): World {
    var a := Since(f, FirstAsk, []);
    var cursor := if a.Batch? then a.cursor else Cursor(f.epoch, 0);
    World(f, log, {f.epoch}, cursor, cursor, if a.Batch? then a.events else [])
  }

  /** It stands at the end of everything pushed until then. */
  lemma FollowsFromTheEnd(f: Feed, log: seq<Body>)
    requires Keeps(f, log)
    ensures var w := Follows(f, log); w.first == w.cursor == Cursor(f.epoch, |log|) && w.told == [] && Inv(w)
  {
    AnswersOtherwise(f, log, FirstAsk, []);
  }

  ghost predicate Inv(w: World) {
    && Keeps(w.feed, w.log) && w.feed.epoch in w.epochs && w.cursor.epoch in w.epochs
    && w.first.epoch == w.cursor.epoch
    && (w.cursor.epoch == w.feed.epoch ==>
          && w.first.num <= w.cursor.num <= |w.log|
          && w.told == Between(w.log, w.first.num, w.cursor.num))
  }

  /** No request's wait meets more events than are kept. */
  predicate NoFlood(s: Step) {
    s.Ask? ==> |s.arrivals| <= KEPT_EVENTS
  }

  lemma BetweenOfLonger(log: seq<Body>, more: seq<Body>, from: nat, to: nat)
    requires from <= to <= |log|
    ensures Between(log + more, from, to) == Between(log, from, to)
  {
  }

  lemma BetweenJoins(log: seq<Body>, from: nat, middle: nat, to: nat)
    requires from <= middle <= to <= |log|
    ensures Between(log, from, middle) + Between(log, middle, to) == Between(log, from, to)
  {
  }

  lemma AskKeepsInv(w: World, s: Step)
    requires Inv(w) && s.Ask? && NoFlood(s)
    ensures Inv(Do(w, s))
  {
    var r := RequestOf(w, s);
    var more := if Waits(w.feed, r) then s.arrivals else [];
    var log := w.log + more;
    AnswerGoesOn(w.feed, w.log, r, s.arrivals);
    PushesKeep(w.feed, w.log, s.arrivals);
    if w.cursor.epoch == w.feed.epoch {
      BetweenOfLonger(w.log, more, w.first.num, w.cursor.num);
      var a := Since(w.feed, r, s.arrivals);
      if a.Batch? && !a.reset {
        BetweenJoins(log, w.first.num, w.cursor.num, a.cursor.num);
      }
    }
  }

  lemma StepKeepsInv(w: World, s: Step)
    requires Inv(w) && NoFlood(s)
    ensures Inv(Do(w, s))
  {
    match s
    case Push(body) =>
      PushKeeps(w.feed, w.log, body);
      if w.cursor.epoch == w.feed.epoch {
        BetweenOfLonger(w.log, [body], w.first.num, w.cursor.num);
      }
    case Ask(_, _, _, _, _) => AskKeepsInv(w, s);
    case Restart(_) =>
  }

  lemma {:induction false} RunKeepsInv(w: World, steps: seq<Step>)
    requires Inv(w) && forall i :: 0 <= i < |steps| ==> NoFlood(steps[i])
    ensures Inv(Exec(w, steps))
    decreases |steps|
  {
    if steps != [] {
      StepKeepsInv(w, steps[0]);
      RunKeepsInv(Do(w, steps[0]), steps[1..]);
    }
  }

  /**
   * In every run, of pushes, requests and restarts, in which no wait is flooded: the client was told exactly the events
   * after the cursor it started from (or was last reset to), up to its own, in order, none skipped and none twice.
   */
  lemma ClientIsToldEverything(f: Feed, log: seq<Body>, steps: seq<Step>)
    requires Keeps(f, log) && forall i :: 0 <= i < |steps| ==> NoFlood(steps[i])
    ensures var w := Exec(Follows(f, log), steps);
      w.cursor.epoch == w.feed.epoch ==>
        w.first.num <= w.cursor.num <= |w.log| && w.told == Between(w.log, w.first.num, w.cursor.num)
  {
    FollowsFromTheEnd(f, log);
    RunKeepsInv(Follows(f, log), steps);
  }

  /** A client of an earlier daemon is told to read the rooms again by its next request. */
  lemma RestartIsNoticed(w: World, s: Step)
    requires Inv(w) && s.Ask? && w.cursor.epoch != w.feed.epoch
    ensures var v := Do(w, s); v.first == v.cursor == Cursor(w.feed.epoch, w.feed.num) && v.told == []
  {
  }

  /** The condition is needed: a flood during a wait skips the events it drops, and the answer doesn't say so. */
  lemma FloodSkips(w: World, s: Step)
    requires Inv(w) && s.Ask? && Waits(w.feed, RequestOf(w, s)) && |s.arrivals| > KEPT_EVENTS
    ensures var v := Do(w, s);
      && v.first == w.first && |v.told| == |w.told| + BATCH
      && v.told[|w.told|].num == w.cursor.num + 1 + (|s.arrivals| - KEPT_EVENTS)
  {
    FloodGoesNotOn(w.feed, w.log, RequestOf(w, s), s.arrivals);
  }

  // ---- The feed, in place ----

  class EventFeed {
    const epoch: Epoch
    var num: nat
    var events: seq<Event>
    /** Everything pushed so far. */
    ghost var log: seq<Body>

    function View(): Feed
      reads this
    {
      Feed(epoch, num, events)
    }

    ghost predicate Valid()
      reads this
    {
      Keeps(View(), log)
    }

    constructor (epoch: Epoch)
      ensures Valid() && View() == Feed(epoch, 0, []) && log == []
    {
      this.epoch, num, events, log := epoch, 0, [], [];
    }

    method Push(body: Body)
      requires Valid()
      modifies this
      ensures Valid() && View() == Pushed(old(View()), body) && log == old(log) + [body]
    {
      PushKeeps(View(), log, body);
      num := num + 1;
      events := events + [Event(num, body)];
      if |events| > KEPT_EVENTS { events := events[|events| - KEPT_EVENTS..]; }
      log := log + [body];
    }

    /** `take`: the events after `n`, at most a batch of them. */
    method Take(n: nat) returns (found: seq<Event>)
      ensures found == Taken(View(), n)
    {
      found := [];
      for i := 0 to |events|
        invariant found == After(events[..i], n)
      {
        assert events[..i + 1][..i] == events[..i];
        if events[i].num > n { found := found + [events[i]]; }
      }
      assert events[..|events|] == events;
      if |found| > BATCH { found := found[..BATCH]; }
    }

    /** What `poll` pushes while a request waits. */
    method Wait(arrivals: seq<Body>)
      requires Valid()
      modifies this
      ensures Valid() && View() == PushedAll(old(View()), arrivals) && log == old(log) + arrivals
    {
      for i := 0 to |arrivals|
        invariant Valid() && View() == PushedAll(old(View()), arrivals[..i]) && log == old(log) + arrivals[..i]
      {
        Push(arrivals[i]);
        assert arrivals[..i + 1][..i] == arrivals[..i];
        assert arrivals[..i + 1] == arrivals[..i] + [arrivals[i]];
      }
      assert arrivals[..|arrivals|] == arrivals;
    }

    /** `since`, which goes on from the cursor unless its wait is flooded. */
    method Answers(r: Request, arrivals: seq<Body>) returns (a: Answer)
      requires Valid()
      modifies this
      ensures Valid() && a == Since(old(View()), r, arrivals) && View() == FeedAfter(old(View()), r, arrivals)
      ensures log == old(log) + (if Waits(old(View()), r) then arrivals else [])
      ensures r.after.At? && a.Batch? && !a.reset && |arrivals| <= KEPT_EVENTS ==> GoesOn(a, r.after.cursor, log)
    {
      hide GoesOn, Keeps, PushedAll, Taken;
      if r.after.At? {
        AnswerGoesOn(View(), log, r, arrivals);
      }
      if r.after.Nothing? { return Batch(Cursor(epoch, num), [], false); }
      if r.after.Garbled? { return Refused(400); }
      var c := r.after.cursor;
      if c.epoch != epoch || c.num > num || (events != [] && c.num + 1 < events[0].num) || (events == [] && c.num < num) {
        return Batch(Cursor(epoch, num), [], true);
      }
      var found := Take(c.num);
      if found == [] && r.waits {
        if r.aborted { return Batch(c, [], false); }
        if r.held >= MAX_WAITERS_PER_TOKEN || r.waiting >= MAX_WAITERS { return Refused(429); }
        Wait(arrivals);
      }
      var told := Take(c.num);
      return Batch(if told == [] then c else Cursor(epoch, told[|told| - 1].num), told, false);
    }
  }
}
