/**
 * The wake loop of one room: `watchLoop` and its `settle` in server/agent-watch.ts.
 *
 * The room is a log of work; a piece of work is known by its place in it, and the listen cursor is how far the agent has
 * read. The state record is written to disk at `save`; here are its changes, WatchRuns has the disk, crashes and
 * restarts. What the loop asks of the world (the clock, the peek, the session's turn, the run's outcome) are inputs.
 */
module WatchLoop {
  import opened Wrappers

  type Pid = nat
  type Generation = nat

  datatype Kind = Message | Task | Decision
  datatype Item = Item(id: nat, kind: Kind)

  /** Work a wake read but didn't get done: how often it was offered, since when, and since when it is flagged. */
  datatype Obligation = Obligation(kind: Kind, offers: nat, since: int, flagged: Option<int>)

  /** The wake about to be dispatched: when, the cursor before it, what it is offered, and since when an answer counts. */
  datatype Offer = Offer(at: int, before: nat, items: seq<Item>, since: int)

  datatype Pause = Pause(hard: bool, generation: Option<Generation>)
  datatype Halt = Halt(generation: Generation, pid: Option<Pid>)
  datatype Run = Run(pid: Pid, startedAt: int)

  datatype State = State(
    wakes: seq<int>, noProgress: nat, backoffUntil: Option<int>, paused: Option<Pause>, activeRun: Option<Run>,
    capped: bool, busy: bool, offer: Option<Offer>, obligations: map<nat, Obligation>, halted: Option<Halt>)

  const EmptyState := State([], 0, None, None, None, false, false, None, map[], None)

  datatype Timing = Timing(backoffMs: nat, maxNoProgress: nat, busyRetryMs: nat, pausedRetryMs: nat, runTimeoutMs: nat,
    orphanGraceMs: nat, maxOffers: nat)

  const HOUR := 3_600_000
  /** The largest integer a JavaScript number counts by ones: a backoff until then never ends. */
  const MAX_SAFE := 9_007_199_254_740_991

  /** Whether the agent answered this item since then (`deps.answered` for one item). */
  type Answers = (Item, int) -> bool

  // ---- settle ----

  /** The items a failed wake read and didn't get answered; a wake that succeeded leaves none. */
  function Open(items: seq<Item>, since: int, failed: bool, answered: Answers): seq<Item> {
    if items == [] || !failed then []
    else
      var rest := Open(items[..|items| - 1], since, failed, answered);
      var item := items[|items| - 1];
      if answered(item, since) then rest else rest + [item]
  }

  function Unanswered(obligations: map<nat, Obligation>, answered: Answers): map<nat, Obligation> {
    map id | id in obligations && !answered(Item(id, obligations[id].kind), obligations[id].since) :: obligations[id]
  }

  /** One more offer of an item, flagged once it was offered `maxOffers` times. */
  function Charged(obligations: map<nat, Obligation>, item: Item, since: int, now: int, maxOffers: nat): Obligation {
    var o := if item.id in obligations then obligations[item.id] else Obligation(item.kind, 0, since, None);
    Obligation(o.kind, o.offers + 1, o.since,
      if o.offers + 1 >= maxOffers && o.flagged.None? then Some(now) else o.flagged)
  }

  function Charge(obligations: map<nat, Obligation>, open: seq<Item>, since: int, now: int, maxOffers: nat): map<nat, Obligation> {
    if open == [] then obligations
    else
      var before := Charge(obligations, open[..|open| - 1], since, now, maxOffers);
      var item := open[|open| - 1];
      before[item.id := Charged(before, item, since, now, maxOffers)]
  }

  /** Some open item is still within its budget, so the cursor goes back. */
  function Again(obligations: map<nat, Obligation>, open: seq<Item>, since: int, now: int, maxOffers: nat): bool {
    if open == [] then false
    else
      var before := Charge(obligations, open[..|open| - 1], since, now, maxOffers);
      || Again(obligations, open[..|open| - 1], since, now, maxOffers)
      || Charged(before, open[|open| - 1], since, now, maxOffers).offers < maxOffers
  }

  function Dropped(items: seq<Item>, open: seq<Item>): set<nat> {
    set item | item in items && item !in open :: item.id
  }

  datatype Settled = Settled(obligations: map<nat, Obligation>, again: bool)

  /** `settle`: what a wake's end means for its items; `again` puts the cursor back to where the wake found it. */
  function Settle(obligations: map<nat, Obligation>, offer: Offer, progress: bool, failed: bool, answered: Answers, now: int,
                  maxOffers: nat): Settled
  {
    var left := Unanswered(obligations, answered);
    if !progress then Settled(left, false) else
      var open := Open(offer.items, offer.since, failed, answered);
      var kept := left - Dropped(offer.items, open);
      Settled(Charge(kept, open, offer.since, now, maxOffers), Again(kept, open, offer.since, now, maxOffers))
  }

  /** How often an id is among the items. */
  function Times(items: seq<Item>, id: nat): nat {
    if items == [] then 0 else Times(items[..|items| - 1], id) + (if items[|items| - 1].id == id then 1 else 0)
  }

  function OffersOf(obligations: map<nat, Obligation>, id: nat): nat {
    if id in obligations then obligations[id].offers else 0
  }

  /** Charging counts each open item once, flags it as soon as its budget is used up, and touches nothing else. */
  lemma {:induction false} ChargeCounts(obligations: map<nat, Obligation>, open: seq<Item>, since: int, now: int, maxOffers: nat, id: nat)
    ensures var after := Charge(obligations, open, since, now, maxOffers);
      && (Times(open, id) == 0 ==> (id in after <==> id in obligations) && (id in obligations ==> after[id] == obligations[id]))
      && (Times(open, id) > 0 ==>
            && id in after && after[id].offers == OffersOf(obligations, id) + Times(open, id)
            && after[id].since == (if id in obligations then obligations[id].since else since)
            && after[id].flagged == (if id in obligations && obligations[id].flagged.Some? then obligations[id].flagged
                                     else if after[id].offers >= maxOffers then Some(now) else None))
    decreases |open|
  {
    if open != [] {
      ChargeCounts(obligations, open[..|open| - 1], since, now, maxOffers, id);
    }
  }

  lemma {:induction false} AgainCounts(obligations: map<nat, Obligation>, open: seq<Item>, since: int, now: int, maxOffers: nat)
    ensures Again(obligations, open, since, now, maxOffers) <==>
      exists item :: item in open && OffersOf(obligations, item.id) + 1 < maxOffers
    decreases |open|
  {
    if open != [] {
      var most, last := open[..|open| - 1], open[|open| - 1];
      assert open == most + [last];
      AgainCounts(obligations, most, since, now, maxOffers);
      ChargeCounts(obligations, most, since, now, maxOffers, last.id);
      TimesMeansIn(most, last.id);
    }
  }

  lemma {:induction false} TimesMeansIn(items: seq<Item>, id: nat)
    ensures Times(items, id) > 0 <==> exists item :: item in items && item.id == id
    decreases |items|
  {
    if items != [] {
      var most, last := items[..|items| - 1], items[|items| - 1];
      assert items == most + [last];
      TimesMeansIn(most, id);
    }
  }

  /** No two items of an offer have one id. */
  predicate OneEach(items: seq<Item>) {
    forall i, j :: 0 <= i < j < |items| ==> items[i].id != items[j].id
  }

  lemma {:induction false} OnceEach(items: seq<Item>, id: nat)
    requires OneEach(items)
    ensures Times(items, id) <= 1
    decreases |items|
  {
    if items != [] {
      var most, last := items[..|items| - 1], items[|items| - 1];
      OnceEach(most, id);
      TimesMeansIn(most, id);
    }
  }

  /** The open items are those offered and not answered, in order, after a failure; none after a success. */
  lemma {:induction false} OpenExactly(items: seq<Item>, since: int, failed: bool, answered: Answers, item: Item)
    ensures item in Open(items, since, failed, answered) <==> failed && item in items && !answered(item, since)
    ensures OneEach(items) ==> OneEach(Open(items, since, failed, answered))
    decreases |items|
  {
    if items != [] && failed {
      var most, last := items[..|items| - 1], items[|items| - 1];
      assert items == most + [last];
      OpenExactly(most, since, failed, answered, item);
      forall q | q in Open(most, since, failed, answered) ensures OneEach(items) ==> q.id != last.id {
        OpenExactly(most, since, failed, answered, q);
        var m :| 0 <= m < |most| && most[m] == q;
        assert items[m] == q;
      }
      var before := Open(most, since, failed, answered);
      assert forall i :: 0 <= i < |before| ==> before[i] in before;
    }
  }

  /** The obligation was answered since it began. */
  predicate Answered(obligations: map<nat, Obligation>, answered: Answers, id: nat)
    requires id in obligations
  {
    answered(Item(id, obligations[id].kind), obligations[id].since)
  }

  /** How often the item was offered before, as far as that still counts. */
  function Owed(obligations: map<nat, Obligation>, answered: Answers, id: nat): nat {
    if id in obligations && !Answered(obligations, answered, id) then obligations[id].offers else 0
  }

  /**
   * What a settlement comes to, item by item. A wake that didn't read changes no item but those answered since. One that read: an
   * item it offered and left open after a failure is charged one offer, and flagged exactly when its budget is then used up; any
   * other item it offered is done with. The work is put back exactly if an item left open is still within its budget.
   */
  lemma SettledExactly(obligations: map<nat, Obligation>, offer: Offer, progress: bool, failed: bool, answered: Answers, now: int,
                       maxOffers: nat, id: nat)
    requires OneEach(offer.items)
    ensures var settled := Settle(obligations, offer, progress, failed, answered, now, maxOffers);
      var after := settled.obligations;
      var offered := exists item :: item in offer.items && item.id == id;
      var left := exists item :: item in offer.items && item.id == id && failed && !answered(item, offer.since);
      && (!progress || !offered ==>
            (id in after <==> id in obligations && !Answered(obligations, answered, id)) && (id in after ==> after[id] == obligations[id]))
      && (progress && offered ==> (id in after <==> left))
      && (progress && left ==>
            && after[id].offers == Owed(obligations, answered, id) + 1
            && (after[id].offers >= maxOffers ==> after[id].flagged.Some?)
            && (after[id].flagged.Some? ==> after[id].offers >= maxOffers || (id in obligations && obligations[id].flagged.Some?)))
    ensures Settle(obligations, offer, progress, failed, answered, now, maxOffers).again <==>
      progress && exists item :: item in offer.items && failed && !answered(item, offer.since) && Owed(obligations, answered, item.id) + 1 < maxOffers
  {
    var left := Unanswered(obligations, answered);
    var open := Open(offer.items, offer.since, failed, answered);
    var kept := left - Dropped(offer.items, open);
    forall item ensures item in open <==> failed && item in offer.items && !answered(item, offer.since) {
      OpenExactly(offer.items, offer.since, failed, answered, item);
    }
    OpenExactly(offer.items, offer.since, failed, answered, Item(0, Task));
    ChargeCounts(kept, open, offer.since, now, maxOffers, id);
    AgainCounts(kept, open, offer.since, now, maxOffers);
    TimesMeansIn(open, id);
    OnceEach(open, id);
    forall item | item in open ensures item.id !in Dropped(offer.items, open) && OffersOf(kept, item.id) == Owed(obligations, answered, item.id) {
      OneOfEach(offer.items, open, item);
    }
  }

  /** Where ids are offered once, an open item's isn't dropped. */
  lemma OneOfEach(items: seq<Item>, open: seq<Item>, item: Item)
    requires OneEach(items) && item in items && item in open
    ensures item.id !in Dropped(items, open)
  {
    forall other | other in items && other.id == item.id ensures other == item {
      var i :| 0 <= i < |items| && items[i] == item;
      var j :| 0 <= j < |items| && items[j] == other;
      assert i == j;
    }
  }

  // ---- The start of a watcher ----

  datatype Life = Dead | Alive | Unknown

  /** One look at the earlier watcher's run while waiting for it. */
  datatype Poll = Poll(life: Life, now: int, stopped: bool)

  predicate EndsWait(p: Poll, until: int) {
    p.life == Dead || p.now >= until || p.stopped
  }

  /** How the wait ended: at the first look that found the run gone, out of time, or this watcher told to stop. */
  function WaitEnd(polls: seq<Poll>, until: int): Poll
    requires polls != [] && EndsWait(polls[|polls| - 1], until)
  {
    if EndsWait(polls[0], until) then polls[0] else WaitEnd(polls[1..], until)
  }

  /**
   * What became of a run the earlier watcher started: `Over` (gone, stopped for being past its time, or taken as checked
   * because the operator bound again after a halt on it), `CutShort` (this watcher was told to stop while it may still
   * go), or `Unidentified`, which halts.
   */
  datatype Fate = Over | CutShort | Unidentified(pid: Pid)

  /** The operator bound again after a halt over this very run: that is their answer, having checked it. */
  predicate Checked(s: State, generation: Generation)
    requires s.activeRun.Some?
  {
    s.halted.Some? && s.halted.value.pid == Some(s.activeRun.value.pid) && s.halted.value.generation != generation
  }

  function WaitLimit(run: Run, t: Timing): int {
    run.startedAt + t.runTimeoutMs + t.orphanGraceMs
  }

  /** The looks a watcher takes at the run it finds, the first and those of its wait, go on until one ends the wait. */
  predicate Looked(s: State, polls: seq<Poll>, t: Timing) {
    s.activeRun.Some? ==> polls != [] && EndsWait(polls[|polls| - 1], WaitLimit(s.activeRun.value, t))
  }

  function OrphanFate(s: State, generation: Generation, first: Life, polls: seq<Poll>, t: Timing): Fate
    requires Looked(s, polls, t)
  {
    if s.activeRun.None? then Over else
      var run := s.activeRun.value;
      if first == Dead || (Checked(s, generation) && first == Unknown) then Over else
        var end := WaitEnd(polls, WaitLimit(run, t));
        if end.life == Dead || (end.life == Alive && end.now >= WaitLimit(run, t)) then Over
        else if end.life == Unknown && !end.stopped then Unidentified(run.pid)
        else CutShort
  }

  /** The run is stopped for being past its time. */
  predicate Kills(s: State, generation: Generation, first: Life, polls: seq<Poll>, t: Timing)
    requires Looked(s, polls, t)
  {
    s.activeRun.Some? && first != Dead && !(Checked(s, generation) && first == Unknown)
    && var limit := WaitLimit(s.activeRun.value, t); var end := WaitEnd(polls, limit);
       end.life == Alive && end.now >= limit
  }

  /** The first look that ends the wait. */
  predicate EndsAt(polls: seq<Poll>, until: int, k: nat) {
    k < |polls| && EndsWait(polls[k], until) && forall j :: 0 <= j < k ==> !EndsWait(polls[j], until)
  }

  lemma {:induction false} WaitEndsAt(polls: seq<Poll>, until: int, k: nat)
    requires polls != [] && EndsWait(polls[|polls| - 1], until) && EndsAt(polls, until, k)
    ensures WaitEnd(polls, until) == polls[k]
    decreases |polls|
  {
    if k > 0 {
      assert !EndsWait(polls[0], until);
      WaitEndsAt(polls[1..], until, k - 1);
    }
  }

  /**
   * What becomes of an earlier run, by the look that ends the wait for it: it is over where it was gone at the first look, or taken as
   * checked, or is gone at that one, or past its time there, and only then it is stopped; it halts the watcher exactly where that
   * look can't identify it and nobody told the watcher to stop; else the wait was cut short.
   */
  lemma FateExactly(s: State, generation: Generation, first: Life, polls: seq<Poll>, t: Timing, k: nat)
    requires s.activeRun.Some? && Looked(s, polls, t)
    requires var run := s.activeRun.value; EndsAt(polls, run.startedAt + t.runTimeoutMs + t.orphanGraceMs, k)
    ensures var fate, run, end := OrphanFate(s, generation, first, polls, t), s.activeRun.value, polls[k];
      var cleared := first == Dead
        || (first == Unknown && s.halted.Some? && s.halted.value.pid == Some(run.pid) && s.halted.value.generation != generation);
      var late := end.life == Alive && end.now >= run.startedAt + t.runTimeoutMs + t.orphanGraceMs;
      && (fate == Over <==> cleared || end.life == Dead || late)
      && (fate.Unidentified? <==> !cleared && end.life == Unknown && !end.stopped)
      && (fate.Unidentified? ==> fate.pid == run.pid)
      && (Kills(s, generation, first, polls, t) <==> !cleared && late)
  {
    WaitEndsAt(polls, WaitLimit(s.activeRun.value, t), k);
  }

  predicate Held(generation: Option<Generation>, current: Generation) {
    generation == Some(current)
  }

  datatype Changed = Changed(state: State, putBack: bool)

  /** An offer found unsettled at the start is settled as interrupted, unless the run it was made to can't be identified. */
  function SettleLeft(s: State, fate: Fate, cursor: nat, answered: Answers, now: int, maxOffers: nat): Settled {
    if s.offer.Some? && !fate.Unidentified?
    then Settle(s.obligations, s.offer.value, cursor != s.offer.value.before, true, answered, now, maxOffers)
    else Settled(s.obligations, false)
  }

  /** What a watcher keeps of the state it found: a halt and a hard pause only of its own generation. */
  function Resume(s: State, generation: Generation, fate: Fate, obligations: map<nat, Obligation>): State {
    var halted := if fate.Unidentified? then Some(Halt(generation, Some(fate.pid))) else s.halted;
    var hard := s.paused.Some? && s.paused.value.hard && Held(s.paused.value.generation, generation);
    State(s.wakes, 0, if hard then s.backoffUntil else None, if hard then s.paused else None,
          if fate.Unidentified? then s.activeRun else None, false, false,
          if fate.Unidentified? then s.offer else None, obligations,
          if halted.Some? && Held(Some(halted.value.generation), generation) then halted else None)
  }

  /** The state a watcher starts its loop with. */
  function Restart(s: State, generation: Generation, fate: Fate, cursor: nat, answered: Answers, now: int, t: Timing): Changed {
    var settled := SettleLeft(s, fate, cursor, answered, now, t.maxOffers);
    Changed(Resume(s, generation, fate, settled.obligations), settled.again)
  }

  /**
   * What a start keeps: the starts that count against the cap, and what holds under its own generation, a halt or a hard pause with
   * its backoff. A run that can't be identified halts it, and only then that run and the offer to it stay on record. All else
   * starts anew: a soft pause, a backoff, the failures in a row, and what other generations were held by.
   */
  lemma StartsAnew(s: State, generation: Generation, fate: Fate, cursor: nat, answered: Answers, now: int, t: Timing)
    ensures var after := Restart(s, generation, fate, cursor, answered, now, t).state;
      var hard := s.paused.Some? && s.paused.value.hard && s.paused.value.generation == Some(generation);
      && after.wakes == s.wakes && after.noProgress == 0 && !after.busy && !after.capped
      && (after.halted.Some? <==> fate.Unidentified? || (s.halted.Some? && s.halted.value.generation == generation))
      && (after.halted.Some? ==> after.halted.value.generation == generation)
      && (after.paused == if hard then s.paused else None)
      && (after.backoffUntil == if hard then s.backoffUntil else None)
      && (after.offer == if fate.Unidentified? then s.offer else None)
      && (after.activeRun == if fate.Unidentified? then s.activeRun else None)
      && (fate.Unidentified? ==> after.obligations == s.obligations && !Restart(s, generation, fate, cursor, answered, now, t).putBack)
  {
  }

  // ---- One iteration, up to the dispatch ----

  /** The live session's lease, as the gate reports it: it holds the mailbox, or not, maybe giving work back. */
  datatype Gate = LiveHolds | Clear(reoffer: Option<nat>)
  datatype Asked = Turn | HeldElsewhere | MustWait

  /** What one iteration sees; `started` is the clock again at the dispatch, `cursor` the cursor then. */
  datatype Look = Look(now: int, ready: bool, gate: Gate, work: bool, agentFull: bool, asked: Asked, begin: bool,
    started: int, cursor: nat, items: seq<Item>)

  function Pruned(wakes: seq<int>, now: int): seq<int> {
    if wakes == [] then []
    else
      var rest := Pruned(wakes[..|wakes| - 1], now);
      if wakes[|wakes| - 1] > now - HOUR then rest + [wakes[|wakes| - 1]] else rest
  }

  /** Since when an answer to these items counts: when the earliest of them was first offered. */
  function Since(items: seq<Item>, obligations: map<nat, Obligation>, started: int): int {
    if items == [] then started
    else
      var rest := Since(items[..|items| - 1], obligations, started);
      var id := items[|items| - 1].id;
      if id in obligations && obligations[id].since < rest then obligations[id].since else rest
  }

  /** Answers to an offer count from the earliest time one of its items was first offered, and at the latest from now. */
  lemma {:induction false} SinceIsEarliest(items: seq<Item>, obligations: map<nat, Obligation>, started: int)
    ensures var since := Since(items, obligations, started);
      && since <= started && (forall item <- items :: item.id in obligations ==> since <= obligations[item.id].since)
      && (since == started || exists item :: item in items && item.id in obligations && obligations[item.id].since == since)
    decreases |items|
  {
    if items != [] {
      var most, last := items[..|items| - 1], items[|items| - 1];
      assert items == most + [last];
      SinceIsEarliest(most, obligations, started);
    }
  }

  datatype Iteration = Iteration(state: State, wakes: bool, reoffered: Option<nat>)

  function Iterate(s: State, maxWakesPerHour: nat, look: Look): Iteration {
    if s.halted.Some? || !look.ready || look.gate.LiveHolds? then Iteration(s, false, None)
    else if !look.work || (s.backoffUntil.Some? && look.now < s.backoffUntil.value) then Iteration(s, false, look.gate.reoffer)
    else
      var pruned := s.(wakes := Pruned(s.wakes, look.now));
      if |pruned.wakes| >= maxWakesPerHour || look.agentFull then Iteration(pruned.(capped := true), false, look.gate.reoffer)
      else if !look.asked.Turn? then
        Iteration(pruned.(busy := pruned.busy || look.asked.HeldElsewhere?), false, look.gate.reoffer)
      else if !look.begin then Iteration(pruned, false, look.gate.reoffer)
      else
        var offer := Offer(look.started, look.cursor, look.items, Since(look.items, s.obligations, look.started));
        Iteration(pruned.(capped := false, offer := Some(offer), wakes := pruned.wakes + [look.started]), true, look.gate.reoffer)
  }

  // ---- When an iteration dispatches ----

  /** The starts of the last hour, by their places. */
  ghost function InHour(wakes: seq<int>, now: int): set<nat> {
    set i | 0 <= i < |wakes| && wakes[i] > now - 3_600_000
  }

  /** Pruning keeps exactly as many starts as there are in the last hour. */
  lemma {:induction false} PrunedCounts(wakes: seq<int>, now: int)
    ensures |Pruned(wakes, now)| == |InHour(wakes, now)|
    decreases |wakes|
  {
    if wakes != [] {
      var n := |wakes| - 1;
      PrunedCounts(wakes[..n], now);
      assert InHour(wakes, now) == InHour(wakes[..n], now) + (if wakes[n] > now - HOUR then {n} else {});
    } else {
      assert InHour(wakes, now) == {};
    }
  }

  /** Not halted, ready, with work, and past its backoff. */
  predicate Willing(s: State, look: Look) {
    s.halted.None? && look.ready && look.work && (s.backoffUntil.None? || s.backoffUntil.value <= look.now)
  }

  /**
   * An iteration dispatches exactly if nothing in its state holds it, no live session holds the mailbox at either look, both caps
   * leave room, and the session is given to it: it may neither be held elsewhere, nor running or queued for in another room.
   */
  lemma DispatchesExactly(s: State, maxWakesPerHour: nat, look: Look)
    ensures Iterate(s, maxWakesPerHour, look).wakes <==>
      && Willing(s, look) && look.gate.Clear?
      && |InHour(s.wakes, look.now)| < maxWakesPerHour && !look.agentFull
      && look.asked == Turn && look.begin
  {
    PrunedCounts(s.wakes, look.now);
  }

  /** Then the offer is on record with the start it counts as; without a dispatch the offer is as before, and all else is either way. */
  lemma DispatchIsRecorded(s: State, maxWakesPerHour: nat, look: Look)
    ensures var it := Iterate(s, maxWakesPerHour, look);
      && (it.wakes ==>
            && it.state.offer == Some(Offer(look.started, look.cursor, look.items, Since(look.items, s.obligations, look.started)))
            && it.state.wakes != [] && it.state.wakes[|it.state.wakes| - 1] == look.started)
      && (!it.wakes ==> it.state.offer == s.offer)
      && it.state.backoffUntil == s.backoffUntil && it.state.halted == s.halted && it.state.paused == s.paused
      && it.state.obligations == s.obligations && it.state.noProgress == s.noProgress && it.state.activeRun == s.activeRun
  {
    hide Pruned, Since;
  }

  /** What counts in a later hour is what did before, and a start that was dispatched. */
  lemma CountsGoOn(s: State, maxWakesPerHour: nat, look: Look, at: int)
    requires look.now <= at
    ensures var it := Iterate(s, maxWakesPerHour, look);
      |InHour(it.state.wakes, at)| == |InHour(s.wakes, at)| + if it.wakes && look.started > at - 3_600_000 then 1 else 0
  {
    hide Since, InHour, Iterate;
    var it := Iterate(s, maxWakesPerHour, look);
    WakesAfter(s, maxWakesPerHour, look);
    PrunedTwice(s.wakes, look.now, at);
    PrunedCounts(s.wakes, at);
    PrunedCounts(it.state.wakes, at);
    if it.wakes {
      OneMoreStart(Pruned(s.wakes, look.now), look.started, at);
    }
  }

  lemma WakesAfter(s: State, maxWakesPerHour: nat, look: Look)
    ensures var it := Iterate(s, maxWakesPerHour, look);
      if it.wakes then it.state.wakes == Pruned(s.wakes, look.now) + [look.started]
      else it.state.wakes == s.wakes || it.state.wakes == Pruned(s.wakes, look.now)
  {
    hide Pruned, Since;
  }

  lemma OneMoreStart(wakes: seq<int>, started: int, at: int)
    ensures |Pruned(wakes + [started], at)| == |Pruned(wakes, at)| + if started > at - HOUR then 1 else 0
  {
    assert (wakes + [started])[..|wakes|] == wakes;
  }

  /** The room is held back by a cap: its own over the last hour, or its agent's. */
  ghost predicate Full(s: State, maxWakesPerHour: nat, look: Look) {
    |InHour(s.wakes, look.now)| >= maxWakesPerHour || look.agentFull
  }

  /** What else an iteration says: the work given back, whenever the mailbox was looked at and free, and why it waits. */
  lemma IterationSays(s: State, maxWakesPerHour: nat, look: Look)
    ensures var it := Iterate(s, maxWakesPerHour, look);
      var came := Willing(s, look) && look.gate.Clear?;
      && it.reoffered == (if s.halted.None? && look.ready && look.gate.Clear? then look.gate.reoffer else None)
      && it.state.capped == (if came && Full(s, maxWakesPerHour, look) then true else if it.wakes then false else s.capped)
      && it.state.busy == (s.busy || (came && !Full(s, maxWakesPerHour, look) && look.asked == HeldElsewhere))
  {
    PrunedCounts(s.wakes, look.now);
  }

  lemma {:induction false} PrunedTwice(wakes: seq<int>, now: int, at: int)
    requires now <= at
    ensures Pruned(Pruned(wakes, now), at) == Pruned(wakes, at)
    decreases |wakes|
  {
    if wakes != [] {
      var n := |wakes| - 1;
      PrunedTwice(wakes[..n], now, at);
      var rest := Pruned(wakes[..n], now);
      assert (rest + [wakes[n]])[..|rest|] == rest;
    }
  }

  // ---- The end of a run ----

  datatype Outcome = Outcome(exitedWell: bool, timedOut: bool, error: bool, busy: bool, confinementBroken: bool,
    approvalWall: bool, coordination: bool)

  predicate Failed(o: Outcome) {
    !o.exitedWell || o.timedOut || o.error
  }

  predicate Hard(o: Outcome) {
    o.confinementBroken || o.approvalWall
  }

  /** The harness refused the session before anything was delivered. */
  predicate RefusedRun(o: Outcome, progress: bool) {
    o.busy && !progress
  }

  function Pow2(n: nat): nat {
    if n == 0 then 1 else 2 * Pow2(n - 1)
  }

  /** The state after a run whose offer was settled, by how it ended. */
  function Judge(s: State, generation: Generation, o: Outcome, progress: bool, handled: bool, ended: int, settled: Settled,
                 t: Timing): State
  {
    var next := s.(activeRun := None, offer := None, busy := false, obligations := settled.obligations);
    if Hard(o) then
      next.(noProgress := 0, paused := Some(Pause(true, Some(generation))), backoffUntil := Some(MAX_SAFE))
    else if o.coordination then
      next.(halted := Some(Halt(generation, None)))
    else if progress && !settled.again && (!Failed(o) || handled) then
      next.(noProgress := 0, backoffUntil := None, paused := None)
    else if s.noProgress + 1 >= t.maxNoProgress then
      next.(noProgress := s.noProgress + 1, paused := Some(Pause(false, None)), backoffUntil := Some(ended + t.pausedRetryMs))
    else
      next.(noProgress := s.noProgress + 1, backoffUntil := Some(ended + t.backoffMs * Pow2(s.noProgress)))
  }

  /** The state once a run ended: `progress`, it moved the cursor; `handled`, it acted in the room. */
  function Finish(s: State, generation: Generation, o: Outcome, progress: bool, handled: bool, ended: int, answered: Answers,
                  t: Timing): Changed
    requires s.offer.Some?
  {
    if RefusedRun(o, progress) then
      Changed(s.(activeRun := None, offer := None, busy := true, backoffUntil := Some(ended + t.busyRetryMs)), false)
    else
      var settled := Settle(s.obligations, s.offer.value, progress, Hard(o) || Failed(o), answered, ended, t.maxOffers);
      Changed(Judge(s, generation, o, progress, handled, ended, settled, t), settled.again)
  }

  // ---- What the end of a run means for the next one ----

  /** The run handled the work: it read the room, put nothing back, and didn't fail before it acted. */
  predicate HandledIt(o: Outcome, progress: bool, handled: bool, again: bool) {
    progress && !again && ((o.exitedWell && !o.timedOut && !o.error) || handled)
  }

  /** How long the n-th run in a row that didn't handle the work keeps the room back. */
  function HoldsBackMs(n: nat, t: Timing): nat
    requires n > 0
  {
    if n >= t.maxNoProgress then t.pausedRetryMs else t.backoffMs * Pow2(n - 1)
  }

  /**
   * From the end of a run on: a refused one keeps the room back for `busyRetryMs` and counts against nothing, one that broke out or
   * hit an approval wall until the operator binds again, one whose session records are broken halts it, one that handled the work
   * not at all; the n-th in a row of any others for the n-th delay, and it pauses from `maxNoProgress` on.
   */
  lemma RunEndHoldsBack(s: State, generation: Generation, o: Outcome, progress: bool, handled: bool, ended: int, answered: Answers,
                        t: Timing, look: Look)
    requires s.offer.Some? && s.halted.None?
    ensures var change := Finish(s, generation, o, progress, handled, ended, answered, t);
      var after := change.state;
      var asks := look.ready && look.work;
      if o.busy && !progress then
        (Willing(after, look) <==> asks && ended + t.busyRetryMs <= look.now)
        && after.noProgress == s.noProgress && after.obligations == s.obligations && after.paused == s.paused && !change.putBack && after.busy
      else if o.confinementBroken || o.approvalWall then
        (Willing(after, look) <==> asks && MAX_SAFE <= look.now) && after.paused == Some(Pause(true, Some(generation))) && after.noProgress == 0
      else if o.coordination then !Willing(after, look) && after.halted == Some(Halt(generation, None))
      else if HandledIt(o, progress, handled, change.putBack) then
        (Willing(after, look) <==> asks) && after.paused.None? && after.noProgress == 0
      else
        (Willing(after, look) <==> asks && ended + HoldsBackMs(s.noProgress + 1, t) <= look.now)
        && after.noProgress == s.noProgress + 1
        && after.paused == if s.noProgress + 1 >= t.maxNoProgress then Some(Pause(false, None)) else s.paused
    ensures var after := Finish(s, generation, o, progress, handled, ended, answered, t).state;
      after.offer.None? && after.activeRun.None? && after.wakes == s.wakes && (!(o.busy && !progress) ==> !after.busy)
  {
  }

  /** The delays of failures in a row double from `backoffMs` on. */
  lemma DelaysDouble(n: nat, t: Timing)
    requires 0 < n && n + 1 < t.maxNoProgress
    ensures HoldsBackMs(1, t) == t.backoffMs && HoldsBackMs(n + 1, t) == 2 * HoldsBackMs(n, t)
  {
    var p := Pow2(n - 1);
    assert Pow2(n) == 2 * p;
    assert t.backoffMs * (2 * p) == 2 * (t.backoffMs * p);
  }

  // ---- The loop's state as the source keeps it: one record, changed in place ----

  class Watcher {
    const generation: Generation
    const maxWakesPerHour: nat
    const timing: Timing
    var wakes: seq<int>
    var noProgress: nat
    var backoffUntil: Option<int>
    var paused: Option<Pause>
    var activeRun: Option<Run>
    var capped: bool
    var busy: bool
    var offer: Option<Offer>
    var obligations: map<nat, Obligation>
    var halted: Option<Halt>

    function View(): State
      reads this
    {
      State(wakes, noProgress, backoffUntil, paused, activeRun, capped, busy, offer, obligations, halted)
    }

    /** A watcher reads the state an earlier one saved. */
    constructor (saved: State, generation: Generation, maxWakesPerHour: nat, timing: Timing)
      ensures View() == saved && this.generation == generation
      ensures this.maxWakesPerHour == maxWakesPerHour && this.timing == timing
    {
      this.generation, this.maxWakesPerHour, this.timing := generation, maxWakesPerHour, timing;
      wakes, noProgress, backoffUntil, paused := saved.wakes, saved.noProgress, saved.backoffUntil, saved.paused;
      activeRun, capped, busy, offer := saved.activeRun, saved.capped, saved.busy, saved.offer;
      obligations, halted := saved.obligations, saved.halted;
    }

    /** Flagged work the agent has answered since is done. */
    method DropAnswered(answered: Answers)
      modifies this`obligations
      ensures obligations == Unanswered(old(obligations), answered)
    {
      var left, was := obligations.Keys, obligations;
      while left != {}
        invariant left <= was.Keys
        invariant obligations == map id | id in was && (id in left || !answered(Item(id, was[id].kind), was[id].since)) :: was[id]
        decreases |left|
      {
        var id :| id in left;
        if answered(Item(id, was[id].kind), was[id].since) {
          obligations := obligations - {id};
        }
        left := left - {id};
      }
    }

    method OpenItems(o: Offer, failed: bool, answered: Answers) returns (open: seq<Item>)
      ensures open == Open(o.items, o.since, failed, answered)
    {
      open := [];
      if failed {
        for i := 0 to |o.items|
          invariant open == Open(o.items[..i], o.since, failed, answered)
        {
          assert o.items[..i + 1][..i] == o.items[..i];
          if !answered(o.items[i], o.since) {
            open := open + [o.items[i]];
          }
        }
        assert o.items[..|o.items|] == o.items;
      }
    }

    /** `settle`, loop by loop; true when the cursor must go back to `o.before`. */
    method SettleOffer(o: Offer, progress: bool, failed: bool, answered: Answers, now: int) returns (again: bool)
      modifies this`obligations
      ensures Settled(obligations, again) == Settle(old(obligations), o, progress, failed, answered, now, timing.maxOffers)
    {
      DropAnswered(answered);
      if !progress {
        return false;
      }
      var open := OpenItems(o, failed, answered);
      ghost var left := obligations;
      for i := 0 to |o.items|
        invariant obligations == left - Dropped(o.items[..i], open)
      {
        assert Dropped(o.items[..i + 1], open) == Dropped(o.items[..i], open) + (if o.items[i] in open then {} else {o.items[i].id});
        if o.items[i] !in open {
          obligations := obligations - {o.items[i].id};
        }
      }
      assert o.items[..|o.items|] == o.items;
      again := false;
      ghost var kept := obligations;
      for i := 0 to |open|
        invariant obligations == Charge(kept, open[..i], o.since, now, timing.maxOffers)
        invariant again == Again(kept, open[..i], o.since, now, timing.maxOffers)
      {
        assert open[..i + 1][..i] == open[..i];
        var charged := Charged(obligations, open[i], o.since, now, timing.maxOffers);
        obligations := obligations[open[i].id := charged];
        if charged.offers < timing.maxOffers {
          again := true;
        }
      }
      assert open[..|open|] == open;
    }

    /** Waits for the earlier watcher's run: one look after another until the wait ends. */
    method AwaitRun(polls: seq<Poll>, until: int) returns (end: Poll)
      requires polls != [] && EndsWait(polls[|polls| - 1], until)
      ensures end == WaitEnd(polls, until) && EndsWait(end, until)
    {
      var i := 0;
      while !EndsWait(polls[i], until)
        invariant i < |polls| && WaitEnd(polls, until) == WaitEnd(polls[i..], until)
        decreases |polls| - i
      {
        assert polls[i..][1..] == polls[i + 1..];
        i := i + 1;
      }
      end := polls[i];
    }

    /** What became of the run an earlier watcher left, and whether this one stops it. */
    method JudgeOrphan(first: Life, polls: seq<Poll>) returns (fate: Fate, killed: bool)
      requires Looked(View(), polls, timing)
      ensures fate == OrphanFate(View(), generation, first, polls, timing)
      ensures killed <==> Kills(View(), generation, first, polls, timing)
    {
      if activeRun.None? {
        return Over, false;
      }
      var run, life := activeRun.value, first;
      if life == Unknown && halted.Some? && halted.value.pid == Some(run.pid) && halted.value.generation != generation {
        life := Dead;
      }
      if life == Dead {
        return Over, false;
      }
      var until := run.startedAt + timing.runTimeoutMs + timing.orphanGraceMs;
      var end := AwaitRun(polls, until);
      if end.life == Alive && end.now >= until {
        return Over, true;
      } else if end.life == Unknown && !end.stopped {
        return Unidentified(run.pid), false;
      }
      fate, killed := if end.life == Dead then Over else CutShort, false;
    }

    /** From the start of the loop to its first `save`; true when the cursor goes back to the unsettled offer's. */
    method Begin(fate: Fate, cursor: nat, answered: Answers, now: int) returns (putBack: bool)
      modifies this
      ensures Changed(View(), putBack) == Restart(old(View()), generation, fate, cursor, answered, now, timing)
    {
      putBack := SettleUnsettled(fate, cursor, answered, now);
      HoldOn(fate);
    }

    method SettleUnsettled(fate: Fate, cursor: nat, answered: Answers, now: int) returns (putBack: bool)
      modifies this`obligations
      ensures Settled(obligations, putBack) == SettleLeft(old(View()), fate, cursor, answered, now, timing.maxOffers)
    {
      putBack := false;
      if offer.Some? && !fate.Unidentified? {
        putBack := SettleOffer(offer.value, cursor != offer.value.before, true, answered, now);
      }
    }

    method HoldOn(fate: Fate)
      modifies this
      ensures View() == Resume(old(View()), generation, fate, old(obligations))
    {
      if fate.Unidentified? {
        halted := Some(Halt(generation, Some(fate.pid)));
      } else {
        offer, activeRun := None, None;
      }
      LiftPause();
      noProgress, capped, busy := 0, false, false;
      if halted.Some? && halted.value.generation != generation {
        halted := None;
      }
    }

    /** Only a hard pause under this binding outlasts a restart. */
    method LiftPause()
      modifies this`paused, this`backoffUntil
      ensures var hard := old(paused).Some? && old(paused).value.hard && Held(old(paused).value.generation, generation);
        paused == (if hard then old(paused) else None) && backoffUntil == (if hard then old(backoffUntil) else None)
    {
      if !(paused.Some? && paused.value.hard && Held(paused.value.generation, generation)) {
        paused, backoffUntil := None, None;
      }
    }

    method Prune(now: int)
      modifies this`wakes
      ensures wakes == Pruned(old(wakes), now)
    {
      var kept := [];
      for i := 0 to |wakes|
        invariant wakes == old(wakes)
        invariant kept == Pruned(wakes[..i], now)
      {
        assert wakes[..i + 1][..i] == wakes[..i];
        if wakes[i] > now - HOUR {
          kept := kept + [wakes[i]];
        }
      }
      assert wakes[..|wakes|] == wakes;
      wakes := kept;
    }

    method FirstOffered(items: seq<Item>, started: int) returns (since: int)
      ensures since == Since(items, obligations, started)
    {
      since := started;
      for i := 0 to |items|
        invariant since == Since(items[..i], obligations, started)
      {
        assert items[..i + 1][..i] == items[..i];
        if items[i].id in obligations && obligations[items[i].id].since < since {
          since := obligations[items[i].id].since;
        }
      }
      assert items[..|items|] == items;
    }

    /** One iteration of the loop; true when it dispatches a wake, whose offer is written down by then. */
    method Turn(look: Look) returns (wakesNow: bool, reoffered: Option<nat>)
      modifies this
      ensures Iteration(View(), wakesNow, reoffered) == Iterate(old(View()), maxWakesPerHour, look)
    {
      if halted.Some? || !look.ready || look.gate.LiveHolds? {
        return false, None;
      }
      reoffered := look.gate.reoffer;
      if !look.work || (backoffUntil.Some? && look.now < backoffUntil.value) {
        return false, reoffered;
      }
      Prune(look.now);
      if |wakes| >= maxWakesPerHour || look.agentFull {
        capped := true;
        return false, reoffered;
      }
      if !look.asked.Turn? {
        if look.asked.HeldElsewhere? {
          busy := true;
        }
        return false, reoffered;
      }
      if !look.begin {
        return false, reoffered;
      }
      capped := false;
      var since := FirstOffered(look.items, look.started);
      offer := Some(Offer(look.started, look.cursor, look.items, since));
      wakes := wakes + [look.started];
      wakesNow := true;
    }

    /** What the loop makes of a run that ended; true when the cursor goes back to the offer's. */
    method RunEnded(o: Outcome, progress: bool, handled: bool, ended: int, answered: Answers) returns (putBack: bool)
      requires offer.Some?
      modifies this
      ensures Changed(View(), putBack) == Finish(old(View()), generation, o, progress, handled, ended, answered, timing)
    {
      if o.busy && !progress {
        activeRun, offer := None, None;
        busy, backoffUntil := true, Some(ended + timing.busyRetryMs);
        return false;
      }
      putBack := SettleOffer(offer.value, progress, Hard(o) || Failed(o), answered, ended);
      AfterSettling(o, progress, handled, ended, putBack);
    }

    method AfterSettling(o: Outcome, progress: bool, handled: bool, ended: int, reoffered: bool)
      modifies this
      ensures View() == Judge(old(View()), generation, o, progress, handled, ended, Settled(old(obligations), reoffered), timing)
    {
      activeRun, offer, busy := None, None, false;
      if o.confinementBroken || o.approvalWall {
        noProgress, paused, backoffUntil := 0, Some(Pause(true, Some(generation))), Some(MAX_SAFE);
        return;
      }
      if o.coordination {
        halted := Some(Halt(generation, None));
        return;
      }
      if progress && !reoffered && (!Failed(o) || handled) {
        noProgress, backoffUntil, paused := 0, None, None;
        return;
      }
      noProgress := noProgress + 1;
      if noProgress >= timing.maxNoProgress {
        paused, backoffUntil := Some(Pause(false, None)), Some(ended + timing.pausedRetryMs);
        return;
      }
      backoffUntil := Some(ended + timing.backoffMs * Pow2(noProgress - 1));
    }
  }
}
