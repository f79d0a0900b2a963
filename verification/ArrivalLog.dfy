/**
 * The logs of changes a device holds, in the order they arrived, and their cursors: `boardCursor`, `decisionCursor`,
 * `madeDecisionOp`, `storeOps`, `storeDecisionOps`, `compactDecisionLog` and `compactStoredDecisions` in
 * server/browser-agent.ts.
 *
 * A store writes up to three files, one after the other: the cursor, the spent ids, the log. The process may stop between any
 * two. What compaction keeps is any part of the log, in any order, but for the own change whose store it is part of:
 * `compactDecisions` keeps every decision and each member's latest vote, and an own vote is made the latest.
 */
module ArrivalLog {
  import opened Wrappers

  type Id = nat
  type Member = nat

  /** A change as it comes, and as it is stored: with the number of its arrival. */
  datatype Packet = Packet(id: Id, member: Member)
  datatype Op = Op(id: Id, member: Member, num: nat)

  /** The two kinds of log: past how many changes it is compacted, and whether the ids of own changes stay spent. */
  datatype Kind = Kind(full: nat, spends: bool)

  const BOARD := Kind(1_000, false)
  const DECISIONS := Kind(2_000, true)

  datatype Disk = Disk(ops: seq<Op>, cursor: nat, done: set<Id>)

  /** Arrivals so far: by the cursor's file, or by the last change in the log. */
  function Cursor(d: Disk): nat {
    var last := if d.ops == [] then 0 else d.ops[|d.ops| - 1].num;
    if last > d.cursor then last else d.cursor
  }

  predicate Held(ops: seq<Op>, id: Id) {
    exists i :: 0 <= i < |ops| && ops[i].id == id
  }

  predicate Made(d: Disk, id: Id) {
    Held(d.ops, id) || id in d.done
  }

  function Numbered(added: seq<Packet>, from: nat): seq<Op> {
    seq(|added|, i requires 0 <= i < |added| => Op(added[i].id, added[i].member, from + 1 + i))
  }

  /** The packets whose ids the log doesn't hold, each id once. */
  function Unknown(ops: seq<Op>, packets: seq<Packet>): seq<Packet> {
    if packets == [] then []
    else
      var most, last := Unknown(ops, packets[..|packets| - 1]), packets[|packets| - 1];
      if Held(ops, last.id) || (exists i :: 0 <= i < |most| && most[i].id == last.id) then most else most + [last]
  }

  /** A part of the log, in any order. */
  ghost predicate PartOf(kept: seq<Op>, ops: seq<Op>) {
    multiset(kept) <= multiset(ops)
  }

  /** The ids of `member`'s changes that compaction dropped; without a member, none. */
  function Dropped(ops: seq<Op>, kept: seq<Op>, member: Option<Member>): set<Id> {
    set i | 0 <= i < |ops| && !Held(kept, ops[i].id) && Some(ops[i].member) == member :: ops[i].id
  }

  /**
   * What is still to be written, in this order: the cursor, more spent ids, the log. `own`: the id of the own change in it
   * that is being made.
   */
  datatype Plan = Plan(cursor: Option<nat>, done: set<Id>, ops: seq<Op>, own: Option<Id>)

  datatype Task =
    | CompactIfFull(member: Option<Member>)
    | Keep(packets: seq<Packet>, member: Option<Member>)
    | KeepOwn(id: Id, me: Member, member: Option<Member>)

  function Compacting(kind: Kind, cursor: nat, ops: seq<Op>, kept: seq<Op>, member: Option<Member>, own: Option<Id>): Plan {
    Plan(Some(cursor), if kind.spends then Dropped(ops, kept, member) else {}, kept, own)
  }

  function Storing(kind: Kind, d: Disk, added: seq<Packet>, kept: seq<Op>, member: Option<Member>, own: Option<Id>): Plan {
    var next := d.ops + Numbered(added, Cursor(d));
    if |next| > kind.full then Compacting(kind, Cursor(d) + |added|, next, kept, member, own) else Plan(None, {}, next, own)
  }

  /** The log a task would compact. */
  function Long(d: Disk, task: Task): seq<Op> {
    match task
    case CompactIfFull(_) => d.ops
    case Keep(packets, _) => d.ops + Numbered(Unknown(d.ops, packets), Cursor(d))
    case KeepOwn(id, me, _) => d.ops + Numbered([Packet(id, me)], Cursor(d))
  }

  /** What a task writes, if anything; `kept` is what its compaction keeps, if it compacts. */
  function PlanOf(kind: Kind, d: Disk, task: Task, kept: seq<Op>): Option<Plan> {
    match task
    case CompactIfFull(member) =>
      if |d.ops| <= kind.full then None else Some(Compacting(kind, Cursor(d), d.ops, kept, member, None))
    case Keep(packets, member) =>
      var added := Unknown(d.ops, packets);
      if added == [] then None else Some(Storing(kind, d, added, kept, member, None))
    case KeepOwn(id, me, member) => Some(Storing(kind, d, [Packet(id, me)], kept, member, Some(id)))
  }

  /** The disk once all of the plan is written. */
  function Landed(d: Disk, p: Plan): Disk {
    Disk(p.ops, if p.cursor.Some? then p.cursor.value else d.cursor, d.done + p.done)
  }

  /**
   * The device's process: what it has still to do and to write. `signed`: the own requests stored as signed changes, in order;
   * `ever`: every change that was ever in the log; `came`: the ids of the changes others sent.
   */
  datatype World = World(disk: Disk, tasks: seq<Task>, plan: Option<Plan>, signed: seq<Id>, ever: set<Op>, came: set<Id>)

  datatype Step =
    | Receive(packets: seq<Packet>, member: Option<Member>)
    /** An own request: made only if it wasn't yet. */
    | Share(id: Id, me: Member, member: Option<Member>)
    | CompactAtStart(member: Option<Member>)
    /** The process takes up its next task, or writes its next file. */
    | Go(kept: seq<Op>)
    /** The process stops, or gives up what it was at. */
    | Stop

  predicate Idle(w: World) {
    w.tasks == [] && w.plan.None?
  }

  /** A store of an own change keeps it through its own compaction. */
  predicate KeepsOwn(kind: Kind, d: Disk, task: Task, kept: seq<Op>) {
    kind.spends && task.KeepOwn? && |Long(d, task)| > kind.full ==> Held(kept, task.id)
  }

  ghost predicate Enabled(kind: Kind, w: World, s: Step) {
    match s
    case Receive(_, _) => Idle(w)
    case Share(id, _, _) => Idle(w) && !Made(w.disk, id)
    case CompactAtStart(_) => Idle(w)
    case Go(kept) =>
      w.plan.Some? || (w.tasks != [] && PartOf(kept, Long(w.disk, w.tasks[0])) && KeepsOwn(kind, w.disk, w.tasks[0], kept))
    case Stop => true
  }

  function Write(w: World): World
    requires w.plan.Some?
  {
    var p := w.plan.value;
    if p.cursor.Some? then w.(disk := w.disk.(cursor := p.cursor.value), plan := Some(p.(cursor := None)))
    else if p.done != {} then w.(disk := w.disk.(done := w.disk.done + p.done), plan := Some(p.(done := {})))
    else World(w.disk.(ops := p.ops), w.tasks, None, w.signed + (if p.own.Some? then [p.own.value] else []),
               w.ever + (set i | 0 <= i < |p.ops| :: p.ops[i]), w.came)
  }

  /** The decision log is compacted, if it grew past its size, before anything is done with it. */
  function First(kind: Kind, member: Option<Member>): seq<Task> {
    if kind.spends then [CompactIfFull(member)] else []
  }

  ghost function Do(kind: Kind, w: World, s: Step): World {
    if !Enabled(kind, w, s) then w else
      match s
      case Receive(packets, member) =>
        w.(tasks := First(kind, member) + [Keep(packets, member)], came := w.came + (set i | 0 <= i < |packets| :: packets[i].id))
      case Share(id, me, member) => w.(tasks := First(kind, member) + [KeepOwn(id, me, member)])
      case CompactAtStart(member) => w.(tasks := First(kind, member))
      case Go(kept) =>
        if w.plan.Some? then Write(w) else w.(tasks := w.tasks[1..], plan := PlanOf(kind, w.disk, w.tasks[0], kept))
      case Stop => w.(tasks := [], plan := None)
  }

  ghost function Exec(kind: Kind, w: World, steps: seq<Step>): World
    decreases |steps|
  {
    if steps == [] then w else Exec(kind, Do(kind, w, steps[0]), steps[1..])
  }

  const Empty := World(Disk([], 0, {}), [], None, [], {}, {})

  // ---- Numbers and cursors ----

  ghost predicate UniqueIds(ops: seq<Op>) {
    forall i, j :: 0 <= i < j < |ops| ==> ops[i].id != ops[j].id
  }

  /** No number was given to two changes. */
  ghost predicate OneEach(ever: set<Op>) {
    forall a, b :: a in ever && b in ever && a.num == b.num ==> a == b
  }

  ghost predicate UpTo(ops: set<Op>, n: nat) {
    forall a :: a in ops ==> a.num <= n
  }

  function Elements(ops: seq<Op>): set<Op> {
    set i | 0 <= i < |ops| :: ops[i]
  }

  /** The plan leaves a log that is in order, and a cursor that isn't behind. */
  ghost predicate PlanFits(d: Disk, ever: set<Op>, p: Plan) {
    && UniqueIds(p.ops)
    && OneEach(ever + Elements(p.ops)) && UpTo(ever + Elements(p.ops), Cursor(Landed(d, p)))
    && Cursor(Landed(d, p)) >= Cursor(d)
    && (p.cursor.Some? ==> p.cursor.value >= Cursor(d))
  }

  ghost predicate InOrder(w: World) {
    && UniqueIds(w.disk.ops)
    && Elements(w.disk.ops) <= w.ever && OneEach(w.ever) && UpTo(w.ever, Cursor(w.disk))
    && (w.plan.Some? ==> PlanFits(w.disk, w.ever, w.plan.value))
    && (forall i :: 0 <= i < |w.tasks| && w.tasks[i].KeepOwn? ==> !Held(w.disk.ops, w.tasks[i].id))
    && (forall i :: 0 <= i < |w.tasks| && w.tasks[i].KeepOwn? && w.plan.Some? ==> !Held(w.plan.value.ops, w.tasks[i].id))
  }

  lemma PartOfMembers(kept: seq<Op>, ops: seq<Op>)
    requires PartOf(kept, ops)
    ensures Elements(kept) <= Elements(ops)
    ensures forall id :: Held(kept, id) ==> Held(ops, id)
  {
    forall i | 0 <= i < |kept| ensures kept[i] in ops {
      assert kept[i] in multiset(kept);
      assert kept[i] in multiset(ops);
    }
  }

  lemma PartOfUnique(kept: seq<Op>, ops: seq<Op>)
    requires PartOf(kept, ops) && UniqueIds(ops)
    ensures UniqueIds(kept)
  {
    forall i, j | 0 <= i < j < |kept| ensures kept[i].id != kept[j].id {
      if kept[i].id == kept[j].id {
        PartOfMembers(kept, ops);
        assert kept[i] in Elements(kept) && kept[j] in Elements(kept);
        var m :| 0 <= m < |ops| && ops[m] == kept[i];
        var n :| 0 <= n < |ops| && ops[n] == kept[j];
        assert m == n;
        Twice(kept, i, j);
        Once(ops, m);
        assert false;
      }
    }
  }

  lemma Twice(s: seq<Op>, i: nat, j: nat)
    requires i < j < |s| && s[i] == s[j]
    ensures multiset(s)[s[i]] >= 2
  {
    assert s == s[..i] + [s[i]] + s[i + 1..j] + [s[j]] + s[j + 1..];
    assert multiset(s) == multiset(s[..i]) + multiset{s[i]} + multiset(s[i + 1..j]) + multiset{s[j]} + multiset(s[j + 1..]);
  }

  lemma Once(s: seq<Op>, m: nat)
    requires m < |s| && UniqueIds(s)
    ensures multiset(s)[s[m]] == 1
  {
    assert s == s[..m] + [s[m]] + s[m + 1..];
    assert multiset(s) == multiset(s[..m]) + multiset{s[m]} + multiset(s[m + 1..]);
    assert s[m] !in s[..m] && s[m] !in s[m + 1..];
  }

  predicate Distinct(added: seq<Packet>) {
    forall i, j :: 0 <= i < j < |added| ==> added[i].id != added[j].id
  }

  lemma {:induction false} UnknownAreFresh(ops: seq<Op>, packets: seq<Packet>)
    ensures Distinct(Unknown(ops, packets))
    ensures forall i :: 0 <= i < |Unknown(ops, packets)| ==> !Held(ops, Unknown(ops, packets)[i].id)
    decreases |packets|
  {
    if packets != [] {
      UnknownAreFresh(ops, packets[..|packets| - 1]);
      var most, last, added := Unknown(ops, packets[..|packets| - 1]), packets[|packets| - 1], Unknown(ops, packets);
      if added != most {
        assert added == most + [last] && !Held(ops, last.id);
        forall i, j | 0 <= i < j < |added| ensures added[i].id != added[j].id {
          assert added[i] == most[i];
        }
      }
    }
  }

  predicate Carries(packets: seq<Packet>, id: Id) {
    exists k :: 0 <= k < |packets| && packets[k].id == id
  }

  /** And none is left out: an id that came is held already, or among them, as it came first. */
  lemma {:induction false} UnknownLeavesNoneOut(ops: seq<Op>, packets: seq<Packet>, id: Id)
    ensures Carries(Unknown(ops, packets), id) <==> Carries(packets, id) && !Held(ops, id)
    ensures forall k :: 0 <= k < |Unknown(ops, packets)| ==> Unknown(ops, packets)[k] in packets
    decreases |packets|
  {
    if packets != [] {
      var n := |packets| - 1;
      var most, last, added := Unknown(ops, packets[..n]), packets[n], Unknown(ops, packets);
      UnknownLeavesNoneOut(ops, packets[..n], id);
      UnknownLeavesNoneOut(ops, packets[..n], last.id);
      assert packets == packets[..n] + [last];
      if Carries(packets[..n], id) {
        var k :| 0 <= k < n && packets[..n][k].id == id;
        assert packets[k].id == id;
      }
      if Carries(most, id) {
        var k :| 0 <= k < |most| && most[k].id == id;
        assert added[k].id == id;
      }
      if added != most {
        assert added[|most|] == last;
      }
    }
  }

  /** A whole store that isn't stopped, of changes that came. */
  function StoreReceived(packets: seq<Packet>, member: Option<Member>, kept: seq<Op>): seq<Step> {
    [Receive(packets, member), Go(kept), Go([]), Go([])]
  }

  /**
   * What such a store comes to on a board that isn't full: every change that came is in the log, behind what was there, at the next
   * numbers; past the size what the compaction kept is there instead, with the cursor behind all of them.
   */
  lemma ReceivedIsStored(w: World, packets: seq<Packet>, member: Option<Member>, kept: seq<Op>, id: Id)
    requires Idle(w) && PartOf(kept, w.disk.ops + Numbered(Unknown(w.disk.ops, packets), Cursor(w.disk)))
    ensures var v := Exec(BOARD, w, StoreReceived(packets, member, kept));
      var news := Unknown(w.disk.ops, packets);
      && Idle(v)
      && (|w.disk.ops| + |news| <= 1_000 || news == [] ==>
            && v.disk.ops == w.disk.ops + Numbered(news, Cursor(w.disk))
            && (Carries(packets, id) ==> Held(v.disk.ops, id)))
      && (|w.disk.ops| + |news| > 1_000 && news != [] ==> v.disk.ops == kept && v.disk.cursor == Cursor(w.disk) + |news|)
  {
    var es, news := StoreReceived(packets, member, kept), Unknown(w.disk.ops, packets);
    var w1 := Do(BOARD, w, es[0]);
    assert w1.tasks == [Keep(packets, member)] && w1.tasks[1..] == [];
    var w2 := Do(BOARD, w1, es[1]);
    var w3 := Do(BOARD, w2, es[2]);
    BoardSteps(w, es[0], es[1], es[2], es[3]);
    UnknownLeavesNoneOut(w.disk.ops, packets, id);
    if |w.disk.ops| + |news| <= 1_000 && Carries(packets, id) {
      HeldBehind(w.disk.ops, news, Cursor(w.disk), id);
    }
    if news == [] {
      assert Numbered(news, Cursor(w.disk)) == [] && w.disk.ops + [] == w.disk.ops;
    }
  }

  lemma HeldBehind(ops: seq<Op>, news: seq<Packet>, from: nat, id: Id)
    ensures Held(ops, id) || Carries(news, id) ==> Held(ops + Numbered(news, from), id)
  {
    var next := ops + Numbered(news, from);
    if Held(ops, id) {
      var i :| 0 <= i < |ops| && ops[i].id == id;
      assert next[i].id == id;
    } else if Carries(news, id) {
      var k :| 0 <= k < |news| && news[k].id == id;
      assert next[|ops| + k].id == id;
    }
  }

  lemma BoardSteps(w: World, a: Step, b: Step, c: Step, d: Step)
    ensures Exec(BOARD, w, [a, b, c, d]) == Do(BOARD, Do(BOARD, Do(BOARD, Do(BOARD, w, a), b), c), d)
  {
    var w1 := Do(BOARD, w, a);
    var w2 := Do(BOARD, w1, b);
    var w3 := Do(BOARD, w2, c);
    assert [a, b, c, d][1..] == [b, c, d] && [b, c, d][1..] == [c, d] && [c, d][1..] == [d] && [d][1..] == [];
    assert Exec(BOARD, w, [a, b, c, d]) == Exec(BOARD, w1, [b, c, d]) == Exec(BOARD, w2, [c, d]) == Exec(BOARD, w3, [d])
      == Exec(BOARD, Do(BOARD, w3, d), []);
  }

  /** Appending at the next numbers keeps the log in order, and the cursor at its end. */
  lemma AppendFits(d: Disk, ever: set<Op>, added: seq<Packet>)
    requires UniqueIds(d.ops) && Elements(d.ops) <= ever && OneEach(ever) && UpTo(ever, Cursor(d)) && added != []
    requires Distinct(added) && forall i :: 0 <= i < |added| ==> !Held(d.ops, added[i].id)
    ensures var next := d.ops + Numbered(added, Cursor(d));
      && UniqueIds(next) && OneEach(ever + Elements(next)) && UpTo(ever + Elements(next), Cursor(d) + |added|)
      && next[|next| - 1].num == Cursor(d) + |added|
  {
    var next := d.ops + Numbered(added, Cursor(d));
    AppendIsUnique(d, added);
    forall a | a in Elements(next) ensures a in ever || exists k :: 0 <= k < |added| && a == Numbered(added, Cursor(d))[k] {
      AppendedIs(d, added, a);
    }
  }

  lemma AppendIsUnique(d: Disk, added: seq<Packet>)
    requires UniqueIds(d.ops) && Distinct(added) && forall i :: 0 <= i < |added| ==> !Held(d.ops, added[i].id)
    ensures UniqueIds(d.ops + Numbered(added, Cursor(d)))
  {
    hide Cursor;
    var next, n := d.ops + Numbered(added, Cursor(d)), |d.ops|;
    forall i, j | 0 <= i < j < |next| ensures next[i].id != next[j].id {
      if j >= n {
        assert next[j].id == added[j - n].id;
        if i >= n {
          assert next[i].id == added[i - n].id;
        } else {
          assert next[i] == d.ops[i];
        }
      }
    }
  }

  lemma AppendedIs(d: Disk, added: seq<Packet>, a: Op)
    requires a in Elements(d.ops + Numbered(added, Cursor(d)))
    ensures a in Elements(d.ops) || exists k :: 0 <= k < |added| && a == Numbered(added, Cursor(d))[k]
  {
    hide Cursor;
    var next, n := d.ops + Numbered(added, Cursor(d)), |d.ops|;
    var i :| 0 <= i < |next| && next[i] == a;
    if i >= n {
      assert a == Numbered(added, Cursor(d))[i - n];
    } else {
      assert d.ops[i] in Elements(d.ops);
    }
  }

  lemma StoringFits(kind: Kind, d: Disk, ever: set<Op>, added: seq<Packet>, kept: seq<Op>, member: Option<Member>, own: Option<Id>)
    requires UniqueIds(d.ops) && Elements(d.ops) <= ever && OneEach(ever) && UpTo(ever, Cursor(d)) && added != []
    requires Distinct(added) && forall i :: 0 <= i < |added| ==> !Held(d.ops, added[i].id)
    requires PartOf(kept, d.ops + Numbered(added, Cursor(d)))
    ensures PlanFits(d, ever, Storing(kind, d, added, kept, member, own))
  {
    var next := d.ops + Numbered(added, Cursor(d));
    AppendFits(d, ever, added);
    if |next| > kind.full {
      PartOfMembers(kept, next);
      PartOfUnique(kept, next);
      assert kept != [] ==> kept[|kept| - 1] in Elements(kept);
    }
  }

  lemma CompactingFits(kind: Kind, d: Disk, ever: set<Op>, kept: seq<Op>, member: Option<Member>)
    requires UniqueIds(d.ops) && Elements(d.ops) <= ever && OneEach(ever) && UpTo(ever, Cursor(d)) && PartOf(kept, d.ops)
    ensures PlanFits(d, ever, Compacting(kind, Cursor(d), d.ops, kept, member, None))
  {
    PartOfMembers(kept, d.ops);
    PartOfUnique(kept, d.ops);
    assert ever + Elements(kept) == ever;
    assert kept != [] ==> kept[|kept| - 1] in Elements(kept);
  }

  lemma WriteKeepsOrder(w: World)
    requires InOrder(w) && w.plan.Some?
    ensures InOrder(Write(w)) && Cursor(Write(w).disk) >= Cursor(w.disk)
  {
    var p, v := w.plan.value, Write(w);
    if p.cursor.Some? {
      assert Landed(v.disk, v.plan.value) == Landed(w.disk, p);
    } else if p.done != {} {
      assert Landed(v.disk, v.plan.value) == Landed(w.disk, p);
    } else {
      assert Elements(p.ops) == (set i | 0 <= i < |p.ops| :: p.ops[i]);
    }
  }

  lemma TakeUpKeepsOrder(kind: Kind, w: World, kept: seq<Op>)
    requires InOrder(w) && w.plan.None? && w.tasks != [] && PartOf(kept, Long(w.disk, w.tasks[0]))
    requires |w.tasks| > 1 ==> w.tasks[0].CompactIfFull?
    ensures InOrder(Do(kind, w, Go(kept)))
  {
    var task := w.tasks[0];
    match task
    case CompactIfFull(member) =>
      CompactingFits(kind, w.disk, w.ever, kept, member);
      PartOfMembers(kept, w.disk.ops);
    case Keep(packets, member) =>
      UnknownAreFresh(w.disk.ops, packets);
      if Unknown(w.disk.ops, packets) != [] {
        StoringFits(kind, w.disk, w.ever, Unknown(w.disk.ops, packets), kept, member, None);
      }
    case KeepOwn(id, me, member) =>
      StoringFits(kind, w.disk, w.ever, [Packet(id, me)], kept, member, Some(id));
  }

  /** A process is at most at a compaction and one store after it. */
  predicate Orderly(w: World) {
    && |w.tasks| <= 2 && (|w.tasks| == 2 ==> w.tasks[0].CompactIfFull? && w.plan.None?)
    && (w.plan.Some? && w.plan.value.own.Some? ==> w.tasks == [])
  }

  ghost predicate Inv(w: World) {
    InOrder(w) && Orderly(w)
  }

  lemma StepKeepsInv(kind: Kind, w: World, s: Step)
    requires Inv(w)
    ensures Inv(Do(kind, w, s)) && Cursor(Do(kind, w, s).disk) >= Cursor(w.disk)
  {
    hide PlanFits, UniqueIds, OneEach, UpTo, Elements, Unknown, Numbered, PartOf, KeepsOwn;
    if Enabled(kind, w, s) && s.Go? {
      if w.plan.Some? {
        WriteKeepsOrder(w);
      } else {
        TakeUpKeepsOrder(kind, w, s.kept);
      }
    }
  }

  lemma {:induction false} RunKeepsInv(kind: Kind, w: World, steps: seq<Step>)
    requires Inv(w)
    ensures Inv(Exec(kind, w, steps)) && Cursor(Exec(kind, w, steps).disk) >= Cursor(w.disk)
    decreases |steps|
  {
    if steps != [] {
      StepKeepsInv(kind, w, steps[0]);
      RunKeepsInv(kind, Do(kind, w, steps[0]), steps[1..]);
    }
  }

  lemma {:induction false} ExecJoins(kind: Kind, w: World, first: seq<Step>, second: seq<Step>)
    ensures Exec(kind, w, first + second) == Exec(kind, Exec(kind, w, first), second)
    decreases |first|
  {
    if first == [] {
      assert first + second == second;
    } else {
      assert (first + second)[1..] == first[1..] + second;
      ExecJoins(kind, Do(kind, w, first[0]), first[1..], second);
    }
  }

  /**
   * In every run, of changes received and own ones made, of compactions that keep anything, with stops between any two
   * writes: the cursor never goes back, and no number is given to two changes that were ever in the log.
   */
  lemma CursorsAndNumbers(kind: Kind, first: seq<Step>, more: seq<Step>, a: Op, b: Op)
    ensures var w, v := Exec(kind, Empty, first), Exec(kind, Empty, first + more);
      && Cursor(v.disk) >= Cursor(w.disk)
      && (a in v.ever && b in v.ever && a.num == b.num ==> a == b)
      && (a in v.ever ==> a.num <= Cursor(v.disk))
  {
    RunKeepsInv(kind, Empty, first);
    RunKeepsInv(kind, Exec(kind, Empty, first), more);
    ExecJoins(kind, Empty, first, more);
  }

  // ---- Own requests ----

  predicate HeldBy(ops: seq<Op>, id: Id, me: Member) {
    exists i :: 0 <= i < |ops| && ops[i].id == id && ops[i].member == me
  }

  /** The device knows the change made: it is in the log as its own, or its id is spent. */
  predicate Spent(d: Disk, id: Id, me: Member) {
    id in d.done || HeldBy(d.ops, id, me)
  }

  predicate NoneTwice(ids: seq<Id>) {
    forall i, j :: 0 <= i < j < |ids| ==> ids[i] != ids[j]
  }

  /** The member id is the same, and known, whenever anything is stored or compacted. */
  predicate Fixed(s: Step, me: Member) {
    match s
    case Receive(_, member) => member == Some(me)
    case Share(_, author, member) => author == me && member == Some(me)
    case CompactAtStart(member) => member == Some(me)
    case Go(_) => true
    case Stop => true
  }

  predicate TaskFixed(t: Task, me: Member) {
    t.member == Some(me) && (t.KeepOwn? ==> t.me == me)
  }

  ghost predicate Signing(w: World, me: Member) {
    && Inv(w) && NoneTwice(w.signed)
    && (forall id :: id in w.signed ==> Spent(w.disk, id, me))
    && (forall i :: 0 <= i < |w.tasks| ==> TaskFixed(w.tasks[i], me) && (w.tasks[i].KeepOwn? ==> w.tasks[i].id !in w.signed))
    && (w.plan.Some? ==> PlanSpends(w.disk, w.plan.value, w.signed, me))
  }

  ghost predicate PlanSpends(d: Disk, p: Plan, signed: seq<Id>, me: Member) {
    && (forall id :: id in signed ==> Spent(Landed(d, p), id, me))
    && (p.own.Some? ==> p.own.value !in signed && Spent(Landed(d, p), p.own.value, me))
  }

  /** Compaction for the member keeps its changes known: kept, or spent. */
  lemma CompactingSpends(ops: seq<Op>, kept: seq<Op>, id: Id, me: Member)
    requires UniqueIds(ops) && PartOf(kept, ops) && HeldBy(ops, id, me)
    ensures HeldBy(kept, id, me) || id in Dropped(ops, kept, Some(me))
  {
    var i :| 0 <= i < |ops| && ops[i].id == id && ops[i].member == me;
    if Held(kept, id) {
      PartOfMembers(kept, ops);
      var k :| 0 <= k < |kept| && kept[k].id == id;
      assert kept[k] in Elements(kept);
      var j :| 0 <= j < |ops| && ops[j] == kept[k];
      assert j == i;
    }
  }

  /** After a compaction a change held before is still known exactly if it was kept, or spent, or is the member's own. */
  lemma KnownAfterCompaction(d: Disk, kept: seq<Op>, member: Option<Member>, id: Id, author: Member)
    requires UniqueIds(d.ops) && PartOf(kept, d.ops) && HeldBy(d.ops, id, author)
    ensures Made(Landed(d, Compacting(DECISIONS, Cursor(d), d.ops, kept, member, None)), id) <==>
      Held(kept, id) || id in d.done || member == Some(author)
  {
    CompactingSpends(d.ops, kept, id, author);
    var i :| 0 <= i < |d.ops| && d.ops[i].id == id && d.ops[i].member == author;
    assert forall j :: 0 <= j < |d.ops| && d.ops[j].id == id ==> j == i;
  }

  lemma CompactionSpends(d: Disk, signed: seq<Id>, kept: seq<Op>, me: Member)
    requires UniqueIds(d.ops) && PartOf(kept, d.ops) && forall id :: id in signed ==> Spent(d, id, me)
    ensures PlanSpends(d, Compacting(DECISIONS, Cursor(d), d.ops, kept, Some(me), None), signed, me)
  {
    forall id | id in signed ensures Spent(Landed(d, Compacting(DECISIONS, Cursor(d), d.ops, kept, Some(me), None)), id, me) {
      if id !in d.done {
        CompactingSpends(d.ops, kept, id, me);
      }
    }
  }

  lemma AppendHolds(ops: seq<Op>, more: seq<Op>, id: Id, me: Member)
    requires HeldBy(ops, id, me) || HeldBy(more, id, me)
    ensures HeldBy(ops + more, id, me)
  {
    if HeldBy(ops, id, me) {
      var i :| 0 <= i < |ops| && ops[i].id == id && ops[i].member == me;
      assert (ops + more)[i] == ops[i];
    } else {
      var i :| 0 <= i < |more| && more[i].id == id && more[i].member == me;
      assert (ops + more)[|ops| + i] == more[i];
    }
  }

  lemma StoringSpends(d: Disk, signed: seq<Id>, added: seq<Packet>, kept: seq<Op>, me: Member, own: Option<Id>)
    requires UniqueIds(d.ops + Numbered(added, Cursor(d))) && PartOf(kept, d.ops + Numbered(added, Cursor(d)))
    requires forall id :: id in signed ==> Spent(d, id, me)
    requires own.Some? ==> own.value !in signed && added == [Packet(own.value, me)]
    ensures PlanSpends(d, Storing(DECISIONS, d, added, kept, Some(me), own), signed, me)
  {
    var more := Numbered(added, Cursor(d));
    var next, p := d.ops + more, Storing(DECISIONS, d, added, kept, Some(me), own);
    forall id | id in signed || own == Some(id) ensures Spent(Landed(d, p), id, me) {
      if own == Some(id) {
        assert more[0].id == id && more[0].member == me;
      }
      if id !in d.done || own == Some(id) {
        AppendHolds(d.ops, more, id, me);
        if |next| > DECISIONS.full {
          CompactingSpends(next, kept, id, me);
        }
      }
    }
  }

  lemma TakeUpSpends(w: World, kept: seq<Op>, me: Member)
    requires Signing(w, me) && w.plan.None? && w.tasks != [] && PartOf(kept, Long(w.disk, w.tasks[0]))
    ensures var v := Do(DECISIONS, w, Go(kept)); v.plan.Some? ==> PlanSpends(v.disk, v.plan.value, v.signed, me)
  {
    var d, task := w.disk, w.tasks[0];
    assert TaskFixed(task, me);
    match task
    case CompactIfFull(_) =>
      CompactionSpends(d, w.signed, kept, me);
    case Keep(packets, _) =>
      var added := Unknown(d.ops, packets);
      UnknownAreFresh(d.ops, packets);
      if added != [] {
        AppendFits(d, w.ever, added);
        StoringSpends(d, w.signed, added, kept, me, None);
      }
    case KeepOwn(id, _, _) =>
      AppendFits(d, w.ever, [Packet(id, me)]);
      StoringSpends(d, w.signed, [Packet(id, me)], kept, me, Some(id));
  }

  lemma WriteSpends(w: World, me: Member)
    requires Signing(w, me) && w.plan.Some?
    ensures Signing(Write(w), me)
  {
    WriteKeepsOrder(w);
    var p, v := w.plan.value, Write(w);
    if p.cursor.Some? || p.done != {} {
      assert Landed(v.disk, v.plan.value) == Landed(w.disk, p);
    } else {
      assert v.disk == Landed(w.disk, p);
    }
  }

  lemma StepSpends(w: World, s: Step, me: Member)
    requires Signing(w, me) && Fixed(s, me)
    ensures Signing(Do(DECISIONS, w, s), me)
  {
    StepKeepsInv(DECISIONS, w, s);
    if Enabled(DECISIONS, w, s) && s.Go? {
      if w.plan.Some? {
        WriteSpends(w, me);
      } else {
        TakeUpSpends(w, s.kept, me);
      }
    }
  }

  lemma {:induction false} RunSpends(w: World, steps: seq<Step>, me: Member)
    requires Signing(w, me) && forall i :: 0 <= i < |steps| ==> Fixed(steps[i], me)
    ensures Signing(Exec(DECISIONS, w, steps), me)
    decreases |steps|
  {
    if steps != [] {
      StepSpends(w, steps[0], me);
      RunSpends(Do(DECISIONS, w, steps[0]), steps[1..], me);
    }
  }

  /**
   * With a fixed member id, in every run, with stops between any two writes and compactions that keep anything: a request's
   * id is stored as a signed change at most once, and once it was, the device knows it for good.
   */
  lemma SignedOnce(steps: seq<Step>, me: Member)
    requires forall i :: 0 <= i < |steps| ==> Fixed(steps[i], me)
    ensures var w := Exec(DECISIONS, Empty, steps);
      NoneTwice(w.signed) && forall id :: id in w.signed ==> Made(w.disk, id)
  {
    RunSpends(Empty, steps, me);
    var w := Exec(DECISIONS, Empty, steps);
    forall id | id in w.signed ensures Made(w.disk, id) {
      assert Spent(w.disk, id, me);
    }
  }

  /** Four steps from a world are four steps. */
  lemma FourSteps(w: World, a: Step, b: Step, c: Step, d: Step)
    ensures Exec(DECISIONS, w, [a, b, c, d]) == Do(DECISIONS, Do(DECISIONS, Do(DECISIONS, Do(DECISIONS, w, a), b), c), d)
  {
    var k := DECISIONS;
    var w1 := Do(k, w, a);
    var w2 := Do(k, w1, b);
    var w3 := Do(k, w2, c);
    assert [a, b, c, d][1..] == [b, c, d] && [b, c, d][1..] == [c, d] && [c, d][1..] == [d] && [d][1..] == [];
    assert Exec(k, w, [a, b, c, d]) == Exec(k, w1, [b, c, d]) == Exec(k, w2, [c, d]) == Exec(k, w3, [d]) == Exec(k, Do(k, w3, d), []);
  }

  /** A compaction, from its start to its last write, by a process that doesn't know its member id. */
  function CompactUnknowing(kept: seq<Op>): seq<Step> {
    [CompactAtStart(None), Go(kept), Go([]), Go([])]
  }

  /** The member id has to be known: a compaction without it forgets the spent ids of the own changes it drops. */
  lemma CompactionForgets(w: World, kept: seq<Op>, id: Id)
    requires Idle(w) && |w.disk.ops| > 2_000 && PartOf(kept, w.disk.ops) && id in w.signed && id !in w.disk.done && !Held(kept, id)
    ensures var v := Exec(DECISIONS, w, CompactUnknowing(kept));
      Idle(v) && v.signed == w.signed && v.disk == Disk(kept, Cursor(w.disk), w.disk.done) && !Made(v.disk, id)
  {
    var w1 := Do(DECISIONS, w, CompactAtStart(None));
    var w2 := Do(DECISIONS, w1, Go(kept));
    assert w1.tasks == [CompactIfFull(None)] && w1.tasks[1..] == [];
    assert Dropped(w.disk.ops, kept, None) == {};
    assert w2.plan == Some(Plan(Some(Cursor(w.disk)), {}, kept, None));
    FourSteps(w, CompactAtStart(None), Go(kept), Go([]), Go([]));
  }

  /** And then the same request is signed again, by a device that knows its member id again. */
  lemma SignedAgain(w: World, id: Id, me: Member)
    requires Idle(w) && !Made(w.disk, id) && |w.disk.ops| < 2_000
    ensures Exec(DECISIONS, w, [Share(id, me, Some(me)), Go([]), Go([]), Go([])]).signed == w.signed + [id]
  {
    var w1 := Do(DECISIONS, w, Share(id, me, Some(me)));
    assert w1.tasks == [CompactIfFull(Some(me)), KeepOwn(id, me, Some(me))] && w1.tasks[1..] == [KeepOwn(id, me, Some(me))];
    assert PartOf([], Long(w1.disk, w1.tasks[0]));
    var w2 := Do(DECISIONS, w1, Go([]));
    assert w2.plan.None? && w2.tasks == [KeepOwn(id, me, Some(me))] && w2.tasks[1..] == [];
    assert PartOf([], Long(w2.disk, w2.tasks[0]));
    FourSteps(w, Share(id, me, Some(me)), Go([]), Go([]), Go([]));
  }

  // ---- No change is marked made that wasn't ----

  /** The id is of a change stored as signed here, or sent by others. */
  predicate Real(w: World, id: Id) {
    id in w.signed || id in w.came
  }

  ghost predicate AllReal(w: World) {
    && (forall i :: 0 <= i < |w.disk.ops| ==> Real(w, w.disk.ops[i].id))
    && (forall id :: id in w.disk.done ==> Real(w, id))
    && (forall i, k :: 0 <= i < |w.tasks| && w.tasks[i].Keep? && 0 <= k < |w.tasks[i].packets| ==> w.tasks[i].packets[k].id in w.came)
    && (w.plan.Some? ==>
          && (forall id :: id in w.plan.value.done ==> Real(w, id))
          && (forall i :: 0 <= i < |w.plan.value.ops| ==> Real(w, w.plan.value.ops[i].id) || w.plan.value.own == Some(w.plan.value.ops[i].id)))
  }

  lemma {:induction false} UnknownCame(ops: seq<Op>, packets: seq<Packet>, came: set<Id>)
    requires forall k :: 0 <= k < |packets| ==> packets[k].id in came
    ensures forall k :: 0 <= k < |Unknown(ops, packets)| ==> Unknown(ops, packets)[k].id in came
    decreases |packets|
  {
    if packets != [] {
      UnknownCame(ops, packets[..|packets| - 1], came);
    }
  }

  /** The ids of the log a task would compact. */
  lemma LongIsReal(w: World, task: Task, i: nat)
    requires AllReal(w) && w.tasks != [] && task == w.tasks[0] && i < |Long(w.disk, task)|
    ensures Real(w, Long(w.disk, task)[i].id) || (task.KeepOwn? && Long(w.disk, task)[i].id == task.id)
  {
    if task.Keep? {
      UnknownCame(w.disk.ops, task.packets, w.came);
    }
    if i < |w.disk.ops| {
      assert Long(w.disk, task)[i] == w.disk.ops[i];
    }
  }

  lemma TakeUpIsReal(w: World, kept: seq<Op>)
    requires AllReal(w) && w.plan.None? && w.tasks != [] && Enabled(DECISIONS, w, Go(kept))
    ensures AllReal(Do(DECISIONS, w, Go(kept)))
  {
    var task, v := w.tasks[0], Do(DECISIONS, w, Go(kept));
    var long := Long(w.disk, task);
    forall i | 0 <= i < |long| ensures Real(w, long[i].id) || (task.KeepOwn? && long[i].id == task.id) {
      LongIsReal(w, task, i);
    }
    if v.plan.Some? {
      var p := v.plan.value;
      assert p.own == if task.KeepOwn? then Some(task.id) else None;
      assert p.ops == kept || p.ops == long;
      PartOfMembers(kept, long);
      forall i | 0 <= i < |p.ops| ensures Real(w, p.ops[i].id) || p.own == Some(p.ops[i].id) {
        if p.ops == kept {
          assert kept[i] in Elements(kept);
          var k :| 0 <= k < |long| && long[k] == kept[i];
        }
      }
      forall id | id in p.done ensures Real(w, id) {
        assert !Held(kept, id);
        var k :| 0 <= k < |long| && long[k].id == id;
      }
    }
  }

  lemma StepIsReal(w: World, s: Step)
    requires AllReal(w)
    ensures AllReal(Do(DECISIONS, w, s))
  {
    if Enabled(DECISIONS, w, s) && s.Go? && w.plan.None? {
      TakeUpIsReal(w, s.kept);
    }
  }

  lemma {:induction false} RunIsReal(w: World, steps: seq<Step>)
    requires AllReal(w)
    ensures AllReal(Exec(DECISIONS, w, steps))
    decreases |steps|
  {
    if steps != [] {
      StepIsReal(w, steps[0]);
      RunIsReal(Do(DECISIONS, w, steps[0]), steps[1..]);
    }
  }

  /**
   * In every run, with stops between any two writes: the device takes a request for made only if it stored it as a signed change,
   * or others sent a change with its id. So a stop never spends the id of a change that was lost.
   */
  lemma MadeMeansStored(steps: seq<Step>, id: Id)
    ensures var w := Exec(DECISIONS, Empty, steps); Made(w.disk, id) ==> id in w.signed || id in w.came
  {
    RunIsReal(Empty, steps);
    var w := Exec(DECISIONS, Empty, steps);
    if Held(w.disk.ops, id) {
      var i :| 0 <= i < |w.disk.ops| && w.disk.ops[i].id == id;
      assert Real(w, w.disk.ops[i].id);
    }
  }

  /** With a fixed member id both ways: a request no other device sent is taken for made exactly if it was stored here, and once. */
  lemma MadeExactlyIfSigned(steps: seq<Step>, me: Member, id: Id)
    requires forall i :: 0 <= i < |steps| ==> Fixed(steps[i], me)
    ensures var w := Exec(DECISIONS, Empty, steps);
      NoneTwice(w.signed) && (id !in w.came ==> (Made(w.disk, id) <==> id in w.signed))
  {
    MadeMeansStored(steps, id);
    SignedOnce(steps, me);
  }

  // ---- The files, written one after the other ----

  function WritesOf(p: Plan): nat {
    (if p.cursor.Some? then 1 else 0) + (if p.done != {} then 1 else 0) + 1
  }

  /** The disk after the first `n` of a plan's writes, or after all of them. */
  function Partly(d: Disk, p: Plan, n: nat): Disk {
    var toDone := WritesOf(p) - 1;
    Disk(if n > toDone then p.ops else d.ops,
         if p.cursor.Some? && n > 0 then p.cursor.value else d.cursor,
         if n >= toDone then d.done + p.done else d.done)
  }

  /** The disk of a process that stops after its `n`-th write from here is one the machine reaches by that many writes. */
  lemma {:induction false} PartlyIsReached(w: World, n: nat)
    requires w.plan.Some? && n <= WritesOf(w.plan.value)
    ensures Exec(DECISIONS, w, seq(n, i => Go([]))).disk == Partly(w.disk, w.plan.value, n)
    decreases n
  {
    var p := w.plan.value;
    if n > 0 {
      var gos: seq<Step> := seq(n, i => Go([]));
      var v := Do(DECISIONS, w, Go([]));
      assert gos[0] == Go([]) && gos[1..] == seq(n - 1, i => Go([]));
      if v.plan.Some? {
        PartlyIsReached(v, n - 1);
      }
    }
  }

  /** How many of `n` writes are left after a plan. */
  function LeftOf(n: nat, p: Option<Plan>): nat {
    if p.None? then n else if n > WritesOf(p.value) then n - WritesOf(p.value) else 0
  }

  function PartlyIf(d: Disk, p: Option<Plan>, n: nat): Disk {
    if p.None? then d else Partly(d, p.value, n)
  }

  /** A device's decision log: its three files, and after how many more writes its process stops. */
  class DecisionLog {
    var ops: seq<Op>
    var cursor: nat
    var done: set<Id>
    var left: nat

    function View(): Disk
      reads this
    {
      Disk(ops, cursor, done)
    }

    constructor (left: nat)
      ensures View() == Empty.disk && this.left == left
    {
      ops, cursor, done, this.left := [], 0, {}, left;
    }

    method WriteCursor(n: nat)
      modifies this`cursor, this`left
      ensures if old(left) > 0 then cursor == n && left == old(left) - 1 else cursor == old(cursor) && left == 0
    {
      if left > 0 { cursor, left := n, left - 1; }
    }

    method WriteDone(ids: set<Id>)
      modifies this`done, this`left
      ensures if old(left) > 0 then done == ids && left == old(left) - 1 else done == old(done) && left == 0
    {
      if left > 0 { done, left := ids, left - 1; }
    }

    method WriteOps(next: seq<Op>)
      modifies this`ops, this`left
      ensures if old(left) > 0 then ops == next && left == old(left) - 1 else ops == old(ops) && left == 0
    {
      if left > 0 { ops, left := next, left - 1; }
    }

    /** `compactDecisionLog`: the ids of the member's changes that are dropped are spent. */
    method CompactLog(long: seq<Op>, kept: seq<Op>, member: Option<Member>)
      modifies this`done, this`left
      ensures var dropped := Dropped(long, kept, member);
        if dropped != {} && old(left) > 0 then done == old(done) + dropped && left == old(left) - 1
        else done == old(done) && left == old(left)
    {
      var dropped: set<Id> := {};
      for i := 0 to |long|
        invariant dropped == Dropped(long[..i], kept, member)
      {
        ghost var was := Dropped(long[..i], kept, member);
        if !Held(kept, long[i].id) && Some(long[i].member) == member { dropped := dropped + {long[i].id}; }
        assert Dropped(long[..i + 1], kept, member) == dropped by {
          OneMore(long, i, kept, member);
        }
      }
      assert long[..|long|] == long;
      if dropped != {} { WriteDone(done + dropped); }
    }

    /** `compactStoredDecisions`. */
    method CompactStored(compact: seq<Op> -> seq<Op>, member: Option<Member>)
      modifies this
      ensures var p := PlanOf(DECISIONS, old(View()), CompactIfFull(member), compact(old(ops)));
        View() == PartlyIf(old(View()), p, old(left)) && left == LeftOf(old(left), p)
    {
      if |ops| <= DECISIONS.full { return; }
      var held := ops;
      WriteCursor(Cursor(View()));
      var kept := compact(held);
      CompactLog(held, kept, member);
      WriteOps(kept);
    }

    /** `storeDecisionOps`: the packets at the next numbers, compacted if that makes too many. */
    method StoreOps(added: seq<Packet>, compact: seq<Op> -> seq<Op>, member: Option<Member>, ghost own: Option<Id>)
      modifies this
      ensures var d := old(View());
        var p := Storing(DECISIONS, d, added, compact(d.ops + Numbered(added, Cursor(d))), member, own);
        View() == Partly(d, p, old(left)) && left == LeftOf(old(left), Some(p))
    {
      var from := Cursor(View());
      var next, num := ops, from;
      for i := 0 to |added|
        invariant num == from + i && next == ops + Numbered(added[..i], from)
      {
        num := num + 1;
        next := next + [Op(added[i].id, added[i].member, num)];
        assert Numbered(added[..i + 1], from) == Numbered(added[..i], from) + [Op(added[i].id, added[i].member, from + 1 + i)];
      }
      assert added[..|added|] == added;
      if |next| > DECISIONS.full {
        WriteCursor(num);
        var kept := compact(next);
        CompactLog(next, kept, member);
        next := kept;
      }
      WriteOps(next);
    }

    /** An own request, as `deliverOutbox` makes it: nothing if it was made already. */
    method Share(id: Id, me: Member, compact: seq<Op> -> seq<Op>, member: Option<Member>) returns (making: bool)
      modifies this
      ensures making <==> !Made(old(View()), id)
      ensures !making ==> View() == old(View())
      ensures making ==>
        var first := PlanOf(DECISIONS, old(View()), CompactIfFull(member), compact(old(ops)));
        var mid, n := PartlyIf(old(View()), first, old(left)), LeftOf(old(left), first);
        var second := PlanOf(DECISIONS, mid, KeepOwn(id, me, member), compact(Long(mid, KeepOwn(id, me, member))));
        View() == PartlyIf(mid, second, n)
    {
      making := !Made(View(), id);
      if !making { return; }
      CompactStored(compact, member);
      StoreOps([Packet(id, me)], compact, member, Some(id));
    }
  }

  lemma OneMore(long: seq<Op>, i: nat, kept: seq<Op>, member: Option<Member>)
    requires i < |long|
    ensures Dropped(long[..i + 1], kept, member) == Dropped(long[..i], kept, member) +
      if !Held(kept, long[i].id) && Some(long[i].member) == member then {long[i].id} else {}
  {
    assert long[..i + 1] == long[..i] + [long[i]];
    forall id | id in Dropped(long[..i], kept, member) ensures id in Dropped(long[..i + 1], kept, member) {
      var k :| 0 <= k < i && !Held(kept, long[..i][k].id) && Some(long[..i][k].member) == member && long[..i][k].id == id;
      assert long[..i + 1][k] == long[..i][k];
    }
    if !Held(kept, long[i].id) && Some(long[i].member) == member {
      assert long[..i + 1][i] == long[i];
    }
    forall id | id in Dropped(long[..i + 1], kept, member) && id !in Dropped(long[..i], kept, member)
      ensures !Held(kept, long[i].id) && Some(long[i].member) == member && id == long[i].id
    {
      var k :| 0 <= k < i + 1 && !Held(kept, long[..i + 1][k].id) && Some(long[..i + 1][k].member) == member && long[..i + 1][k].id == id;
    }
  }
}
