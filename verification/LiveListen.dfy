/**
 * The loop of a live listener: `liveListen` in server/agent-live.ts, which attaches, listens in slices, and ends by handing
 * its lease over to a pickup window or by releasing it.
 *
 * What each attempt to attach and each slice meets is an input; what the loop does to the lease and the mailbox is its calls,
 * in order. An input that runs out leaves the loop where it was.
 */
module LiveListen {
  import opened Wrappers
  import opened LiveLease

  const RUNNER_TROUBLE_MS := 600_000

  /** An attempt to attach: its answer (None: the lease lock was busy), and the clock after it. */
  datatype Try = Try(answer: Option<AttachResult>, now: int)

  datatype Slice = RoomClosed | RunnerStopped | Quiet | Work

  /**
   * One round: whether a heartbeat found the lease someone else's, whether the agent was removed, the clock, the cursor before
   * and after the slice, what the slice met, how often the agent had acted then, and the clock after it.
   */
  datatype Round = Round(lost: bool, removed: bool, now: int, before: nat, slice: Slice, after: nat, actions: nat, ended: int)

  datatype Exit = AttachRefused | TimedOut | LeaseLost | Removed | Closed | RunnerGone | GotWork | Listening

  datatype Call = TookLease | Listened(before: nat, after: nat) | Repaired | HandedOver(reoffer: Reoffer) | Released

  // ---- How it attaches ----

  datatype Entry = Entered | NotEntered(exit: Exit)

  /** How one attempt ends the waiting, if it does: a refusal throws, a grant attaches, and a wait past its time gives up. */
  function TryEnds(t: Try, deadline: int): Option<Entry> {
    if t.answer == Some(Refused) then Some(NotEntered(AttachRefused))
    else if t.answer == Some(Granted) then Some(Entered)
    else if deadline - t.now <= 0 then Some(NotEntered(TimedOut))
    else None
  }

  /** It waits on: the lock was busy or a headless wake has the mailbox, and there is time left. */
  predicate WaitsOn(t: Try, deadline: int) {
    (t.answer.None? || t.answer.value.Wait?) && t.now < deadline
  }

  // ---- How it ends ----

  /** When the runner's trouble began that lasts through the first `k` rounds, if it does. */
  function TroubleSince(rounds: seq<Round>, k: nat): Option<int>
    requires k <= |rounds|
  {
    if k == 0 || !rounds[k - 1].slice.RunnerStopped? then None
    else if TroubleSince(rounds, k - 1).Some? then TroubleSince(rounds, k - 1)
    else Some(rounds[k - 1].ended)
  }

  /** A round reads the room unless the lease is lost, the agent removed, or the wait over. */
  predicate Reads(r: Round, deadline: int) {
    !r.lost && !r.removed && deadline - r.now > 0
  }

  /** How a round ends the loop, if it does. */
  function RoundEnds(rounds: seq<Round>, k: nat, deadline: int): Option<Exit>
    requires k < |rounds|
  {
    var r := rounds[k];
    if r.lost then Some(LeaseLost)
    else if r.removed then Some(Removed)
    else if deadline - r.now <= 0 then Some(TimedOut)
    else if r.slice.RoomClosed? then Some(Closed)
    else if r.slice.Work? then Some(GotWork)
    else if r.slice.RunnerStopped? && r.ended - TroubleSince(rounds, k + 1).value >= RUNNER_TROUBLE_MS then Some(RunnerGone)
    else None
  }

  /** The runner was stopped in every round from `i` to `k`, and not in the one before. */
  predicate Streak(rounds: seq<Round>, i: nat, k: nat)
    requires k < |rounds|
  {
    && i <= k && (forall j :: i <= j <= k ==> rounds[j].slice.RunnerStopped?)
    && (i == 0 || !rounds[i - 1].slice.RunnerStopped?)
  }

  lemma {:induction false} TroubleIsAStreak(rounds: seq<Round>, k: nat) returns (i: nat)
    requires k < |rounds| && rounds[k].slice.RunnerStopped?
    ensures Streak(rounds, i, k) && TroubleSince(rounds, k + 1) == Some(rounds[i].ended)
    decreases k
  {
    if k == 0 || !rounds[k - 1].slice.RunnerStopped? {
      i := k;
    } else {
      i := TroubleIsAStreak(rounds, k - 1);
    }
  }

  lemma OneStreak(rounds: seq<Round>, i: nat, j: nat, k: nat)
    requires k < |rounds| && Streak(rounds, i, k) && Streak(rounds, j, k)
    ensures i == j
  {
  }

  /**
   * A gap of the runner ends the listening exactly when it has lasted RUNNER_TROUBLE_MS without a single other answer; nothing
   * shorter does.
   */
  lemma OnlyLastingTroubleEnds(rounds: seq<Round>, k: nat, deadline: int)
    requires k < |rounds| && Reads(rounds[k], deadline)
    ensures RoundEnds(rounds, k, deadline) == Some(RunnerGone) <==>
      exists i :: 0 <= i <= k && Streak(rounds, i, k) && rounds[k].ended - rounds[i].ended >= 600_000
  {
    if rounds[k].slice.RunnerStopped? {
      var i := TroubleIsAStreak(rounds, k);
      forall j | 0 <= j <= k && Streak(rounds, j, k) ensures j == i {
        OneStreak(rounds, i, j, k);
      }
    }
  }

  // ---- What it leaves of its lease ----

  /** Neither handed over nor released yet. */
  predicate Keeps(calls: seq<Call>) {
    forall i :: 0 <= i < |calls| ==> !calls[i].HandedOver? && !calls[i].Released?
  }

  /** The calls of rounds that end nothing: each a slice that returned no work, with a repair after a runner's stop. */
  function Waiting(rounds: seq<Round>): seq<Call> {
    if rounds == [] then []
    else
      var last := rounds[|rounds| - 1];
      Waiting(rounds[..|rounds| - 1]) + [Listened(last.before, last.after)] + (if last.slice.RunnerStopped? then [Repaired] else [])
  }

  lemma {:induction false} WaitingKeeps(rounds: seq<Round>)
    ensures Keeps(Waiting(rounds))
    decreases |rounds|
  {
    if rounds != [] {
      WaitingKeeps(rounds[..|rounds| - 1]);
    }
  }

  /** What a round that ends the loop still calls. */
  function Last(r: Round, exit: Exit): seq<Call> {
    match exit
    case GotWork => [Listened(r.before, r.after), HandedOver(Reoffer(r.before, r.after, r.actions))]
    case Closed => [Listened(r.before, r.after), Released]
    case RunnerGone => [Listened(r.before, r.after), Released]
    case _ => [Released]
  }

  /** The waiting for the lease: the first attempt that ends it does. */
  method Attach(tries: seq<Try>, deadline: int) returns (entry: Entry)
    ensures entry == NotEntered(Listening) <==> forall j :: 0 <= j < |tries| ==> TryEnds(tries[j], deadline).None?
    ensures entry != NotEntered(Listening) ==>
      exists k :: 0 <= k < |tries| && TryEnds(tries[k], deadline) == Some(entry) && forall j :: 0 <= j < k ==> TryEnds(tries[j], deadline).None?
    ensures entry.Entered? ==>
      exists k :: 0 <= k < |tries| && tries[k].answer == Some(Granted) && forall j :: 0 <= j < k ==> WaitsOn(tries[j], deadline)
    ensures (forall k :: 0 <= k < |tries| ==> WaitsOn(tries[k], deadline)) ==> entry == NotEntered(Listening)
    ensures entry == NotEntered(AttachRefused) ==> exists k :: 0 <= k < |tries| && tries[k].answer == Some(Refused)
  {
    var k := 0;
    while k < |tries|
      invariant 0 <= k <= |tries| && forall j :: 0 <= j < k ==> TryEnds(tries[j], deadline).None? && WaitsOn(tries[j], deadline)
    {
      var t := tries[k];
      if t.answer == Some(Refused) { assert TryEnds(tries[k], deadline) == Some(NotEntered(AttachRefused)); return NotEntered(AttachRefused); }
      if t.answer == Some(Granted) { assert TryEnds(tries[k], deadline) == Some(Entered); return Entered; }
      if deadline - t.now <= 0 { assert TryEnds(tries[k], deadline) == Some(NotEntered(TimedOut)); return NotEntered(TimedOut); }
      k := k + 1;
    }
    return NotEntered(Listening);
  }

  /**
   * The rounds: the loop ends with the first that ends it. Before it no slice returned work; work is handed over at once, with
   * the cursors around the slice that returned it, and any other end releases the lease. Never both, and never twice.
   */
  method Rounds(rounds: seq<Round>, deadline: int) returns (exit: Exit, calls: seq<Call>, n: nat)
    ensures n <= |rounds| && forall j :: 0 <= j < n ==> RoundEnds(rounds, j, deadline).None? && !rounds[j].slice.Work?
    ensures exit.Listening? <==> n == |rounds|
    ensures exit.Listening? ==> calls == Waiting(rounds)
    ensures !exit.Listening? ==> RoundEnds(rounds, n, deadline) == Some(exit) && calls == Waiting(rounds[..n]) + Last(rounds[n], exit)
    ensures exit.GotWork? <==> n < |rounds| && Reads(rounds[n], deadline) && rounds[n].slice.Work?
    ensures forall j :: 0 <= j < n ==> Reads(rounds[j], deadline) && (rounds[j].slice.Quiet? || rounds[j].slice.RunnerStopped?)
    ensures exit.LeaseLost? <==> n < |rounds| && rounds[n].lost
    ensures exit.Removed? <==> n < |rounds| && !rounds[n].lost && rounds[n].removed
    ensures exit.TimedOut? <==> n < |rounds| && !rounds[n].lost && !rounds[n].removed && deadline <= rounds[n].now
    ensures exit.Closed? <==> n < |rounds| && Reads(rounds[n], deadline) && rounds[n].slice.RoomClosed?
    ensures exit.RunnerGone? ==> Reads(rounds[n], deadline) && rounds[n].slice.RunnerStopped?
  {
    var troubleSince: Option<int> := None;
    calls, n := [], 0;
    while n < |rounds|
      invariant 0 <= n <= |rounds| && troubleSince == TroubleSince(rounds, n)
      invariant forall j :: 0 <= j < n ==> RoundEnds(rounds, j, deadline).None? && !rounds[j].slice.Work?
      invariant forall j :: 0 <= j < n ==> Reads(rounds[j], deadline) && (rounds[j].slice.Quiet? || rounds[j].slice.RunnerStopped?)
      invariant calls == Waiting(rounds[..n])
    {
      var r := rounds[n];
      assert rounds[..n + 1][..n] == rounds[..n];
      if r.lost { return LeaseLost, calls + [Released], n; }
      if r.removed { return Removed, calls + [Released], n; }
      if deadline - r.now <= 0 { return TimedOut, calls + [Released], n; }
      var heard := calls + [Listened(r.before, r.after)];
      if r.slice.RoomClosed? { return Closed, heard + [Released], n; }
      if r.slice.RunnerStopped? {
        if troubleSince.None? { troubleSince := Some(r.ended); }
        if r.ended - troubleSince.value >= RUNNER_TROUBLE_MS { return RunnerGone, heard + [Released], n; }
        calls := heard + [Repaired];
      } else {
        troubleSince := None;
        if r.slice.Work? { return GotWork, heard + [HandedOver(Reoffer(r.before, r.after, r.actions))], n; }
        calls := heard;
      }
      n := n + 1;
    }
    assert rounds[..n] == rounds;
    return Listening, calls, n;
  }

  predicate Ends(calls: seq<Call>, last: Call) {
    calls != [] && calls[|calls| - 1] == last && Keeps(calls[..|calls| - 1])
  }

  /** The hand-over is of the slice right before it. */
  predicate HandsOverWhatItRead(calls: seq<Call>) {
    && |calls| >= 2 && calls[|calls| - 2].Listened? && calls[|calls| - 1].HandedOver?
    && calls[|calls| - 1].reoffer.before == calls[|calls| - 2].before
    && calls[|calls| - 1].reoffer.after == calls[|calls| - 2].after
  }

  /**
   * `liveListen`: a listener that never attached leaves the lease alone; one that did hands it over exactly when it returns
   * work, with what that slice consumed, and otherwise releases it, as the last thing it does.
   */
  method Listen(tries: seq<Try>, rounds: seq<Round>, start: int, maxWaitMs: nat) returns (exit: Exit, calls: seq<Call>)
    ensures TookLease !in calls ==> calls == [] && (exit.AttachRefused? || exit.TimedOut? || exit.Listening?)
    ensures TookLease in calls ==>
      && (exit.GotWork? <==> exists r :: r in rounds && Ends(calls, HandedOver(Reoffer(r.before, r.after, r.actions))))
      && (exit.GotWork? || exit.Listening? || Ends(calls, Released))
      && (exit.Listening? ==> Keeps(calls))
    ensures exit.GotWork? ==> HandsOverWhatItRead(calls)
  {
    hide RoundEnds, Waiting, TroubleSince, Reads;
    var entry := Attach(tries, start + maxWaitMs);
    if entry.NotEntered? {
      return entry.exit, [];
    }
    var after, n;
    exit, after, n := Rounds(rounds, start + maxWaitMs);
    calls := [TookLease] + after;
    assert calls[0] == TookLease;
    WaitingKeeps(rounds[..n]);
    if exit.Listening? {
      assert rounds[..n] == rounds;
    } else {
      var last := Last(rounds[n], exit);
      assert calls[..|calls| - 1] == [TookLease] + Waiting(rounds[..n]) + last[..|last| - 1];
      if exit.GotWork? {
        assert Ends(calls, HandedOver(Reoffer(rounds[n].before, rounds[n].after, rounds[n].actions)));
      }
    }
  }
}
