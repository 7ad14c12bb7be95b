/** What a stream entry is owed before it is given up (src/workers/index.ts:223-300): a handler run for every delivery up to
  * the limit, and a dead letter only after more deliveries than that, or a handler that failed for good. */
module HandlerChances {
  import opened Arithmetic
  import opened Counting
  import opened StreamWorker

  // ---------------------------------------------------------------- a start runs the handler

  /** A worker that starts on the entry runs the handler exactly if its delivery count is within the limit; otherwise it goes
    * on to the dead-letter write without a run. */
  lemma StartRunsWithinTheLimit(c: Config, s: World, h: Id)
    requires Enabled(c, s, Start(h))
    ensures var t, count := Apply(c, s, Start(h)), s.holders[h].count;
      && (count <= c.maxRetries ==> HandlerRuns(t, h) && t.runs == s.runs + [count])
      && (count > c.maxRetries ==> Holds(t, h, Failing) && t.runs == s.runs)
  {
  }

  // ---------------------------------------------------------------- who is to blame for a dead letter

  /** Nothing has gone wrong for good so far, or the entry has been delivered more often than the limit. */
  ghost predicate Blameless(c: Config, s: World) {
    s.delivered > c.maxRetries ||
    (!s.deadLettered && forall h :: h in s.holders ==> !s.holders[h].phase.Failing?)
  }

  lemma StepKeepsBlameless(c: Config, s: World, step: Step)
    requires CountsOk(c, s) && Blameless(c, s) && Enabled(c, s, step) && !step.FailForGood?
    ensures Blameless(c, Apply(c, s, step))
  {
    DeliveredGrows(c, s, step);
    if step.Start? {
      assert HolderOk(s, s.holders[step.h]);
    }
    hide Stale;
  }

  lemma {:induction false} RunKeepsBlameless(c: Config, s: World, steps: seq<Step>)
    requires Untouched(s) && CountsOk(c, s) && Blameless(c, s) && IsRun(c, s, steps)
    requires forall k :: 0 <= k < |steps| ==> !steps[k].FailForGood?
    ensures Blameless(c, After(c, s, steps))
    decreases |steps|
  {
    if steps != [] {
      hide Untouched, CountsOk, Enabled, Apply, Blameless;
      StepKeepsUntouched(c, s, steps[0]);
      StepKeepsCounts(c, s, steps[0]);
      StepKeepsBlameless(c, s, steps[0]);
      assert forall k :: 0 <= k < |steps[1..]| ==> steps[1..][k] == steps[k + 1];
      RunKeepsBlameless(c, Apply(c, s, steps[0]), steps[1..]);
    }
  }

  /** In every run, an entry is dead-lettered only if it was delivered more often than the limit, or a handler that ran on it
    * failed for good: never for a crash, a lost ack or a slow worker alone. */
  lemma DeadLetteredOnlyWhenDue(c: Config, steps: seq<Step>)
    requires IsRun(c, Init(), steps) && After(c, Init(), steps).deadLettered
    ensures After(c, Init(), steps).delivered > c.maxRetries || exists k :: 0 <= k < |steps| && steps[k].FailForGood?
  {
    if forall k :: 0 <= k < |steps| ==> !steps[k].FailForGood? {
      RunKeepsBlameless(c, Init(), steps);
    }
  }

  // ---------------------------------------------------------------- every delivery gets its run

  lemma {:induction false} Join(c: Config, s: World, first: seq<Step>, second: seq<Step>)
    requires IsRun(c, s, first) && IsRun(c, After(c, s, first), second)
    ensures IsRun(c, s, first + second) && After(c, s, first + second) == After(c, After(c, s, first), second)
    decreases |first|
  {
    if first == [] {
      assert first + second == second;
    } else {
      hide Apply, Enabled;
      Join(c, Apply(c, s, first[0]), first[1..], second);
      assert (first + second)[1..] == first[1..] + second;
    }
  }

  lemma Next(c: Config, s: World, first: seq<Step>, step: Step) returns (steps: seq<Step>)
    requires IsRun(c, s, first) && Enabled(c, After(c, s, first), step)
    ensures IsRun(c, s, steps) && After(c, s, steps) == Apply(c, After(c, s, first), step)
  {
    hide Apply, Enabled;
    RunOfOne(c, After(c, s, first), step);
    Join(c, s, first, [step]);
    steps := first + [step];
  }

  /** The threshold leaves time for a claim, and for a handler to start after it. */
  predicate Workable(c: Config) {
    c.minIdle >= 1 && (c.onTime ==> c.minIdle >= 10)
  }

  /** The counts 1 to `n`, in order. */
  function CountsTo(n: nat): (counts: seq<nat>) {
    seq(n, i => i + 1)
  }

  /** The entry has been delivered `n` times, worker 0 holds it, and nobody else has anything to do with it. */
  ghost predicate OnlyWorker(s: World, n: nat) {
    && n >= 1 && s.inStream && s.delivered == n && s.pending.Some? && s.pending.value.count == n
    && s.pending.value.since <= s.now
    && s.listings == map[] && s.holders.Keys == {0} && s.holders[0].count == n
  }

  /** The worker dies, and once the entry is stale another claims it. */
  lemma Redelivers(c: Config, s: World, n: nat) returns (steps: seq<Step>)
    requires Workable(c) && OnlyWorker(s, n)
    ensures IsRun(c, s, steps)
    ensures var t := After(c, s, steps);
      OnlyWorker(t, n + 1) && t.runs == s.runs && t.holders[0] == Holder(n + 1, t.now, Waiting)
      && t.succeeded == s.succeeded && t.deadLettered == s.deadLettered
  {
    var wait := c.minIdle * Pow2(n - 1) + 1;
    hide Pow2;
    Waits(c.minIdle, n);
    steps := Next(c, s, [], Lose(0));
    assert s.holders - {0} == map[];
    steps := Next(c, s, steps, Tick(wait));
    var idle := After(c, s, steps);
    assert Stale(c, idle.pending.value, idle.now);
    steps := Next(c, s, steps, List(0));
    steps := Next(c, s, steps, Claim(0, 0));
  }

  lemma Waits(minIdle: nat, n: nat)
    requires n >= 1
    ensures minIdle * Pow2(n - 1) >= minIdle
  {
    assert Pow2(n - 1) >= 1;
    assert minIdle * (Pow2(n - 1) - 1) >= 0;
    assert minIdle * Pow2(n - 1) == minIdle * (Pow2(n - 1) - 1) + minIdle;
  }

  /** The limit is not only an upper bound: for each number of handler runs up to it there is a run of the machine that has
    * exactly these, one per delivery, with workers that die and no dead letter. */
  lemma {:induction false} EveryDeliveryGetsItsRun(c: Config, n: nat) returns (steps: seq<Step>)
    requires Workable(c) && 1 <= n <= c.maxRetries
    ensures IsRun(c, Init(), steps)
    ensures var t := After(c, Init(), steps);
      OnlyWorker(t, n) && HandlerRuns(t, 0) && t.runs == CountsTo(n) && !t.deadLettered
    decreases n
  {
    if n == 1 {
      steps := Next(c, Init(), [], Read(0));
    } else {
      steps := EveryDeliveryGetsItsRun(c, n - 1);
      var again := Redelivers(c, After(c, Init(), steps), n - 1);
      Join(c, Init(), steps, again);
      steps := steps + again;
    }
    var s := After(c, Init(), steps);
    assert s.runs == CountsTo(n - 1) && OnlyWorker(s, n) && s.holders[0] == Holder(n, s.now, Waiting) && !s.deadLettered;
    hide IsRun, After;
    StartRunsWithinTheLimit(c, s, 0);
    StartIsQuiet(c, s, n);
    steps := Next(c, Init(), steps, Start(0));
  }

  lemma StartIsQuiet(c: Config, s: World, n: nat)
    requires Workable(c) && OnlyWorker(s, n) && s.holders[0] == Holder(n, s.now, Waiting)
    ensures Enabled(c, s, Start(0)) && OnlyWorker(Apply(c, s, Start(0)), n)
    ensures Apply(c, s, Start(0)).deadLettered == s.deadLettered && Apply(c, s, Start(0)).succeeded == s.succeeded
  {
  }

  // ---------------------------------------------------------------- an entry can always be settled

  lemma {:induction false} AllDie(c: Config, s: World) returns (steps: seq<Step>)
    ensures IsRun(c, s, steps) && After(c, s, steps) == s.(holders := map[])
    decreases |s.holders|
  {
    if s.holders == map[] {
      steps := [];
    } else {
      var h :| h in s.holders;
      var t := Apply(c, s, Lose(h));
      assert t.holders.Keys == s.holders.Keys - {h};
      assert |t.holders.Keys| == |t.holders| && |s.holders.Keys| == |s.holders|;
      RunOfOne(c, s, Lose(h));
      var rest := AllDie(c, t);
      RunCons(c, s, Lose(h), rest);
      steps := [Lose(h)] + rest;
    }
  }

  /** With nobody at work on it, an entry that is unread or pending gets to a worker. */
  lemma IsDelivered(c: Config, s: World) returns (steps: seq<Step>)
    requires Workable(c) && Recoverable(s) && PendingOk(s) && s.holders == map[]
    ensures IsRun(c, s, steps) && Holds(After(c, s, steps), 0, Waiting)
    ensures After(c, s, steps).holders[0].gotAt == After(c, s, steps).now
  {
    if s.delivered == 0 {
      steps := Next(c, s, [], Read(0));
    } else {
      var n := s.pending.value.count;
      var wait := if n == 0 then c.minIdle + 1 else c.minIdle * Pow2(n - 1) + 1;
      if n > 0 {
        Waits(c.minIdle, n);
      }
      hide Pow2;
      var x := Unused(s.listings.Keys);
      steps := Next(c, s, [], Tick(wait));
      assert Stale(c, s.pending.value, s.now + wait);
      steps := Next(c, s, steps, List(x));
      steps := Next(c, s, steps, StreamWorker.Claim(x, 0));
    }
  }

  predicate IsDone(s: World) {
    Settled(s) && s.pending.None? && !s.inStream
  }

  /** A settled entry is acked, at once or from the buffer, and deleted. */
  lemma Leaves(c: Config, s: World) returns (steps: seq<Step>)
    requires (Holds(s, 0, Buffered) || Holds(s, 0, Acking)) && Settled(s)
    ensures IsRun(c, s, steps) && IsDone(After(c, s, steps))
    decreases s.holders[0].phase.Buffered?
  {
    if s.holders[0].phase.Buffered? {
      var sent := Apply(c, s, Flush(0));
      steps := Leaves(c, sent);
      hide Enabled, Apply;
      RunCons(c, s, Flush(0), steps);
      steps := [Flush(0)] + steps;
    } else {
      steps := Next(c, s, [], Xack(0));
      steps := Next(c, s, steps, Xdel(0));
    }
  }

  /** The worker that has just got the entry runs the handler or writes the dead letter. */
  lemma IsSettled(c: Config, s: World) returns (steps: seq<Step>)
    requires Workable(c) && c.hasDlq && Holds(s, 0, Waiting) && s.holders[0].gotAt == s.now
    ensures IsRun(c, s, steps)
    ensures var t := After(c, s, steps); Settled(t) && (Holds(t, 0, Buffered) || Holds(t, 0, Acking))
  {
    StartRunsWithinTheLimit(c, s, 0);
    steps := Next(c, s, [], Start(0));
    if s.holders[0].count <= c.maxRetries {
      steps := Next(c, s, steps, Succeed(0));
    } else {
      steps := Next(c, s, steps, DeadLetter(0));
    }
  }

  lemma IsHandled(c: Config, s: World) returns (steps: seq<Step>)
    requires Workable(c) && c.hasDlq && Holds(s, 0, Waiting) && s.holders[0].gotAt == s.now
    ensures IsRun(c, s, steps) && IsDone(After(c, s, steps))
  {
    steps := IsSettled(c, s);
    var more := Leaves(c, After(c, s, steps));
    hide Apply, Enabled, IsDone;
    Join(c, s, steps, more);
    steps := steps + more;
  }

  /** No entry gets stuck: with a dead-letter stream, from every reachable state in which an entry is not settled, even if
    * every worker on it dies, it reaches another one who settles it, acks it and deletes it. */
  lemma EntriesNeverGetStuck(c: Config, before: seq<Step>) returns (steps: seq<Step>)
    requires Workable(c) && c.hasDlq && IsRun(c, Init(), before) && !Settled(After(c, Init(), before))
    ensures IsRun(c, After(c, Init(), before), steps) && IsDone(After(c, After(c, Init(), before), steps))
  {
    RunKeepsCounts(c, Init(), before);
    EntryLeavesOnlyWhenSettled(c, before);
    var s := After(c, Init(), before);
    hide Apply, Enabled, Settled, IsDone;
    steps := AllDie(c, s);
    var alone := After(c, s, steps);
    assert PendingOk(s) && PendingOk(alone) && Recoverable(alone);
    var delivering := IsDelivered(c, alone);
    var handling := IsHandled(c, After(c, alone, delivering));
    Join(c, alone, delivering, handling);
    Join(c, s, steps, delivering + handling);
    steps := steps + (delivering + handling);
  }

  // ---------------------------------------------------------------- when an entry changes hands

  /** A listing that no touch, read or claim has overtaken says how long the entry had been idle. */
  ghost predicate ListedStale(c: Config, s: World) {
    forall x :: x in s.listings && s.pending.Some? && s.pending.value.since < s.listings[x].at ==>
      && s.pending.value.count >= 1
      && s.listings[x].at - s.pending.value.since > c.minIdle * Pow2(s.pending.value.count - 1)
  }

  lemma StepKeepsListed(c: Config, s: World, step: Step)
    requires PendingOk(s) && ListingsOk(s) && Untouched(s) && ListedStale(c, s) && Enabled(c, s, step)
    ensures ListedStale(c, Apply(c, s, step))
  {
    hide Pow2;
  }

  lemma {:induction false} RunKeepsListed(c: Config, s: World, steps: seq<Step>)
    requires CountsOk(c, s) && Untouched(s) && ListedStale(c, s) && IsRun(c, s, steps)
    ensures CountsOk(c, After(c, s, steps)) && ListedStale(c, After(c, s, steps))
    decreases |steps|
  {
    if steps != [] {
      StepKeepsListed(c, s, steps[0]);
      StepKeepsCounts(c, s, steps[0]);
      StepKeepsUntouched(c, s, steps[0]);
      hide Enabled, Apply, ListedStale, CountsOk, Untouched;
      RunKeepsListed(c, Apply(c, s, steps[0]), steps[1..]);
    }
  }

  /** In every run, a claim gets the entry exactly if it is still pending and there, and untouched for the threshold; it has
    * then been idle for the threshold doubled with each delivery after the first. */
  lemma TakenOverOnlyWhenStale(c: Config, steps: seq<Step>, x: Id, h: Id)
    requires IsRun(c, Init(), steps) && Enabled(c, After(c, Init(), steps), StreamWorker.Claim(x, h))
    ensures var s := After(c, Init(), steps); var t := Apply(c, s, StreamWorker.Claim(x, h));
      && (h in t.holders <==> s.pending.Some? && s.inStream && s.pending.value.since + c.minIdle <= s.now)
      && (h in t.holders ==> s.delivered >= 1 && s.now - s.pending.value.since > c.minIdle * Pow2(s.delivered - 1))
  {
    RunKeepsListed(c, Init(), steps);
    hide Pow2;
  }

  /** A handler is at work, alone, and its touch is not overdue. */
  predicate AtWork(c: Config, s: World, h: Id) {
    && s.inStream && s.pending.Some? && HandlerRuns(s, h) && s.now <= s.holders[h].phase.nextTouch
    && forall g :: g in s.holders && s.holders[g].phase.Running? ==> g == h
  }

  /** However long a handler takes, it can keep its entry: its touches come at least every threshold, no later than the timer
    * promises, and after each the idle time starts again. */
  lemma {:induction false} ALongHandlerKeepsItsEntry(c: Config, s: World, h: Id, ms: nat) returns (steps: seq<Step>)
    requires AtWork(c, s, h)
    ensures IsRun(c, s, steps)
    ensures var t := After(c, s, steps);
      && AtWork(c, t, h) && t.now >= s.now + ms && t.runs == s.runs && t.delivered == s.delivered
      && t.holders[h].count == s.holders[h].count && (ms > 0 ==> t.pending.value.since == t.now)
    decreases ms, if s.holders[h].phase.nextTouch == s.now then 1 else 0
  {
    if ms == 0 {
      steps := [];
    } else {
      var wait := s.holders[h].phase.nextTouch - s.now;
      steps := Next(c, s, [], Tick(wait));
      steps := Next(c, s, steps, Touch(h));
      var t := After(c, s, steps);
      if wait < ms {
        var more := ALongHandlerKeepsItsEntry(c, t, h, ms - wait);
        hide Apply, Enabled, AtWork;
        Join(c, s, steps, more);
        steps := steps + more;
      }
    }
  }
}
