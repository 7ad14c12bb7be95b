/** The life of one parsable stream entry among any number of workers of its consumer group: `BaseWorker`
  * (src/workers/index.ts) over `StreamConsumer` and `PendingMessageScanner` (src/queue/index.ts).
  *
  * Each Redis command is one step, and a worker may lose the entry between any two of them: a crash, a retryable failure,
  * a buffered ack that never gets out, a dead-letter write that fails, a skip without ack. */
module StreamWorker {
  import opened Arithmetic
  import opened Counting
  import opened Wrappers

  type Id = nat

  /** The group's pending record: when the entry was last delivered or touched, and how often it was delivered. */
  datatype Pending = Pending(since: nat, count: nat)

  /** `nextTouch` is when the running handler's interval fires next. */
  datatype Phase = Waiting | Running(nextTouch: nat) | Failing | Buffered | Acking

  /** A worker's hold on the entry: with which delivery count, and when it was read or claimed. */
  datatype Holder = Holder(count: nat, gotAt: nat, phase: Phase)

  /** A scanner that has seen the entry in XPENDING and not yet sent its XCLAIM. */
  datatype Listing = Listing(count: nat, at: nat)

  /** `minIdle` is the reclaim threshold in milliseconds. `onTime` is the assumption that touches land when their timer
    * fires and that a handler starts soon enough after the read or claim that got it; it is used only where named. */
  datatype Config = Config(minIdle: nat, maxRetries: nat, bufferAcks: bool, hasDlq: bool, onTime: bool)

  /** `delivered` counts deliveries, `runs` holds the delivery count of every handler start. */
  datatype World = World(
    now: nat,
    inStream: bool,
    pending: Option<Pending>,
    delivered: nat,
    listings: map<Id, Listing>,
    holders: map<Id, Holder>,
    runs: seq<nat>,
    succeeded: bool,
    deadLettered: bool)

  datatype Step =
    | Tick(ms: nat)
    | Read(h: Id)
    | List(x: Id)
    | Claim(x: Id, h: Id)
    | Start(h: Id)
    | Touch(h: Id)
    | Succeed(h: Id)
    | FailForGood(h: Id)
    | DeadLetter(h: Id)
    | Flush(h: Id)
    | Xack(h: Id)
    | Xdel(h: Id)
    | Lose(h: Id)

  /** Half the threshold, so that two touches fall into it, but no less than 10 ms. */
  function TouchPeriod(minIdle: nat): (ms: nat)
    ensures ms >= 10 && (ms > 10 ==> 2 * ms <= minIdle) && minIdle < 2 * ms + 2
  {
    if minIdle / 2 < 10 then 10 else minIdle / 2
  }

  /** Listed long enough for this many deliveries: the threshold doubles with each. */
  predicate Stale(c: Config, p: Pending, now: nat) {
    now - p.since > c.minIdle * (if p.count == 0 then 1 else Pow2(p.count - 1))
  }

  predicate Holds(s: World, h: Id, phase: Phase) {
    h in s.holders && s.holders[h].phase == phase
  }

  predicate HandlerRuns(s: World, h: Id) {
    h in s.holders && s.holders[h].phase.Running?
  }

  predicate Enabled(c: Config, s: World, step: Step) {
    match step
    case Tick(ms) =>
      c.onTime ==> forall h :: h in s.holders && s.holders[h].phase.Running? ==> s.now + ms <= s.holders[h].phase.nextTouch
    case Read(h) => s.delivered == 0 && s.inStream && h !in s.holders
    case List(x) => x !in s.listings && s.pending.Some? && Stale(c, s.pending.value, s.now)
    // the time between a listing and its claim is below the threshold
    case Claim(x, h) => x in s.listings && s.now - s.listings[x].at < c.minIdle && h !in s.holders
    case Start(h) => Holds(s, h, Waiting) && (c.onTime ==> s.now + TouchPeriod(c.minIdle) <= s.holders[h].gotAt + c.minIdle)
    case Touch(h) => HandlerRuns(s, h)
    case Succeed(h) => HandlerRuns(s, h)
    case FailForGood(h) => HandlerRuns(s, h)
    case DeadLetter(h) => Holds(s, h, Failing)
    case Flush(h) => Holds(s, h, Buffered)
    case Xack(h) => Holds(s, h, Acking)
    case Xdel(h) => Holds(s, h, Acking)
    case Lose(h) => h in s.holders
  }

  function SetPhase(s: World, h: Id, phase: Phase): (s': World)
    requires h in s.holders
  {
    s.(holders := s.holders[h := s.holders[h].(phase := phase)])
  }

  function AckPhase(c: Config): Phase {
    if c.bufferAcks then Buffered else Acking
  }

  function Apply(c: Config, s: World, step: Step): (s': World)
    requires Enabled(c, s, step)
  {
    match step
    case Tick(ms) => s.(now := s.now + ms)
    case Read(h) =>
      s.(pending := Some(Pending(s.now, 1)), delivered := 1, holders := s.holders[h := Holder(1, s.now, Waiting)])
    case List(x) => s.(listings := s.listings[x := Listing(s.pending.value.count, s.now)])
    case Claim(x, h) => ClaimEntry(c, s, x, h)
    case Start(h) =>
      if s.holders[h].count > c.maxRetries then SetPhase(s, h, Failing)
      else SetPhase(s, h, Running(s.now + TouchPeriod(c.minIdle))).(runs := s.runs + [s.holders[h].count])
    // XCLAIM 0 JUSTID: the count stays; a deleted entry is dropped from the pending list
    case Touch(h) =>
      SetPhase(s, h, Running(s.now + TouchPeriod(c.minIdle))).(
        pending := if s.pending.None? || !s.inStream then None else Some(s.pending.value.(since := s.now)))
    case Succeed(h) => SetPhase(s, h, AckPhase(c)).(succeeded := true)
    case FailForGood(h) => SetPhase(s, h, Failing)
    // nack: the dead-letter write first; without a dead-letter stream it is an ack
    case DeadLetter(h) =>
      if c.hasDlq then SetPhase(s, h, Acking).(deadLettered := true) else SetPhase(s, h, AckPhase(c))
    case Flush(h) => SetPhase(s, h, Acking)
    case Xack(h) => s.(pending := None)
    case Xdel(h) => s.(inStream := false)
    case Lose(h) => s.(holders := s.holders - {h})
  }

  /** XCLAIM with the threshold as min-idle: Redis arbitrates between scanners. The claimer takes the listed count plus one
    * for the delivery count. */
  function ClaimEntry(c: Config, s: World, x: Id, h: Id): (s': World)
    requires x in s.listings
  {
    var done := s.(listings := s.listings - {x});
    if s.pending.None? || s.now - s.pending.value.since < c.minIdle then done
    else if !s.inStream then done.(pending := None)
    else done.(pending := Some(Pending(s.now, s.pending.value.count + 1)),
               delivered := s.pending.value.count + 1,
               holders := s.holders[h := Holder(s.listings[x].count + 1, s.now, Waiting)])
  }

  function Init(): (s: World) {
    World(0, true, None, 0, map[], map[], [], false, false)
  }

  predicate IsRun(c: Config, s: World, steps: seq<Step>)
    decreases |steps|
  {
    steps == [] || (Enabled(c, s, steps[0]) && IsRun(c, Apply(c, s, steps[0]), steps[1..]))
  }

  function After(c: Config, s: World, steps: seq<Step>): (s': World)
    requires IsRun(c, s, steps)
    decreases |steps|
  {
    if steps == [] then s else After(c, Apply(c, s, steps[0]), steps[1..])
  }

  // ---------------------------------------------------------------- fate

  predicate Settled(s: World) {
    s.succeeded || s.deadLettered
  }

  /** Still there for some worker to pick up: unread, or pending. */
  predicate Recoverable(s: World) {
    s.inStream && (s.delivered == 0 || s.pending.Some?)
  }

  ghost predicate FateOk(c: Config, s: World) {
    && (Recoverable(s) || Settled(s))
    && (forall h :: h in s.holders && (s.holders[h].phase.Acking? || s.holders[h].phase.Buffered?) ==> Settled(s))
  }

  predicate Untouched(s: World) {
    s.delivered == 0 ==> s.holders == map[] && s.pending.None?
  }

  lemma StepKeepsFate(c: Config, s: World, step: Step)
    requires c.hasDlq && FateOk(c, s) && Untouched(s) && Enabled(c, s, step)
    ensures FateOk(c, Apply(c, s, step))
  {
    hide Stale;
  }

  lemma StepKeepsUntouched(c: Config, s: World, step: Step)
    requires Untouched(s) && Enabled(c, s, step)
    ensures Untouched(Apply(c, s, step))
  {
    hide Stale;
  }

  // ---------------------------------------------------------------- delivery counts

  ghost predicate PendingOk(s: World) {
    s.pending.Some? ==> s.pending.value.count == s.delivered && s.pending.value.since <= s.now
  }

  /** A listing is of the current delivery, or older than the last one. */
  ghost predicate ListingsOk(s: World) {
    forall x :: x in s.listings ==>
      && s.listings[x].at <= s.now
      && (s.pending.Some? ==> s.listings[x].count == s.pending.value.count || s.listings[x].at <= s.pending.value.since)
  }

  predicate HolderOk(s: World, x: Holder) {
    && 1 <= x.count <= s.delivered && x.gotAt <= s.now
    && (x.phase.Waiting? ==> x.count !in s.runs)
  }

  ghost predicate HoldersOk(s: World) {
    && (forall h :: h in s.holders ==> HolderOk(s, s.holders[h]))
    && (forall g, h :: g in s.holders && h in s.holders && g != h ==> s.holders[g].count != s.holders[h].count)
  }

  ghost predicate RunsOk(c: Config, s: World) {
    && (forall n :: n in s.runs ==> 1 <= n <= s.delivered && n <= c.maxRetries)
    && (forall i, j :: 0 <= i < j < |s.runs| ==> s.runs[i] != s.runs[j])
  }

  /** Each delivery count is handed to one holder, who starts at most one handler with it. */
  ghost predicate CountsOk(c: Config, s: World) {
    PendingOk(s) && ListingsOk(s) && HoldersOk(s) && RunsOk(c, s)
  }

  /** A claim that Redis lets through comes at least the threshold after the last delivery or touch, and the count that the
    * claimer assumes is the one Redis keeps. */
  lemma ClaimIsExclusive(c: Config, s: World, x: Id, h: Id)
    requires PendingOk(s) && ListingsOk(s) && Enabled(c, s, Claim(x, h))
    ensures var t := Apply(c, s, Claim(x, h));
      h in t.holders ==>
        && s.pending.Some? && s.pending.value.since + c.minIdle <= s.now
        && t.delivered == s.delivered + 1
        && t.holders[h] == Holder(t.delivered, s.now, Waiting) && t.pending == Some(Pending(s.now, t.delivered))
    ensures var t := Apply(c, s, Claim(x, h));
      h !in t.holders ==> t.delivered == s.delivered && t.holders == s.holders
  {
  }

  lemma StepKeepsPending(c: Config, s: World, step: Step)
    requires PendingOk(s) && ListingsOk(s) && Enabled(c, s, step)
    requires s.delivered == 0 ==> s.pending.None?
    ensures PendingOk(Apply(c, s, step)) && ListingsOk(Apply(c, s, step))
  {
    hide Stale;
  }

  /** No step but the read or claim that makes a holder changes its count; a waiting one has not been started. */
  lemma HolderStays(c: Config, s: World, step: Step, h: Id)
    requires Enabled(c, s, step) && h in Apply(c, s, step).holders
    requires !(step.Read? && step.h == h) && !(step.Claim? && step.h == h)
    ensures var t := Apply(c, s, step);
      && h in s.holders && t.holders[h].count == s.holders[h].count && t.holders[h].gotAt == s.holders[h].gotAt
      && (t.holders[h].phase.Waiting? ==> s.holders[h].phase.Waiting? && step != Start(h))
      && s.now <= t.now
  {
    if step.Claim? {
      ClaimAddsOne(c, s, step.x, step.h);
    }
    hide Stale, ClaimEntry, TouchPeriod;
  }

  lemma NewHolder(c: Config, s: World, step: Step)
    requires CountsOk(c, s) && Enabled(c, s, step) && (step.Read? || step.Claim?)
    requires s.delivered == 0 ==> s.holders == map[]
    ensures var t := Apply(c, s, step);
      step.h in t.holders ==>
        HolderOk(t, t.holders[step.h]) && t.holders[step.h].count == t.delivered == s.delivered + 1
  {
    hide Stale, HoldersOk, ClaimEntry;
    RunsBelow(c, s);
    if step.Claim? {
      ClaimIsExclusive(c, s, step.x, step.h);
      ClaimAddsOne(c, s, step.x, step.h);
    }
  }

  lemma StepKeepsHolders(c: Config, s: World, step: Step)
    requires CountsOk(c, s) && Enabled(c, s, step)
    requires s.delivered == 0 ==> s.holders == map[]
    ensures HoldersOk(Apply(c, s, step))
  {
    var t := Apply(c, s, step);
    if step.Read? || step.Claim? {
      NewHolder(c, s, step);
    }
    NewRun(c, s, step);
    DeliveredGrows(c, s, step);
    hide Apply, Enabled, PendingOk, ListingsOk, RunsOk;
    forall h | h in t.holders
      ensures HolderOk(t, t.holders[h])
      ensures forall g :: g in t.holders && g != h ==> t.holders[g].count != t.holders[h].count
    {
      if !((step.Read? || step.Claim?) && step.h == h) {
        HolderStays(c, s, step, h);
        assert HolderOk(s, s.holders[h]);
      }
      forall g | g in t.holders && g != h
        ensures t.holders[g].count != t.holders[h].count
      {
        if !((step.Read? || step.Claim?) && step.h == g) {
          HolderStays(c, s, step, g);
          assert HolderOk(s, s.holders[g]);
        }
      }
    }
  }

  lemma RunsBelow(c: Config, s: World)
    requires RunsOk(c, s)
    ensures s.delivered + 1 !in s.runs
  {
  }

  lemma ClaimAddsOne(c: Config, s: World, x: Id, h: Id)
    requires Enabled(c, s, Claim(x, h))
    ensures var t := Apply(c, s, Claim(x, h));
      (forall g :: g in s.holders ==> g in t.holders && t.holders[g] == s.holders[g])
      && (forall g :: g in t.holders ==> g in s.holders || g == h) && t.runs == s.runs && t.now == s.now
  {
  }

  /** Only a start runs a handler, and with its holder's own count. */
  lemma NewRun(c: Config, s: World, step: Step)
    requires Enabled(c, s, step)
    ensures var t := Apply(c, s, step);
      t.runs == s.runs
      || (step.Start? && t.runs == s.runs + [s.holders[step.h].count] && s.holders[step.h].count <= c.maxRetries
          && s.holders[step.h].phase.Waiting? && t.holders[step.h].phase.Running?)
  {
    hide Stale;
  }

  lemma StepKeepsRuns(c: Config, s: World, step: Step)
    requires CountsOk(c, s) && Enabled(c, s, step)
    ensures RunsOk(c, Apply(c, s, step))
  {
    NewRun(c, s, step);
    DeliveredGrows(c, s, step);
    if step.Start? {
      assert HolderOk(s, s.holders[step.h]);
    }
    hide Apply, Enabled, PendingOk, ListingsOk, HoldersOk;
  }

  lemma DeliveredGrows(c: Config, s: World, step: Step)
    requires PendingOk(s) && Enabled(c, s, step)
    ensures s.delivered <= Apply(c, s, step).delivered
  {
    hide Stale;
  }

  lemma StepKeepsCounts(c: Config, s: World, step: Step)
    requires CountsOk(c, s) && Untouched(s) && Enabled(c, s, step)
    ensures CountsOk(c, Apply(c, s, step))
  {
    StepKeepsPending(c, s, step);
    StepKeepsHolders(c, s, step);
    StepKeepsRuns(c, s, step);
    hide Apply, Enabled, PendingOk, ListingsOk, HoldersOk, RunsOk;
  }

  // ---------------------------------------------------------------- reclaim safety

  /** Under `onTime`: a running handler is of the latest delivery, and its next touch falls due within the threshold. */
  predicate RunningOk(c: Config, s: World, x: Holder) {
    && (x.phase.Running? ==>
          && x.count == s.delivered && s.now <= x.phase.nextTouch
          && (s.pending.Some? ==> x.phase.nextTouch <= s.pending.value.since + c.minIdle))
    && (x.count == s.delivered && s.pending.Some? ==> x.gotAt <= s.pending.value.since)
    && (x.count < s.delivered ==> x.gotAt + c.minIdle <= s.now)
  }

  ghost predicate TimingOk(c: Config, s: World) {
    && (forall h :: h in s.holders ==> RunningOk(c, s, s.holders[h]))
    && (forall x :: x in s.listings && s.pending.Some? ==>
          s.listings[x].at <= s.pending.value.since || s.listings[x].at > s.pending.value.since + c.minIdle)
  }

  lemma StaleMeansIdle(c: Config, p: Pending, now: nat)
    requires Stale(c, p, now)
    ensures now - p.since > c.minIdle
  {
    var factor := if p.count == 0 then 1 else Pow2(p.count - 1);
    assert c.minIdle * (factor - 1) >= 0;
    assert c.minIdle * factor == c.minIdle * (factor - 1) + c.minIdle;
  }

  /** While a handler runs on time, Redis turns every claim away. */
  lemma NoClaimWhileRunning(c: Config, s: World, x: Id, h: Id, g: Id)
    requires PendingOk(s) && ListingsOk(s) && TimingOk(c, s) && Enabled(c, s, Claim(x, h)) && HandlerRuns(s, g)
    ensures s.pending.Some? ==> s.now - s.pending.value.since < c.minIdle
    ensures var t := Apply(c, s, Claim(x, h)); t.holders == s.holders && t.delivered == s.delivered && t.pending == s.pending
  {
    assert RunningOk(c, s, s.holders[g]);
  }

  lemma StepKeepsListingTimes(c: Config, s: World, step: Step)
    requires PendingOk(s) && ListingsOk(s) && TimingOk(c, s) && Enabled(c, s, step)
    ensures var t := Apply(c, s, step);
      forall x :: x in t.listings && t.pending.Some? ==>
        t.listings[x].at <= t.pending.value.since || t.listings[x].at > t.pending.value.since + c.minIdle
  {
    if step.List? {
      StaleMeansIdle(c, s.pending.value, s.now);
    }
    hide Stale, RunningOk;
  }

  lemma ClaimKeepsTiming(c: Config, s: World, x: Id, h: Id, g: Id)
    requires CountsOk(c, s) && TimingOk(c, s) && Enabled(c, s, Claim(x, h)) && g in Apply(c, s, Claim(x, h)).holders
    ensures var t := Apply(c, s, Claim(x, h)); RunningOk(c, t, t.holders[g])
  {
    var t := Apply(c, s, Claim(x, h));
    ClaimIsExclusive(c, s, x, h);
    ClaimAddsOne(c, s, x, h);
    if g in s.holders {
      assert RunningOk(c, s, s.holders[g]) && HolderOk(s, s.holders[g]);
      if s.holders[g].phase.Running? {
        NoClaimWhileRunning(c, s, x, h, g);
      }
      hide HoldersOk, ListingsOk, RunsOk, Stale;
    }
  }

  lemma StepKeepsTiming(c: Config, s: World, step: Step)
    requires c.onTime && c.minIdle >= 10 && CountsOk(c, s) && TimingOk(c, s) && Enabled(c, s, step)
    ensures TimingOk(c, Apply(c, s, step))
  {
    var t := Apply(c, s, step);
    StepKeepsListingTimes(c, s, step);
    hide Stale, ListingsOk, RunsOk;
    forall h | h in t.holders
      ensures RunningOk(c, t, t.holders[h])
    {
      if step.Claim? {
        ClaimKeepsTiming(c, s, step.x, step.h, h);
      } else if !(step.Read? && step.h == h) {
        HolderStays(c, s, step, h);
        OneHolderKeepsTiming(c, s, step, h);
      }
    }
  }

  /** A step that is no delivery, start or touch leaves the pending record alone or drops it, and starts no timer. */
  lemma QuietStep(c: Config, s: World, step: Step, h: Id)
    requires c.onTime && Enabled(c, s, step) && !step.Claim? && !step.Read? && !step.Touch? && !step.Start?
    requires h in Apply(c, s, step).holders
    ensures var t := Apply(c, s, step);
      && h in s.holders && t.delivered == s.delivered && (t.pending == s.pending || t.pending.None?) && s.now <= t.now
      && t.holders[h].count == s.holders[h].count && t.holders[h].gotAt == s.holders[h].gotAt
      && (t.holders[h].phase.Running? ==>
            t.holders[h].phase == s.holders[h].phase && (t.now == s.now || t.now <= t.holders[h].phase.nextTouch))
  {
    hide Stale, ClaimEntry, TouchPeriod;
  }

  lemma TouchKeepsTiming(c: Config, s: World, g: Id, h: Id)
    requires c.minIdle >= 10 && CountsOk(c, s) && TimingOk(c, s) && Enabled(c, s, Touch(g)) && h in s.holders
    ensures RunningOk(c, Apply(c, s, Touch(g)), Apply(c, s, Touch(g)).holders[h])
  {
    assert RunningOk(c, s, s.holders[h]) && HolderOk(s, s.holders[h]);
    assert RunningOk(c, s, s.holders[g]) && HolderOk(s, s.holders[g]);
    assert g != h ==> s.holders[g].count != s.holders[h].count;
    hide Stale, HoldersOk, ListingsOk, RunsOk, TimingOk, ClaimEntry;
  }

  lemma StartKeepsTiming(c: Config, s: World, g: Id, h: Id)
    requires c.onTime && CountsOk(c, s) && TimingOk(c, s) && Enabled(c, s, Start(g)) && h in s.holders
    ensures RunningOk(c, Apply(c, s, Start(g)), Apply(c, s, Start(g)).holders[h])
  {
    assert RunningOk(c, s, s.holders[h]) && HolderOk(s, s.holders[h]);
    assert RunningOk(c, s, s.holders[g]) && HolderOk(s, s.holders[g]);
    hide Stale, HoldersOk, ListingsOk, RunsOk, TimingOk, ClaimEntry;
  }

  lemma OneHolderKeepsTiming(c: Config, s: World, step: Step, h: Id)
    requires c.onTime && c.minIdle >= 10 && CountsOk(c, s) && TimingOk(c, s) && Enabled(c, s, step)
    requires !step.Claim? && !step.Read? && h in Apply(c, s, step).holders && h in s.holders
    ensures RunningOk(c, Apply(c, s, step), Apply(c, s, step).holders[h])
  {
    if step.Touch? {
      TouchKeepsTiming(c, s, step.h, h);
    } else if step.Start? {
      StartKeepsTiming(c, s, step.h, h);
    } else {
      QuietStep(c, s, step, h);
      assert RunningOk(c, s, s.holders[h]);
      hide Apply, Enabled, HoldersOk, ListingsOk, RunsOk, TimingOk;
    }
  }

  // ---------------------------------------------------------------- runs

  lemma {:induction false} RunKeepsCounts(c: Config, s: World, steps: seq<Step>)
    requires Untouched(s) && CountsOk(c, s) && IsRun(c, s, steps)
    ensures CountsOk(c, After(c, s, steps))
    decreases |steps|
  {
    if steps != [] {
      hide Untouched, CountsOk, Enabled, Apply;
      StepKeepsUntouched(c, s, steps[0]);
      StepKeepsCounts(c, s, steps[0]);
      RunKeepsCounts(c, Apply(c, s, steps[0]), steps[1..]);
    }
  }

  lemma {:induction false} RunKeepsFate(c: Config, s: World, steps: seq<Step>)
    requires c.hasDlq && FateOk(c, s) && Untouched(s) && IsRun(c, s, steps)
    ensures FateOk(c, After(c, s, steps))
    decreases |steps|
  {
    if steps != [] {
      hide FateOk, Untouched, Enabled, Apply;
      StepKeepsUntouched(c, s, steps[0]);
      StepKeepsFate(c, s, steps[0]);
      RunKeepsFate(c, Apply(c, s, steps[0]), steps[1..]);
    }
  }

  lemma {:induction false} RunKeepsTiming(c: Config, s: World, steps: seq<Step>)
    requires c.onTime && c.minIdle >= 10
    requires Untouched(s) && CountsOk(c, s) && TimingOk(c, s) && IsRun(c, s, steps)
    ensures CountsOk(c, After(c, s, steps)) && TimingOk(c, After(c, s, steps))
    decreases |steps|
  {
    if steps != [] {
      hide Untouched, CountsOk, TimingOk, Enabled, Apply;
      StepKeepsUntouched(c, s, steps[0]);
      StepKeepsCounts(c, s, steps[0]);
      StepKeepsTiming(c, s, steps[0]);
      RunKeepsTiming(c, Apply(c, s, steps[0]), steps[1..]);
    }
  }

  // ---------------------------------------------------------------- main results

  /** With a dead-letter stream, a parsable entry is at every moment of every run still unread, or pending for some worker
    * to reclaim, unless its handler has succeeded or its dead-letter write has landed. */
  lemma EntryLeavesOnlyWhenSettled(c: Config, steps: seq<Step>)
    requires c.hasDlq && IsRun(c, Init(), steps)
    ensures var s := After(c, Init(), steps); Recoverable(s) || Settled(s)
  {
    RunKeepsFate(c, Init(), steps);
  }

  /** The dead-letter stream is needed, and is all that is needed: with none, some run drops the entry. */
  lemma EntriesAreSafeExactlyWithDeadLetters(c: Config)
    requires !c.onTime
    ensures c.hasDlq <==> forall steps :: IsRun(c, Init(), steps) ==>
              Recoverable(After(c, Init(), steps)) || Settled(After(c, Init(), steps))
  {
    if c.hasDlq {
      forall steps | IsRun(c, Init(), steps)
        ensures Recoverable(After(c, Init(), steps)) || Settled(After(c, Init(), steps))
      {
        EntryLeavesOnlyWhenSettled(c, steps);
      }
    } else {
      AFailureDropsTheEntry(c);
    }
  }

  function AckSteps(c: Config): seq<Step> {
    if c.bufferAcks then [Flush(0)] + [Xack(0)] else [Xack(0)]
  }

  function FailSteps(c: Config): seq<Step> {
    if c.maxRetries >= 1 then [FailForGood(0)] + ([DeadLetter(0)] + AckSteps(c)) else [DeadLetter(0)] + AckSteps(c)
  }

  lemma AckStepsDrop(c: Config, s: World)
    requires Holds(s, 0, AckPhase(c)) && s.delivered == 1 && !Settled(s)
    ensures IsRun(c, s, AckSteps(c))
    ensures !Recoverable(After(c, s, AckSteps(c))) && !Settled(After(c, s, AckSteps(c)))
  {
    if c.bufferAcks {
      var t := Apply(c, s, Flush(0));
      RunOfOne(c, t, Xack(0));
      RunCons(c, s, Flush(0), [Xack(0)]);
    } else {
      RunOfOne(c, s, Xack(0));
    }
  }

  lemma FailStepsDrop(c: Config, s: World)
    requires !c.hasDlq && 0 in s.holders && s.delivered == 1 && !Settled(s)
    requires if c.maxRetries >= 1 then s.holders[0].phase.Running? else s.holders[0].phase.Failing?
    ensures IsRun(c, s, FailSteps(c))
    ensures !Recoverable(After(c, s, FailSteps(c))) && !Settled(After(c, s, FailSteps(c)))
  {
    hide AckSteps;
    var t := if c.maxRetries >= 1 then Apply(c, s, FailForGood(0)) else s;
    AckStepsDrop(c, Apply(c, t, DeadLetter(0)));
    RunCons(c, t, DeadLetter(0), AckSteps(c));
    if c.maxRetries >= 1 {
      RunCons(c, s, FailForGood(0), [DeadLetter(0)] + AckSteps(c));
    }
  }

  lemma AFailureDropsTheEntry(c: Config)
    requires !c.hasDlq && !c.onTime
    ensures var steps := [Read(0)] + ([Start(0)] + FailSteps(c));
      IsRun(c, Init(), steps) && !Recoverable(After(c, Init(), steps)) && !Settled(After(c, Init(), steps))
  {
    hide FailSteps;
    var t := Apply(c, Init(), Read(0));
    FailStepsDrop(c, Apply(c, t, Start(0)));
    RunCons(c, t, Start(0), FailSteps(c));
    RunCons(c, Init(), Read(0), [Start(0)] + FailSteps(c));
  }

  lemma RunOfOne(c: Config, s: World, step: Step)
    requires Enabled(c, s, step)
    ensures IsRun(c, s, [step]) && After(c, s, [step]) == Apply(c, s, step)
  {
    assert [step][1..] == [];
  }

  lemma RunCons(c: Config, s: World, step: Step, rest: seq<Step>)
    requires Enabled(c, s, step) && IsRun(c, Apply(c, s, step), rest)
    ensures IsRun(c, s, [step] + rest) && After(c, s, [step] + rest) == After(c, Apply(c, s, step), rest)
  {
    assert ([step] + rest)[1..] == rest;
  }

  /** The handler runs at most once per delivery count and only for counts up to `maxRetries`, so at most `maxRetries` times
    * for one entry, whatever crashes, lost acks and failing dead-letter writes make workers reclaim it. */
  lemma HandlerRunsAreBounded(c: Config, steps: seq<Step>)
    requires IsRun(c, Init(), steps)
    ensures var runs := After(c, Init(), steps).runs;
      && (forall n :: n in runs ==> 1 <= n <= c.maxRetries)
      && (forall i, j :: 0 <= i < j < |runs| ==> runs[i] != runs[j])
      && |runs| <= c.maxRetries
  {
    RunKeepsCounts(c, Init(), steps);
    var runs := After(c, Init(), steps).runs;
    assert forall k :: 0 <= k < |runs| ==> runs[k] in runs;
    Pigeonhole(runs, UpTo(c.maxRetries));
  }

  /** Reclaim safety: if each handler starts within `minIdle - TouchPeriod` of the read or claim that got it and its touches
    * are on time, then no other scanner takes the entry while it runs, and never do two handlers of one entry overlap. */
  lemma HandlersNeverOverlap(c: Config, steps: seq<Step>)
    requires c.onTime && c.minIdle >= 10 && IsRun(c, Init(), steps)
    ensures var s := After(c, Init(), steps);
      && (forall g, h :: HandlerRuns(s, g) && HandlerRuns(s, h) ==> g == h)
      && (forall g, x, h :: HandlerRuns(s, g) && Enabled(c, s, Claim(x, h)) ==> h !in Apply(c, s, Claim(x, h)).holders)
      && (forall g :: HandlerRuns(s, g) && s.pending.Some? ==> s.now - s.pending.value.since <= c.minIdle)
  {
    RunKeepsTiming(c, Init(), steps);
    hide Apply, Enabled, Stale, IsRun, After;
    var s := After(c, Init(), steps);
    forall g | HandlerRuns(s, g)
      ensures RunningOk(c, s, s.holders[g])
    {
    }
    forall g, x, h | HandlerRuns(s, g) && Enabled(c, s, Claim(x, h))
      ensures h !in Apply(c, s, Claim(x, h)).holders
    {
      NoClaimWhileRunning(c, s, x, h, g);
      ClaimNeedsFreeId(c, s, x, h);
    }
  }

  lemma ClaimNeedsFreeId(c: Config, s: World, x: Id, h: Id)
    requires Enabled(c, s, Claim(x, h))
    ensures h !in s.holders
  {
  }
}
