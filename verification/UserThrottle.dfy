/** The per-user sliding-window throttle: `UserThrottle.check` (src/rate-limiter/user-throttle.ts) around its script
  * (src/redis/index.ts, LUA_USER_THROTTLE), for one user. Times are milliseconds of one shared clock. */
module UserThrottle {
  import opened Counting
  import opened Wrappers

  /** The sorted set of one user: each member scored by when its send goes out. */
  datatype Key = Key(scores: map<string, int>, expiresAt: int)

  datatype ThrottleResult = ThrottleResult(allowed: bool, count: nat, limit: nat)

  datatype Reply = Reply(key: Key, count: nat)

  function CeilSeconds(ms: int): (s: int)
    ensures (s - 1) * 1000 < ms <= s * 1000
  {
    (ms + 999) / 1000
  }

  /** What Redis answers to TTL: rounded to the nearest second, `-2` when there is no key. */
  function Ttl(key: Key, now: int): (s: int) {
    if key.scores == map[] then -2 else (key.expiresAt - now + 500) / 1000
  }

  function Max(a: int, b: int): int {
    if a < b then b else a
  }

  function TtlSeconds(target: int, reading: int, windowMs: nat): int {
    Max(CeilSeconds(windowMs), CeilSeconds(target - reading) + CeilSeconds(windowMs))
  }

  /** The key as a command sees it: gone once its expiry has passed. */
  function Live(key: Key, now: int): (k: Key) {
    if now <= key.expiresAt then key else Key(map[], 0)
  }

  function Pruned(key: Key, before: int): (k: Key) {
    Key(map m | m in key.scores && key.scores[m] > before :: key.scores[m], key.expiresAt)
  }

  function InWindow(scores: map<string, int>, start: int, end: int): (members: set<string>) {
    set m | m in scores && start < scores[m] <= end
  }

  /** The script, run at `now`. */
  function Script(key: Key, now: int, start: int, limit: nat, target: int, member: string, ttl: int, before: int): (r: Reply) {
    var k := Pruned(Live(key, now), before);
    if member in k.scores then Reply(k, 0)
    else
      var count := |InWindow(k.scores, start, target)|;
      if count >= limit then Reply(k, count + 1)
      else Reply(Key(k.scores[member := target], if Ttl(k, now) < ttl then now + ttl * 1000 else k.expiresAt), count + 1)
  }

  /** `check` with the script run at `now`, the caller having read the clock at `reading`. */
  function Check(key: Key, now: int, reading: int, limit: nat, windowMs: nat, target: int, member: string): (r: Reply) {
    Script(key, now, target - windowMs, limit, target, member, TtlSeconds(target, reading, windowMs), reading - windowMs)
  }

  // ---------------------------------------------------------------- the object

  datatype Options = Options(limit: Option<int>, windowMs: Option<int>, scheduledAt: Option<int>)

  /** A limit of zero is legitimate: it blocks every non-critical send. */
  function NonNegativeOrNull(value: Option<int>): Option<nat> {
    if value.Some? && value.value >= 0 then Some(value.value) else None
  }

  function PositiveOrNull(value: Option<int>): Option<nat> {
    if value.Some? && value.value > 0 then Some(value.value) else None
  }

  /** The key's time is not over, and pruning up to `before` spares the member. */
  predicate StillHeld(key: Key, now: int, before: int, m: string) {
    m in key.scores && now <= key.expiresAt && before < key.scores[m]
  }

  /** A newly recorded send extends the key to a window's whole seconds past its own whole seconds from now on, unless the
    * key, by what is left of it to the nearest second, lives that long already. */
  predicate LivesFor(expiresAt: int, was: Key, now: int, reading: int, target: int, windowMs: nat, recorded: bool) {
    var seconds := CeilSeconds(windowMs) + Max(0, CeilSeconds(target - reading));
    var held := exists m :: m in was.scores && StillHeld(was, now, reading - windowMs, m);
    if recorded && (!held || was.expiresAt + 500 < now + seconds * 1000) then expiresAt == now + seconds * 1000
    else now <= was.expiresAt ==> expiresAt == was.expiresAt
  }

  /** The members still held whose sends fall after `start` and up to `end`. */
  ghost function CountedIn(key: Key, now: int, before: int, start: int, end: int): (members: set<string>)
    ensures forall m :: m in members <==> StillHeld(key, now, before, m) && start < key.scores[m] <= end
  {
    set m | m in key.scores && StillHeld(key, now, before, m) && start < key.scores[m] <= end
  }

  /** What a check does to the key: `was` is the key before it. A member still held is answered with 0; any
    * other with one more than the members in its window. It is recorded exactly if that is within the limit, and nothing
    * else changes but that what is no longer held is gone. */
  ghost predicate Throttled(was: Key, after: Key, count: nat, now: int, reading: int, limit: nat, windowMs: nat, target: int,
                            member: string) {
    var counted := CountedIn(was, now, reading - windowMs, target - windowMs, target);
    var recorded := !StillHeld(was, now, reading - windowMs, member) && |counted| < limit;
    && count == (if StillHeld(was, now, reading - windowMs, member) then 0 else |counted| + 1)
    && (forall m :: m in after.scores <==> StillHeld(was, now, reading - windowMs, m) || (recorded && m == member))
    && (forall m :: m in after.scores ==> after.scores[m] == if recorded && m == member then target else was.scores[m])
    && LivesFor(after.expiresAt, was, now, reading, target, windowMs, recorded)
  }

  lemma HeldIsPruned(key: Key, now: int, before: int, start: int, end: int)
    ensures var k := Pruned(Live(key, now), before);
      && (forall m :: m in k.scores <==> StillHeld(key, now, before, m))
      && (forall m :: m in k.scores ==> k.scores[m] == key.scores[m])
      && (now <= key.expiresAt ==> k.expiresAt == key.expiresAt)
      && (k.scores != map[] ==> now <= key.expiresAt)
      && (k.scores == map[] <==> !exists m :: m in key.scores && StillHeld(key, now, before, m))
      && InWindow(k.scores, start, end) == CountedIn(key, now, before, start, end)
  {
    var k := Pruned(Live(key, now), before);
    if m :| m in key.scores && StillHeld(key, now, before, m) {
      assert m in k.scores;
    } else {
      assert k.scores == map[];
    }
  }

  lemma CheckIsThrottled(key: Key, now: int, reading: int, limit: nat, windowMs: nat, target: int, member: string)
    ensures var r := Check(key, now, reading, limit, windowMs, target, member);
      Throttled(key, r.key, r.count, now, reading, limit, windowMs, target, member)
  {
    hide StillHeld, Pruned, Live, CeilSeconds, InWindow, CountedIn;
    HeldIsPruned(key, now, reading - windowMs, target - windowMs, target);
  }

  class Throttle {
    const maxPerHour: nat
    const windowMs: nat
    /** The user's sorted set, held by Redis. */
    var key: Key

    constructor (maxPerHour: nat, windowMs: nat)
      ensures this.maxPerHour == maxPerHour && this.windowMs == windowMs && key == Key(map[], 0)
    {
      this.maxPerHour, this.windowMs, key := maxPerHour, windowMs, Key(map[], 0);
    }

    /** A negative limit or a window that is not positive counts as none given. A critical send is neither counted nor
      * refused. Any other is allowed exactly when the key still holds it or its window still has room; only then is it
      * recorded, and a refusal records nothing. */
    method CheckSend(member: string, critical: bool, options: Options, reading: int, now: int) returns (r: ThrottleResult)
      modifies this
      ensures options.limit.Some? && options.limit.value >= 0 ==> r.limit == options.limit.value
      ensures options.limit.None? || options.limit.value < 0 ==> r.limit == maxPerHour
      ensures critical ==> r.allowed && r.count == 0 && key == old(key)
      ensures !critical ==>
                var window := if options.windowMs.Some? && options.windowMs.value > 0 then options.windowMs.value else windowMs;
                var target := if options.scheduledAt.Some? then options.scheduledAt.value else reading;
                Throttled(old(key), key, r.count, now, reading, r.limit, window, target, member) && (r.allowed <==> r.count <= r.limit)
    {
      hide Script, Throttled, TtlSeconds;
      var limit := NonNegativeOrNull(options.limit).UnwrapOr(maxPerHour);
      var window := PositiveOrNull(options.windowMs).UnwrapOr(windowMs);
      if critical {
        return ThrottleResult(true, 0, limit);
      }
      var target := options.scheduledAt.UnwrapOr(reading);
      var ttl := TtlSeconds(target, reading, window);
      var count := ThrottleUser(now, target - window, limit, target, member, ttl, reading - window);
      r := ThrottleResult(count <= limit, count, limit);
      CheckIsThrottled(old(key), now, reading, limit, window, target, member);
    }

    /** The script's commands, one by one. */
    method ThrottleUser(now: int, start: int, limit: nat, target: int, member: string, ttl: int, before: int)
      returns (count: nat)
      modifies this
      ensures Reply(key, count) == Script(old(key), now, start, limit, target, member, ttl, before)
    {
      key := Live(key, now);
      key := Pruned(key, before);
      if member in key.scores {
        return 0;
      }
      count := |InWindow(key.scores, start, target)|;
      if count < limit {
        var rounded := Ttl(key, now);
        key := key.(scores := key.scores[member := target]);
        if rounded < ttl {
          key := key.(expiresAt := now + ttl * 1000);
        }
      }
      count := count + 1;
    }
  }

  // ---------------------------------------------------------------- runs

  datatype Send = Send(member: string, target: int)

  /** `sends` are the sends recorded so far, in order. */
  datatype World = World(now: int, key: Key, sends: seq<Send>)

  /** `lag` bounds how long after the caller's clock reading the script runs. */
  datatype Config = Config(limit: nat, windowMs: nat, lag: nat)

  datatype Step = Tick(ms: nat) | Call(member: string, target: int, reading: int)

  /** Targets never go back, and none is before its caller's now. */
  predicate Enabled(c: Config, s: World, step: Step) {
    match step
    case Tick(_) => true
    case Call(_, target, reading) =>
      && reading <= target && reading <= s.now <= reading + c.lag
      && (s.sends == [] || s.sends[|s.sends| - 1].target <= target)
  }

  function Checked(c: Config, s: World, step: Step): (r: Reply)
    requires step.Call?
  {
    Check(s.key, s.now, step.reading, c.limit, c.windowMs, step.target, step.member)
  }

  predicate Seen(c: Config, s: World, step: Step)
    requires step.Call?
  {
    step.member in Pruned(Live(s.key, s.now), step.reading - c.windowMs).scores
  }

  /** Newly recorded: allowed, and not a replay. */
  predicate Records(c: Config, s: World, step: Step) {
    step.Call? && !Seen(c, s, step) && Checked(c, s, step).count <= c.limit
  }

  function Apply(c: Config, s: World, step: Step): (s': World) {
    match step
    case Tick(ms) => s.(now := s.now + ms)
    case Call(member, target, _) =>
      World(s.now, Checked(c, s, step).key, if Records(c, s, step) then s.sends + [Send(member, target)] else s.sends)
  }

  predicate IsRun(c: Config, s: World, steps: seq<Step>)
    decreases |steps|
  {
    steps == [] || (Enabled(c, s, steps[0]) && IsRun(c, Apply(c, s, steps[0]), steps[1..]))
  }

  function After(c: Config, s: World, steps: seq<Step>): (s': World)
    requires IsRun(c, s, steps)
    decreases |steps|
  {
    if steps == [] then s else After(c, Apply(c, s, steps[0]), steps[1..])
  }

  function Init(now: int): World {
    World(now, Key(map[], 0), [])
  }

  // ---------------------------------------------------------------- how long the key lives

  /** When a call newly records a send, the key lives through a whole window from that send exactly if it would have anyway
    * or the rounded TTL is below the wanted one; the rounding costs it at most 500 ms of the window's whole seconds. */
  lemma KeyOutlivesSend(c: Config, s: World, step: Step)
    requires Enabled(c, s, step) && Records(c, s, step)
    ensures var before, after := Pruned(Live(s.key, s.now), step.reading - c.windowMs), Apply(c, s, step).key;
      && after.expiresAt + 500 >= step.target + CeilSeconds(c.windowMs) * 1000
      && (c.windowMs > 0 ==> after.expiresAt >= s.now + 500)
      && (before.scores != map[] ==> after.expiresAt >= before.expiresAt)
      && (after.expiresAt + 1 >= step.target + c.windowMs <==>
            before.expiresAt + 1 >= step.target + c.windowMs
            || Ttl(before, s.now) < TtlSeconds(step.target, step.reading, c.windowMs))
  {
  }

  // ---------------------------------------------------------------- what the key still remembers

  /** A send is in the window for `windowMs` milliseconds from its own on; the key may miss the last `short` of them. */
  predicate Due(c: Config, s: World, k: nat, short: nat)
    requires k < |s.sends|
  {
    s.now < s.sends[k].target + c.windowMs - short
  }

  predicate Remembered(c: Config, s: World, k: nat, short: nat)
    requires k < |s.sends|
  {
    && s.sends[k].member in s.key.scores && s.key.scores[s.sends[k].member] == s.sends[k].target
    && s.key.expiresAt + 1 >= s.sends[k].target + c.windowMs - short
  }

  /** Pruning and expiry never remove a member that a later check must count. */
  ghost predicate Remembers(c: Config, s: World, short: nat) {
    && (forall k: nat :: k < |s.sends| && Due(c, s, k, short) ==> Remembered(c, s, k, short))
    && (forall j: nat, k: nat :: j < k < |s.sends| && Due(c, s, j, short) ==> s.sends[j].member != s.sends[k].member)
  }

  ghost predicate Ordered(s: World) {
    forall j: nat, k: nat :: j < k < |s.sends| ==> s.sends[j].target <= s.sends[k].target
  }

  /** Any `limit + 1` sends in a row span at least `windowMs - short - lag`. */
  ghost predicate Spaced(c: Config, s: World, short: nat) {
    forall k: nat :: k < |s.sends| ==> SpacedAt(c, s.sends, short, k)
  }

  predicate SpacedAt(c: Config, sends: seq<Send>, short: nat, k: nat)
    requires k < |sends|
  {
    c.limit <= k ==> sends[k - c.limit].target + c.windowMs - short - c.lag <= sends[k].target
  }

  ghost predicate Inv(c: Config, s: World, short: nat) {
    Remembers(c, s, short) && Ordered(s) && Spaced(c, s, short)
  }

  /** The key a step leaves lives through all but `short` of the window of the send the step records. */
  predicate LivesOn(c: Config, s: World, step: Step, short: nat) {
    Records(c, s, step) ==> Apply(c, s, step).key.expiresAt + 1 >= step.target + c.windowMs - short
  }

  /** A member that a check at `s.now` must count is still in the key when the check counts. */
  lemma DueSurvivesPruning(c: Config, s: World, step: Step, k: nat, short: nat)
    requires Enabled(c, s, step) && step.Call? && k < |s.sends| && Due(c, s, k, short) && Remembered(c, s, k, short)
    ensures var k' := Pruned(Live(s.key, s.now), step.reading - c.windowMs);
      s.sends[k].member in k'.scores && k'.scores[s.sends[k].member] == s.sends[k].target && k'.expiresAt == s.key.expiresAt
  {
  }

  lemma StepKeepsRemembers(c: Config, s: World, step: Step, short: nat)
    requires Enabled(c, s, step) && Inv(c, s, short) && LivesOn(c, s, step, short)
    ensures Remembers(c, Apply(c, s, step), short)
  {
    hide InWindow, TtlSeconds, Spaced, CeilSeconds;
    var t := Apply(c, s, step);
    forall k: nat | k < |t.sends| && Due(c, t, k, short)
      ensures Remembered(c, t, k, short)
      ensures forall j: nat :: k < j < |t.sends| ==> t.sends[k].member != t.sends[j].member
    {
      if k < |s.sends| {
        assert Due(c, s, k, short);
        if step.Call? {
          DueSurvivesPruning(c, s, step, k, short);
          KeepsDue(c, s, step, k);
        }
      }
    }
  }

  lemma KeepsDue(c: Config, s: World, step: Step, k: nat)
    requires Enabled(c, s, step) && step.Call? && k < |s.sends|
    requires var k' := Pruned(Live(s.key, s.now), step.reading - c.windowMs);
      s.sends[k].member in k'.scores && k'.scores[s.sends[k].member] == s.sends[k].target && k'.expiresAt == s.key.expiresAt
    ensures var t := Apply(c, s, step);
      && s.sends[k].member in t.key.scores && t.key.scores[s.sends[k].member] == s.sends[k].target
      && t.key.expiresAt >= s.key.expiresAt
      && (Records(c, s, step) ==> s.sends[k].member != step.member)
  {
    hide InWindow, TtlSeconds, CeilSeconds;
  }

  // ---------------------------------------------------------------- counting

  /** A send is only recorded once the one `limit` places before it has left the window. */
  lemma RecordedIsSpaced(c: Config, s: World, step: Step, short: nat)
    requires Enabled(c, s, step) && Inv(c, s, short) && Records(c, s, step) && |s.sends| >= c.limit > 0
    ensures s.sends[|s.sends| - c.limit].target + c.windowMs - short - c.lag <= step.target
  {
    var first := |s.sends| - c.limit;
    if s.sends[first].target + c.windowMs - short - c.lag > step.target {
      hide TtlSeconds, CeilSeconds, Spaced;
      var recent := s.sends[first..];
      var pruned := Pruned(Live(s.key, s.now), step.reading - c.windowMs);
      var counted := InWindow(pruned.scores, step.target - c.windowMs, step.target);
      forall i | 0 <= i < |recent|
        ensures recent[i].member in counted
        ensures forall j :: i < j < |recent| ==> recent[i].member != recent[j].member
      {
        var k := first + i;
        assert s.sends[first].target <= s.sends[k].target <= s.sends[|s.sends| - 1].target;
        assert Due(c, s, k, short);
        DueSurvivesPruning(c, s, step, k, short);
      }
      Pigeonhole(seq(|recent|, i requires 0 <= i < |recent| => recent[i].member), counted);
      assert false;
    }
  }

  lemma AppendKeepsOrder(c: Config, s: World, t: World, send: Send, short: nat)
    requires Ordered(s) && Spaced(c, s, short) && t.sends == s.sends + [send]
    requires s.sends == [] || s.sends[|s.sends| - 1].target <= send.target
    requires |s.sends| >= c.limit ==> 0 < c.limit
    requires |s.sends| >= c.limit ==> s.sends[|s.sends| - c.limit].target + c.windowMs - short - c.lag <= send.target
    ensures Ordered(t) && Spaced(c, t, short)
  {
    forall k: nat | k < |s.sends|
      ensures SpacedAt(c, t.sends, short, k)
    {
      assert SpacedAt(c, s.sends, short, k);
    }
    assert Ordered(t) by {
      forall j: nat, k: nat | j < k < |t.sends|
        ensures t.sends[j].target <= t.sends[k].target
      {
        if k == |s.sends| {
          assert j < |s.sends| - 1 ==> s.sends[j].target <= s.sends[|s.sends| - 1].target;
        }
      }
    }
  }

  lemma NothingRecordedAtLimitZero(c: Config, s: World, step: Step)
    requires Records(c, s, step)
    ensures c.limit > 0
  {
  }

  lemma StepKeepsInv(c: Config, s: World, step: Step, short: nat)
    requires Enabled(c, s, step) && Inv(c, s, short) && LivesOn(c, s, step, short)
    ensures Inv(c, Apply(c, s, step), short)
  {
    StepKeepsRemembers(c, s, step, short);
    if Records(c, s, step) {
      NothingRecordedAtLimitZero(c, s, step);
      if |s.sends| >= c.limit {
        RecordedIsSpaced(c, s, step, short);
      }
      hide Check, Script, Records, Remembers, LivesOn, Ordered, Spaced;
      AppendKeepsOrder(c, s, Apply(c, s, step), Send(step.member, step.target), short);
    }
    hide Check, Script, Records, Remembers, LivesOn;
  }

  lemma {:induction false} RunKeepsInv(c: Config, s: World, steps: seq<Step>)
    requires IsRun(c, s, steps) && Inv(c, s, 499)
    ensures Inv(c, After(c, s, steps), 499)
    decreases |steps|
  {
    if steps != [] {
      if Records(c, s, steps[0]) {
        KeyOutlivesSend(c, s, steps[0]);
      }
      hide Inv, Enabled;
      StepKeepsInv(c, s, steps[0], 499);
      hide Apply, LivesOn, Records;
      RunKeepsInv(c, Apply(c, s, steps[0]), steps[1..]);
    }
  }

  /** Every recording step of the run leaves a key that outlives its send by the whole window. */
  predicate KeyNeverShort(c: Config, s: World, steps: seq<Step>)
    requires IsRun(c, s, steps)
    decreases |steps|
  {
    steps == [] || (LivesOn(c, s, steps[0], 0) && KeyNeverShort(c, Apply(c, s, steps[0]), steps[1..]))
  }

  lemma {:induction false} FullRunKeepsInv(c: Config, s: World, steps: seq<Step>)
    requires IsRun(c, s, steps) && KeyNeverShort(c, s, steps) && Inv(c, s, 0)
    ensures Inv(c, After(c, s, steps), 0)
    decreases |steps|
  {
    if steps != [] {
      hide Inv, Enabled;
      StepKeepsInv(c, s, steps[0], 0);
      hide Apply, LivesOn;
      FullRunKeepsInv(c, Apply(c, s, steps[0]), steps[1..]);
    }
  }

  /** Of sends spaced like this, an interval no longer than the spacing holds at most `limit`. */
  lemma SpacedMeansAtMost(c: Config, s: World, short: nat, j: nat, k: nat, x: int)
    requires Ordered(s) && Spaced(c, s, short) && j <= k < |s.sends|
    requires x - (c.windowMs - short - c.lag) < s.sends[j].target && s.sends[k].target <= x
    ensures k - j + 1 <= c.limit
  {
    assert SpacedAt(c, s.sends, short, k);
  }

  // ---------------------------------------------------------------- main results

  /** The throttle bound, over every run: with one shared clock, any interval of 499 ms less than the window (and less
    * the time a script may lag behind its caller's clock reading) holds at most `limit` recorded sends. */
  lemma NearlyAWindowHoldsAtMostLimit(c: Config, now: int, steps: seq<Step>, j: nat, k: nat, x: int)
    requires IsRun(c, Init(now), steps) && j <= k < |After(c, Init(now), steps).sends|
    requires var sends := After(c, Init(now), steps).sends;
      x - (c.windowMs - 499 - c.lag) < sends[j].target && sends[k].target <= x
    ensures k - j + 1 <= c.limit
  {
    RunKeepsInv(c, Init(now), steps);
    SpacedMeansAtMost(c, After(c, Init(now), steps), 499, j, k, x);
  }

  /** The bound over the whole window less the lag, for every run in which no recording step hits the half-second rounding
    * of TTL: see `KeyOutlivesSend` for exactly when a step does. (That neither can be had over the whole window in general,
    * and exactly when both can, is the result of ThrottleWindow.) */
  lemma AWindowHoldsAtMostLimit(c: Config, now: int, steps: seq<Step>, j: nat, k: nat, x: int)
    requires IsRun(c, Init(now), steps) && KeyNeverShort(c, Init(now), steps)
    requires j <= k < |After(c, Init(now), steps).sends|
    requires var sends := After(c, Init(now), steps).sends;
      x - (c.windowMs - c.lag) < sends[j].target && sends[k].target <= x
    ensures k - j + 1 <= c.limit
  {
    FullRunKeepsInv(c, Init(now), steps);
    SpacedMeansAtMost(c, After(c, Init(now), steps), 0, j, k, x);
  }

  /** A call that finds, after pruning, `seen` and fewer than the limit of them in its window, is recorded. */
  lemma CallRecords(c: Config, s: World, step: Step, seen: Key, counted: set<string>)
    requires step.Call? && seen == Pruned(Live(s.key, s.now), step.reading - c.windowMs)
    requires step.member !in seen.scores
    requires counted == InWindow(seen.scores, step.target - c.windowMs, step.target) && |counted| < c.limit
    ensures Apply(c, s, step) ==
            World(s.now,
                  Key(seen.scores[step.member := step.target],
                      if Ttl(seen, s.now) < TtlSeconds(step.target, step.reading, c.windowMs)
                      then s.now + TtlSeconds(step.target, step.reading, c.windowMs) * 1000 else seen.expiresAt),
                  s.sends + [Send(step.member, step.target)])
  {
  }

  lemma RunCons(c: Config, s: World, step: Step, t: World, rest: seq<Step>)
    requires Enabled(c, s, step) && t == Apply(c, s, step) && IsRun(c, t, rest)
    ensures IsRun(c, s, [step] + rest) && After(c, s, [step] + rest) == After(c, t, rest)
  {
    assert ([step] + rest)[1..] == rest;
  }

  lemma RunNil(c: Config, s: World)
    ensures IsRun(c, s, []) && After(c, s, []) == s
  {
  }

  lemma TickIs(c: Config, s: World, ms: nat)
    ensures Enabled(c, s, Tick(ms)) && Apply(c, s, Tick(ms)) == s.(now := s.now + ms)
  {
  }

  lemma FirstTwo(c: Config)
    requires c == Config(2, 3_600_000, 0)
    ensures Enabled(c, Init(0), Call("a", 0, 0))
    ensures Enabled(c, World(400, Key(map["a" := 0], 3_600_000), [Send("a", 0)]), Call("b", 400, 400))
    ensures Apply(c, Init(0), Call("a", 0, 0)) == World(0, Key(map["a" := 0], 3_600_000), [Send("a", 0)])
    ensures Apply(c, World(400, Key(map["a" := 0], 3_600_000), [Send("a", 0)]), Call("b", 400, 400)) ==
            World(400, Key(map["a" := 0, "b" := 400], 3_600_000), [Send("a", 0), Send("b", 400)])
  {
    CallRecords(c, Init(0), Call("a", 0, 0), Key(map[], 0), {});
    CallRecords(c, World(400, Key(map["a" := 0], 3_600_000), [Send("a", 0)]), Call("b", 400, 400),
                Key(map["a" := 0], 3_600_000), {"a"});
  }

  lemma LastTwo(c: Config, sends: seq<Send>)
    requires c == Config(2, 3_600_000, 0)
    ensures Apply(c, World(3_600_100, Key(map["a" := 0, "b" := 400], 3_600_000), sends), Call("c", 3_600_100, 3_600_100)) ==
            World(3_600_100, Key(map["c" := 3_600_100], 7_200_100), sends + [Send("c", 3_600_100)])
    ensures Apply(c, World(3_600_150, Key(map["c" := 3_600_100], 7_200_100), sends), Call("d", 3_600_150, 3_600_150)).sends ==
            sends + [Send("d", 3_600_150)]
  {
    CallRecords(c, World(3_600_100, Key(map["a" := 0, "b" := 400], 3_600_000), sends),
                Call("c", 3_600_100, 3_600_100), Key(map[], 0), {});
    CallRecords(c, World(3_600_150, Key(map["c" := 3_600_100], 7_200_100), sends),
                Call("d", 3_600_150, 3_600_150), Key(map["c" := 3_600_100], 7_200_100), {"c"});
  }

  function LastCalls(): seq<Step> {
    [Tick(3_599_700)] + ([Call("c", 3_600_100, 3_600_100)] + ([Tick(50)] + ([Call("d", 3_600_150, 3_600_150)] + [])))
  }

  /** Four sends: at 0, at 400 ms, and just after the hour has gone by. */
  function FourCalls(): seq<Step> {
    [Call("a", 0, 0)] + ([Tick(400)] + ([Call("b", 400, 400)] + LastCalls()))
  }

  lemma AThirdAndAFourth(c: Config)
    requires c == Config(2, 3_600_000, 0)
    ensures var s := World(400, Key(map["a" := 0, "b" := 400], 3_600_000), [Send("a", 0), Send("b", 400)]);
      IsRun(c, s, LastCalls()) && After(c, s, LastCalls()).sends == s.sends + [Send("c", 3_600_100)] + [Send("d", 3_600_150)]
  {
    var two := [Send("a", 0), Send("b", 400)];
    var three := two + [Send("c", 3_600_100)];
    LastTwo(c, two);
    LastTwo(c, three);
    var afterB := Key(map["a" := 0, "b" := 400], 3_600_000);
    var afterC := Key(map["c" := 3_600_100], 7_200_100);
    var third, fourth := Call("c", 3_600_100, 3_600_100), Call("d", 3_600_150, 3_600_150);
    var end := Apply(c, World(3_600_150, afterC, three), fourth);
    RunNil(c, end);
    hide Check, Script, Records, IsRun, After;
    RunCons(c, World(3_600_150, afterC, three), fourth, end, []);
    RunCons(c, World(3_600_100, afterC, three), Tick(50), World(3_600_150, afterC, three), [fourth] + []);
    RunCons(c, World(3_600_100, afterB, two), third, World(3_600_100, afterC, three), [Tick(50)] + ([fourth] + []));
    RunCons(c, World(400, afterB, two), Tick(3_599_700), World(3_600_100, afterB, two),
            [third] + ([Tick(50)] + ([fourth] + [])));
  }

  /** Without that condition the whole-window bound fails: two sends an hour are allowed here, yet three go out within one
    * hour. The second send finds 3599.6 s left on the key, which TTL reports as the 3600 it wants, and leaves it; the key
    * then expires 399 ms before that send leaves the window. */
  lemma RoundedTtlAdmitsAThird()
    ensures var c := Config(2, 3_600_000, 0);
      && IsRun(c, Init(0), FourCalls())
      && var sends := After(c, Init(0), FourCalls()).sends;
         |sends| == 4 && 3_600_150 - c.windowMs < sends[1].target && sends[3].target <= 3_600_150
  {
    var c := Config(2, 3_600_000, 0);
    var one := World(0, Key(map["a" := 0], 3_600_000), [Send("a", 0)]);
    var two := World(400, Key(map["a" := 0, "b" := 400], 3_600_000), [Send("a", 0), Send("b", 400)]);
    var second := Call("b", 400, 400);
    FirstTwo(c);
    AThirdAndAFourth(c);
    TickIs(c, one, 400);
    hide Apply, Enabled, IsRun, After, LastCalls;
    RunCons(c, one.(now := 400), second, two, LastCalls());
    RunCons(c, one, Tick(400), one.(now := 400), [second] + LastCalls());
    RunCons(c, Init(0), Call("a", 0, 0), one, [Tick(400)] + ([second] + LastCalls()));
  }

  // ---------------------------------------------------------------- a short key always matters

  function Name(i: nat): string {
    seq(i + 1, _ => 'a')
  }

  function Names(n: nat): (names: set<string>) {
    if n == 0 then {} else Names(n - 1) + {Name(n - 1)}
  }

  lemma {:induction false} NamesDiffer(n: nat, k: nat)
    requires n <= k
    ensures |Names(n)| == n && Name(k) !in Names(n)
  {
    if n > 0 {
      NamesDiffer(n - 1, k);
      NamesDiffer(n - 1, n - 1);
      assert |Name(k)| != |Name(n - 1)|;
    }
  }

  /** `n` sends recorded at time `at`, in an otherwise empty key. */
  ghost predicate Filled(c: Config, s: World, at: int, n: nat) {
    && s.now == at && s.key.scores.Keys == Names(n) && (forall m :: m in s.key.scores ==> s.key.scores[m] == at)
    && s.key.expiresAt >= at + c.windowMs
    && (s.sends != [] ==> s.sends[|s.sends| - 1].target <= at)
  }

  lemma TtlIsPositive(c: Config, at: int)
    requires c.windowMs > 0
    ensures TtlSeconds(at, at, c.windowMs) > 0
  {
  }

  /** What a further call at the same time finds. */
  lemma FindsNames(c: Config, s: World, at: int, n: nat)
    requires 0 < c.windowMs && Ready(c, s, at, n)
    ensures var seen := Pruned(Live(s.key, s.now), at - c.windowMs);
      && seen.scores.Keys == Names(n) && (forall m :: m in seen.scores ==> seen.scores[m] == at)
      && InWindow(seen.scores, at - c.windowMs, at) == Names(n)
      && (n > 0 ==> seen.expiresAt >= at + c.windowMs)
  {
    hide Name;
    var seen := Pruned(Live(s.key, s.now), at - c.windowMs);
    assert seen.scores.Keys == Names(n);
  }

  ghost predicate Ready(c: Config, s: World, at: int, n: nat) {
    if n == 0 then s.now == at && s.key.expiresAt < at && (s.sends != [] ==> s.sends[|s.sends| - 1].target <= at)
    else Filled(c, s, at, n)
  }

  lemma OneMoreSend(c: Config, s: World, at: int, n: nat)
    requires n < c.limit && 0 < c.windowMs && Ready(c, s, at, n)
    ensures var call := Call(Name(n), at, at);
      Enabled(c, s, call) && Ready(c, Apply(c, s, call), at, n + 1) && Apply(c, s, call).sends == s.sends + [Send(Name(n), at)]
  {
    var call := Call(Name(n), at, at);
    assert Enabled(c, s, call);
    FindsNames(c, s, at, n);
    NamesDiffer(n, n);
    TtlIsPositive(c, at);
    var seen := Pruned(Live(s.key, s.now), at - c.windowMs);
    hide Name, TtlSeconds, CeilSeconds, Check, Script, Records, Live, Pruned, InWindow, Enabled;
    CallRecords(c, s, call, seen, Names(n));
    hide Apply;
    assert seen.scores[Name(n) := at].Keys == Names(n + 1);
  }

  /** Calls at one time, until `m` are recorded. */
  lemma {:induction false} FillingUp(c: Config, s: World, at: int, n: nat, m: nat) returns (steps: seq<Step>)
    requires n <= m <= c.limit && 0 < c.windowMs && Ready(c, s, at, n)
    ensures IsRun(c, s, steps)
    ensures var t := After(c, s, steps);
      && Ready(c, t, at, m) && |t.sends| == |s.sends| + m - n && s.sends <= t.sends
      && forall k :: |s.sends| <= k < |t.sends| ==> t.sends[k].target == at
    decreases m - n
  {
    if n == m {
      steps := [];
    } else {
      OneMoreSend(c, s, at, n);
      var call := Call(Name(n), at, at);
      hide Apply, Enabled, Ready;
      steps := FillingUp(c, Apply(c, s, call), at, n + 1, m);
      RunCons(c, s, call, Apply(c, s, call), steps);
      steps := [call] + steps;
    }
  }

  /** The condition of `AWindowHoldsAtMostLimit` cannot be dropped at any single step: whenever a recording step leaves the
    * key short of a whole window, some continuation records more than `limit` sends within one window. */
  lemma AShortKeyCanOverflow(c: Config, s: World, step: Step) returns (steps: seq<Step>, j: nat, k: nat)
    requires c.limit > 0 && c.windowMs > 0
    requires Enabled(c, s, step) && Records(c, s, step) && !LivesOn(c, s, step, 0)
    ensures IsRun(c, Apply(c, s, step), steps)
    ensures var sends := After(c, Apply(c, s, step), steps).sends;
      && j <= k < |sends| && k - j + 1 > c.limit
      && sends[k].target - c.windowMs < sends[j].target && sends[j].target <= sends[k].target
  {
    KeyOutlivesSend(c, s, step);
    var t := Apply(c, s, step);
    var at := t.key.expiresAt + 1;
    assert step.target <= at < step.target + c.windowMs && t.now <= at;
    var u := t.(now := at);
    TickIs(c, t, at - t.now);
    hide Apply, Enabled, Records, LivesOn, Filled;
    steps := FillingUp(c, u, at, 0, c.limit);
    RunCons(c, t, Tick(at - t.now), u, steps);
    steps := [Tick(at - t.now)] + steps;
    j, k := |t.sends| - 1, |t.sends| - 1 + c.limit;
  }
}
