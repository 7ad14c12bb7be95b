/** When the throttle keeps its promise over the whole window: exactly when no script lags behind its caller's clock reading
  * and the window falls short of whole seconds by at least 499 ms. */
module ThrottleWindow {
  import opened UserThrottle

  /** No window, up to and including any send, holds more than the limit. */
  predicate AtMostLimit(c: Config, sends: seq<Send>) {
    forall j: nat, k: nat :: j <= k < |sends| && sends[k].target - c.windowMs < sends[j].target ==> k - j + 1 <= c.limit
  }

  ghost predicate KeepsWholeWindow(c: Config) {
    forall now, steps :: IsRun(c, Init(now), steps) ==> AtMostLimit(c, After(c, Init(now), steps).sends)
  }

  /** What rounding the window up to whole seconds adds to a key's life. */
  function Slack(c: Config): (ms: int) {
    CeilSeconds(c.windowMs) * 1000 - c.windowMs
  }

  // ---------------------------------------------------------------- enough slack

  lemma {:induction false} SlackCoversRounding(c: Config, s: World, steps: seq<Step>)
    requires Slack(c) >= 499 && IsRun(c, s, steps)
    ensures KeyNeverShort(c, s, steps)
    decreases |steps|
  {
    if steps != [] {
      if Records(c, s, steps[0]) {
        KeyOutlivesSend(c, s, steps[0]);
      }
      assert LivesOn(c, s, steps[0], 0);
      hide Apply, Enabled, LivesOn;
      SlackCoversRounding(c, Apply(c, s, steps[0]), steps[1..]);
    }
  }

  lemma EnoughSlackKeeps(c: Config)
    requires c.lag == 0 && Slack(c) >= 499
    ensures KeepsWholeWindow(c)
  {
    forall now, steps | IsRun(c, Init(now), steps)
      ensures AtMostLimit(c, After(c, Init(now), steps).sends)
    {
      SlackCoversRounding(c, Init(now), steps);
      var sends := After(c, Init(now), steps).sends;
      forall j: nat, k: nat | j <= k < |sends| && sends[k].target - c.windowMs < sends[j].target
        ensures k - j + 1 <= c.limit
      {
        AWindowHoldsAtMostLimit(c, now, steps, j, k, sends[k].target);
      }
    }
  }

  // ---------------------------------------------------------------- too little slack

  function ShortKey(c: Config): (s: World) {
    World(500, Key(map[Name(0) := 500], 1000 + CeilSeconds(c.windowMs) * 1000), [Send(Name(0), 500)])
  }

  /** A send half a second ahead: its key lives a whole second longer than the window's. */
  lemma ScheduledSend(c: Config) returns (steps: seq<Step>)
    requires c.limit >= 2 && c.windowMs > 0
    ensures IsRun(c, Init(0), steps) && After(c, Init(0), steps) == ShortKey(c)
  {
    var call := Call(Name(0), 500, 0);
    var one := ShortKey(c).(now := 0);
    CallRecords(c, Init(0), call, Key(map[], 0), {});
    assert CeilSeconds(500) == 1;
    assert Apply(c, Init(0), call) == one;
    assert Enabled(c, Init(0), call);
    TickIs(c, one, 500);
    RunNil(c, ShortKey(c));
    hide Apply, Enabled, IsRun, After, Name;
    RunCons(c, one, Tick(500), ShortKey(c), []);
    RunCons(c, Init(0), call, one, [Tick(500)] + []);
    steps := [call] + ([Tick(500)] + []);
  }

  /** At its time a second one, a second ahead, finds the TTL rounded up to what it wants. */
  lemma RoundedUp(c: Config)
    requires c.limit >= 2 && c.windowMs > 0 && Slack(c) < 499
    ensures var call := Call(Name(1), 1500, 500);
      Enabled(c, ShortKey(c), call) && Records(c, ShortKey(c), call) && !LivesOn(c, ShortKey(c), call, 0)
  {
    var s, call := ShortKey(c), Call(Name(1), 1500, 500);
    NamesDiffer(1, 1);
    assert Name(1) != Name(0);
    hide Name;
    var counted := InWindow(s.key.scores, 1500 - c.windowMs, 1500);
    assert counted <= {Name(0)};
    assert |counted| <= 1 by {
      assert counted == {} || counted == {Name(0)};
    }
    assert Pruned(Live(s.key, s.now), 500 - c.windowMs) == s.key;
    CallRecords(c, s, call, s.key, counted);
    assert CeilSeconds(1000) == 1;
    assert TtlSeconds(1500, 500, c.windowMs) == 1 + CeilSeconds(c.windowMs);
    assert Ttl(s.key, 500) == 1 + CeilSeconds(c.windowMs);
    hide CeilSeconds;
    assert Apply(c, s, call).sends != s.sends;
    assert Apply(c, s, call).key.expiresAt == s.key.expiresAt;
  }

  lemma LittleSlackOverflows(c: Config)
    requires c.limit >= 2 && c.windowMs > 0 && Slack(c) < 499
    ensures !KeepsWholeWindow(c)
  {
    var first := ScheduledSend(c);
    RoundedUp(c);
    var call := Call(Name(1), 1500, 500);
    var t := Apply(c, ShortKey(c), call);
    var rest, j, k := AShortKeyCanOverflow(c, ShortKey(c), call);
    hide Apply, Enabled, Records, LivesOn, Name, ShortKey;
    RunCons(c, ShortKey(c), call, t, rest);
    RunsOn(c, Init(0), first, [call] + rest);
    Overflows(c, 0, first + ([call] + rest), j, k);
  }

  lemma Overflows(c: Config, now: int, steps: seq<Step>, j: nat, k: nat)
    requires IsRun(c, Init(now), steps)
    requires var sends := After(c, Init(now), steps).sends;
      j <= k < |sends| && sends[k].target - c.windowMs < sends[j].target && k - j + 1 > c.limit
    ensures !KeepsWholeWindow(c)
  {
    assert !AtMostLimit(c, After(c, Init(now), steps).sends);
  }

  lemma {:induction false} RunsOn(c: Config, s: World, first: seq<Step>, second: seq<Step>)
    requires IsRun(c, s, first) && IsRun(c, After(c, s, first), second)
    ensures IsRun(c, s, first + second) && After(c, s, first + second) == After(c, After(c, s, first), second)
    decreases |first|
  {
    hide Enabled, Apply;
    if first == [] {
      assert first + second == second;
    } else {
      RunsOn(c, Apply(c, s, first[0]), first[1..], second);
      assert (first + second)[1..] == first[1..] + second;
    }
  }

  // ---------------------------------------------------------------- a lag

  /** `limit - 1` sends recorded at 1, and `last` at 2. */
  ghost predicate OneMoreAtTwo(c: Config, s: World, last: string) {
    && s.now == 2 && |s.sends| == c.limit >= 2
    && (forall k :: 0 <= k < c.limit ==> s.sends[k].target == if k < c.limit - 1 then 1 else 2)
    && last in s.key.scores && (forall m :: m in s.key.scores ==> s.key.scores[m] == if m == last then 2 else 1)
    && s.key.expiresAt >= 1 + c.windowMs
  }

  lemma AllButOne(c: Config) returns (steps: seq<Step>)
    requires c.limit >= 2 && c.windowMs >= 2
    ensures IsRun(c, Init(1), steps)
    ensures var s := After(c, Init(1), steps); Filled(c, s, 1, c.limit - 1) && |s.sends| == c.limit - 1
    ensures forall k :: 0 <= k < c.limit - 1 ==> After(c, Init(1), steps).sends[k].target == 1
  {
    steps := FillingUp(c, Init(1), 1, 0, c.limit - 1);
  }

  lemma OneMillisecondOn(c: Config, s: World)
    requires c.limit >= 2 && c.windowMs >= 2 && Filled(c, s, 1, c.limit - 1) && |s.sends| == c.limit - 1
    requires forall k :: 0 <= k < c.limit - 1 ==> s.sends[k].target == 1
    ensures var u, last := s.(now := 2), Name(c.limit - 1); var call := Call(last, 2, 2);
      Enabled(c, u, call) && OneMoreAtTwo(c, Apply(c, u, call), last)
  {
    var u, last := s.(now := 2), Name(c.limit - 1);
    var call := Call(last, 2, 2);
    assert Enabled(c, u, call);
    NamesDiffer(c.limit - 1, c.limit - 1);
    hide Name;
    var seen := Pruned(Live(u.key, 2), 2 - c.windowMs);
    assert seen == u.key;
    assert InWindow(seen.scores, 2 - c.windowMs, 2) == Names(c.limit - 1);
    CallRecords(c, u, call, seen, Names(c.limit - 1));
    TtlIsLong(c, 2);
    hide Apply, TtlSeconds;
    assert Apply(c, u, call).sends == s.sends + [Send(last, 2)];
  }

  lemma TtlIsLong(c: Config, at: int)
    ensures TtlSeconds(at, at, c.windowMs) * 1000 >= c.windowMs
  {
  }

  /** A repetition of that send prunes all the others, and a call that read its clock before it does not see them. */
  lemma Repeating(c: Config, s: World, last: string)
    requires c.windowMs >= 2 && OneMoreAtTwo(c, s, last)
    ensures var u, again := s.(now := 1 + c.windowMs), Call(last, 1 + c.windowMs, 1 + c.windowMs);
      Enabled(c, u, again) && Apply(c, u, again) == u.(key := Key(map[last := 2], s.key.expiresAt))
  {
    var u, again := s.(now := 1 + c.windowMs), Call(last, 1 + c.windowMs, 1 + c.windowMs);
    assert Pruned(Live(u.key, u.now), 1).scores == map[last := 2];
    assert Enabled(c, u, again);
  }

  lemma Lagging(c: Config, s: World, last: string, other: string)
    requires c.windowMs >= 2 && c.lag >= 1 && c.limit >= 2 && other != last
    requires s.now == 1 + c.windowMs <= s.key.expiresAt && s.key.scores == map[last := 2]
    requires s.sends != [] && s.sends[|s.sends| - 1].target == 2
    ensures var call := Call(other, c.windowMs, c.windowMs);
      Enabled(c, s, call) && Apply(c, s, call).sends == s.sends + [Send(other, c.windowMs)]
  {
    var call := Call(other, c.windowMs, c.windowMs);
    assert Pruned(Live(s.key, s.now), 0) == s.key;
    assert InWindow(s.key.scores, 0, c.windowMs) == {last};
    CallRecords(c, s, call, s.key, {last});
  }

  lemma LagOverflows(c: Config)
    requires c.limit >= 2 && c.windowMs >= 2 && c.lag >= 1
    ensures !KeepsWholeWindow(c)
  {
    var first := AllButOne(c);
    var s := After(c, Init(1), first);
    OneMillisecondOn(c, s);
    var last, other := Name(c.limit - 1), Name(c.limit);
    assert |last| != |other|;
    var call := Call(last, 2, 2);
    var two := Apply(c, s.(now := 2), call);
    Repeating(c, two, last);
    var again, late := Call(last, 1 + c.windowMs, 1 + c.windowMs), Call(other, c.windowMs, c.windowMs);
    var repeated := Apply(c, two.(now := 1 + c.windowMs), again);
    Lagging(c, repeated, last, other);
    var end := Apply(c, repeated, late);
    TickIs(c, s, 1);
    TickIs(c, two, c.windowMs - 1);
    RunNil(c, end);
    hide Apply, Enabled, Name, IsRun, After, Filled;
    RunCons(c, repeated, late, end, []);
    var steps := [late] + [];
    RunCons(c, two.(now := 1 + c.windowMs), again, repeated, steps);
    steps := [again] + steps;
    RunCons(c, two, Tick(c.windowMs - 1), two.(now := 1 + c.windowMs), steps);
    steps := [Tick(c.windowMs - 1)] + steps;
    RunCons(c, s.(now := 2), call, two, steps);
    steps := [call] + steps;
    RunCons(c, s, Tick(1), s.(now := 2), steps);
    steps := [Tick(1)] + steps;
    RunsOn(c, Init(1), first, steps);
    assert end.sends == two.sends + [Send(other, c.windowMs)];
    Overflows(c, 1, first + steps, 0, c.limit);
  }

  // ---------------------------------------------------------------- main result

  /** With two sends or more to a window, every run keeps the limit over the whole window exactly if no script ever runs
    * later than its caller's clock reading and the window is at least 499 ms short of whole seconds. */
  lemma WholeWindowExactlyWhen(c: Config)
    requires c.limit >= 2 && c.windowMs >= 2
    ensures KeepsWholeWindow(c) <==> c.lag == 0 && Slack(c) >= 499
  {
    hide KeepsWholeWindow;
    if c.lag >= 1 {
      LagOverflows(c);
    } else if Slack(c) < 499 {
      LittleSlackOverflows(c);
    } else {
      EnoughSlackKeeps(c);
    }
  }
}
