/** The other side of the throttle's bound (src/rate-limiter/user-throttle.ts, src/redis/index.ts): it refuses nobody whose
  * window has room. Results about the runs of UserThrottle. */
module ThrottleRefusals {
  import opened UserThrottle

  ghost predicate Recorded(s: World, member: string, target: int) {
    exists k: nat :: k < |s.sends| && s.sends[k] == Send(member, target)
  }

  /** The key holds nothing but recorded sends, each at its own time. */
  ghost predicate OnlyRecorded(s: World) {
    Ordered(s) && forall m :: m in s.key.scores ==> Recorded(s, m, s.key.scores[m])
  }

  lemma StepKeepsRecorded(c: Config, s: World, step: Step)
    requires Enabled(c, s, step) && OnlyRecorded(s)
    ensures OnlyRecorded(Apply(c, s, step))
  {
    hide InWindow, TtlSeconds, CeilSeconds, Ttl;
    var t := Apply(c, s, step);
    forall m | m in t.key.scores
      ensures Recorded(t, m, t.key.scores[m])
    {
      if m in s.key.scores && t.key.scores[m] == s.key.scores[m] {
        var k: nat :| k < |s.sends| && s.sends[k] == Send(m, s.key.scores[m]);
        assert t.sends[k] == s.sends[k];
      } else {
        assert t.sends[|s.sends|] == Send(m, t.key.scores[m]);
      }
    }
    forall j: nat, k: nat | j < k < |t.sends|
      ensures t.sends[j].target <= t.sends[k].target
    {
      if k == |s.sends| {
        assert j < |s.sends| - 1 ==> s.sends[j].target <= s.sends[|s.sends| - 1].target;
      }
    }
  }

  lemma {:induction false} RunKeepsRecorded(c: Config, s: World, steps: seq<Step>)
    requires IsRun(c, s, steps) && OnlyRecorded(s)
    ensures OnlyRecorded(After(c, s, steps))
    decreases |steps|
  {
    if steps != [] {
      hide Enabled, Apply, OnlyRecorded;
      StepKeepsRecorded(c, s, steps[0]);
      RunKeepsRecorded(c, Apply(c, s, steps[0]), steps[1..]);
    }
  }

  /** The members of some sends are no more than the sends. */
  function Members(sends: seq<Send>): (ms: set<string>)
    ensures |ms| <= |sends|
    ensures forall k :: 0 <= k < |sends| ==> sends[k].member in ms
  {
    if sends == [] then {}
    else
      var rest := Members(sends[..|sends| - 1]);
      rest + {sends[|sends| - 1].member}
  }

  lemma SubsetIsNoMore(a: set<string>, b: set<string>)
    requires a <= b
    ensures |a| <= |b|
  {
    if a != {} {
      var x :| x in a;
      SubsetIsNoMore(a - {x}, b - {x});
    }
  }

  /** The one `limit` places back among the recorded sends, if there is one, was sent less than a window before `target`. */
  predicate WindowIsFull(c: Config, sends: seq<Send>, target: int) {
    c.limit == 0 || (c.limit <= |sends| && target - c.windowMs < sends[|sends| - c.limit].target)
  }

  lemma FullWindowHasManySends(c: Config, s: World, start: int, end: int, held: map<string, int>)
    requires OnlyRecorded(s) && (forall m :: m in held ==> m in s.key.scores && held[m] == s.key.scores[m])
    requires |InWindow(held, start, end)| >= c.limit && start == end - c.windowMs
    ensures WindowIsFull(c, s.sends, end)
  {
    if !WindowIsFull(c, s.sends, end) {
      var last := if c.limit <= |s.sends| then s.sends[|s.sends| - c.limit + 1..] else s.sends;
      forall m | m in InWindow(held, start, end)
        ensures m in Members(last)
      {
        var k: nat :| k < |s.sends| && s.sends[k] == Send(m, held[m]);
        assert c.limit <= |s.sends| ==> k > |s.sends| - c.limit;
        assert last[k - (|s.sends| - |last|)] == s.sends[k];
      }
      SubsetIsNoMore(InWindow(held, start, end), Members(last));
      assert false;
    }
  }

  /** In every run, a send that is not a replay is refused only if the limit is zero or that many sends were recorded within
    * the last window; and only what was recorded passes as a replay. */
  lemma RefusedOnlyWhenFull(c: Config, now: int, steps: seq<Step>, call: Step)
    requires IsRun(c, Init(now), steps) && call.Call? && Enabled(c, After(c, Init(now), steps), call)
    ensures var s := After(c, Init(now), steps);
      && (Checked(c, s, call).count > c.limit ==> WindowIsFull(c, s.sends, call.target))
      && (Seen(c, s, call) ==> exists t :: Recorded(s, call.member, t) && call.reading - c.windowMs < t)
  {
    var s := After(c, Init(now), steps);
    RunKeepsRecorded(c, Init(now), steps);
    var seen := Pruned(Live(s.key, s.now), call.reading - c.windowMs);
    assert forall m :: m in seen.scores ==> m in s.key.scores && seen.scores[m] == s.key.scores[m];
    if Checked(c, s, call).count > c.limit {
      assert call.member !in seen.scores && |InWindow(seen.scores, call.target - c.windowMs, call.target)| >= c.limit;
      hide Check, Script, InWindow;
      FullWindowHasManySends(c, s, call.target - c.windowMs, call.target, seen.scores);
    }
    if Seen(c, s, call) {
      assert Recorded(s, call.member, s.key.scores[call.member]);
    }
  }

  /** Nothing is forgotten either: in every run, a send recorded less than a window before now, but for the last half second,
    * is still known as one, so its retry is allowed and not counted again. */
  lemma RetriesAreFree(c: Config, now: int, steps: seq<Step>, call: Step, k: nat)
    requires IsRun(c, Init(now), steps) && call.Call? && Enabled(c, After(c, Init(now), steps), call)
    requires var s := After(c, Init(now), steps);
      k < |s.sends| && s.sends[k].member == call.member && Due(c, s, k, 499)
    ensures var s := After(c, Init(now), steps);
      Seen(c, s, call) && Checked(c, s, call).count == 0 && Apply(c, s, call).sends == s.sends
  {
    var s := After(c, Init(now), steps);
    RunKeepsInv(c, Init(now), steps);
    DueSurvivesPruning(c, s, call, k, 499);
  }

  /** Where at least a window has passed since the send `limit` places back, the next send is recorded, in every run. */
  lemma RoomMeansAllowed(c: Config, now: int, steps: seq<Step>, call: Step)
    requires IsRun(c, Init(now), steps) && call.Call? && Enabled(c, After(c, Init(now), steps), call)
    requires var s := After(c, Init(now), steps);
      !Seen(c, s, call) && c.limit > 0
      && (|s.sends| >= c.limit ==> s.sends[|s.sends| - c.limit].target + c.windowMs <= call.target)
    ensures var s := After(c, Init(now), steps);
      Records(c, s, call) && Apply(c, s, call).sends == s.sends + [Send(call.member, call.target)]
  {
    RefusedOnlyWhenFull(c, now, steps, call);
  }
}
