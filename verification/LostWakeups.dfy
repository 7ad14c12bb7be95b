/** Two runs that put an instance to sleep for good: one by the removal of a timer that has been set anew, one by an event
  * worker that dies with its publish still buffered. */
module LostWakeups {
  import opened StepNotify
  import opened Workflow
  import opened Wakeups
  import opened Waking
  import opened Wrappers

  lemma RunNil(c: Config, s: Wakeups.World)
    ensures Wakeups.IsRun(c, s, []) && Wakeups.After(c, s, []) == s
  {
  }

  lemma RunCons(c: Config, s: Wakeups.World, step: Wakeups.Step, t: Wakeups.World, rest: seq<Wakeups.Step>)
    requires Wakeups.Enabled(c, s, step) && t == Wakeups.Apply(c, s, step) && Wakeups.IsRun(c, t, rest)
    ensures Wakeups.IsRun(c, s, [step] + rest) && Wakeups.After(c, s, [step] + rest) == Wakeups.After(c, t, rest)
  {
    assert ([step] + rest)[1..] == rest;
  }

  lemma {:induction false} RunsOn(c: Config, s: Wakeups.World, first: seq<Wakeups.Step>, second: seq<Wakeups.Step>)
    requires Wakeups.IsRun(c, s, first) && Wakeups.IsRun(c, Wakeups.After(c, s, first), second)
    ensures Wakeups.IsRun(c, s, first + second)
    ensures Wakeups.After(c, s, first + second) == Wakeups.After(c, Wakeups.After(c, s, first), second)
    decreases |first|
  {
    hide Wakeups.Enabled, Wakeups.Apply;
    if first == [] {
      assert first + second == second;
    } else {
      RunsOn(c, Wakeups.Apply(c, s, first[0]), first[1..], second);
      assert (first + second)[1..] == first[1..] + second;
    }
  }

  lemma TwoSteps(c: Config, s: Wakeups.World, first: Wakeups.Step, t: Wakeups.World, second: Wakeups.Step, u: Wakeups.World)
    returns (steps: seq<Wakeups.Step>)
    requires Wakeups.Enabled(c, s, first) && t == Wakeups.Apply(c, s, first)
    requires Wakeups.Enabled(c, t, second) && u == Wakeups.Apply(c, t, second)
    ensures Wakeups.IsRun(c, s, steps) && Wakeups.After(c, s, steps) == u
  {
    hide Wakeups.Enabled, Wakeups.Apply;
    RunNil(c, u);
    RunCons(c, t, second, u, []);
    RunCons(c, s, first, t, [second] + []);
    steps := [first] + ([second] + []);
  }

  // ---------------------------------------------------------------- stages of a run

  /** Run `r` at some point of its replay, alone. */
  function At(s: Wakeups.World, r: RunId, run: Run): (t: Wakeups.World) {
    s.(core := s.core.(runs := map[r := run]))
  }

  function Outputs(s: Wakeups.World): (outputs: map<nat, Output>) {
    map i | i in s.core.rows :: s.core.rows[i].output
  }

  lemma Claiming(c: Config, s: Wakeups.World, r: RunId, input: Input)
    requires s.core.status == Pending && s.core.runs == map[r := SawPending(input)] && r in s.deliveries
    ensures Wakeups.Enabled(c, s, OfRun(Claim(r)))
    ensures Wakeups.Apply(c, s, OfRun(Claim(r))) == At(s.(core := s.core.(status := Running)), r, Run.Claimed(input))
  {
  }

  lemma Reading(c: Config, s: Wakeups.World, r: RunId, input: Input)
    requires s.core.runs == map[r := Run.Claimed(input)] && r in s.deliveries
    ensures Wakeups.Enabled(c, s, OfRun(ReadSteps(r)))
    ensures Wakeups.Apply(c, s, OfRun(ReadSteps(r))) == At(s, r, AtStep(RunContext(input, Outputs(s)), 0))
  {
  }

  /** It claims the instance and reads its steps. */
  lemma Starting(c: Config, s: Wakeups.World, r: RunId, input: Input) returns (steps: seq<Wakeups.Step>)
    requires s.core.status == Pending && s.core.runs == map[r := SawPending(input)] && r in s.deliveries
    ensures Wakeups.IsRun(c, s, steps)
    ensures Wakeups.After(c, s, steps) == At(s.(core := s.core.(status := Running)), r, AtStep(RunContext(input, Outputs(s)), 0))
  {
    var t := At(s.(core := s.core.(status := Running)), r, Run.Claimed(input));
    var u := At(t, r, AtStep(RunContext(input, Outputs(s)), 0));
    assert Outputs(t) == Outputs(s);
    hide Wakeups.Enabled, Wakeups.Apply, Outputs;
    Claiming(c, s, r, input);
    Reading(c, t, r, input);
    steps := TwoSteps(c, s, OfRun(Claim(r)), t, OfRun(ReadSteps(r)), u);
  }

  /** A step the log does not answer. */
  lemma Going(c: Config, s: Wakeups.World, r: RunId, ctx: RunContext, index: nat)
    requires s.core.runs == map[r := AtStep(ctx, index)] && r in s.deliveries && s.core.status == Running
    requires index < |Known(c.definition)| && index !in ctx.outputs
    ensures Wakeups.Enabled(c, s, OfRun(Advance(r)))
    ensures Wakeups.Apply(c, s, OfRun(Advance(r))) == At(s, r, NotCanceled(ctx, index))
  {
    hide Known;
  }

  /** Step `index` sets this timer so far ahead. */
  predicate Sets(c: Config, index: nat, timer: Timer, ms: nat) {
    && index < |Known(c.definition)| && DelayOf(Known(c.definition)[index]) == Some(ms)
    && TimerOf(Known(c.definition)[index], index) == timer
  }

  lemma SettingTimer(c: Config, s: Wakeups.World, r: RunId, ctx: RunContext, index: nat, timer: Timer, ms: nat)
    requires s.core.runs == map[r := NotCanceled(ctx, index)] && r in s.deliveries && Sets(c, index, timer, ms)
    ensures Wakeups.Enabled(c, s, OfRun(SetTimer(r)))
    ensures Wakeups.Apply(c, s, OfRun(SetTimer(r))) ==
            At(s.(timers := s.timers[timer := s.core.now + ms]), r, TimerSet(ctx, index, s.core.now + ms))
  {
    hide Known;
  }

  /** The timer is set, the row is not yet in. */
  lemma Arming(c: Config, s: Wakeups.World, r: RunId, ctx: RunContext, index: nat, timer: Timer, ms: nat)
    returns (steps: seq<Wakeups.Step>)
    requires s.core.runs == map[r := AtStep(ctx, index)] && r in s.deliveries && s.core.status == Running
    requires index !in ctx.outputs && Sets(c, index, timer, ms)
    ensures Wakeups.IsRun(c, s, steps)
    ensures Wakeups.After(c, s, steps) ==
            At(s.(timers := s.timers[timer := s.core.now + ms]), r, TimerSet(ctx, index, s.core.now + ms))
  {
    var t := At(s, r, NotCanceled(ctx, index));
    var u := At(t.(timers := t.timers[timer := t.core.now + ms]), r, TimerSet(ctx, index, t.core.now + ms));
    assert t.core.runs == map[r := NotCanceled(ctx, index)] && r in t.deliveries && index < |Known(c.definition)|;
    assert u == At(s.(timers := s.timers[timer := s.core.now + ms]), r, TimerSet(ctx, index, s.core.now + ms));
    hide *;
    Going(c, s, r, ctx, index);
    SettingTimer(c, t, r, ctx, index, timer, ms);
    steps := TwoSteps(c, s, OfRun(Advance(r)), t, OfRun(SetTimer(r)), u);
  }

  /** The row of a wait, or of a wait for an event. */
  function RowOf(d: StepDef, resumeAt: nat, now: nat): (row: StepRow) {
    StepRow(ActionOf(d), if ActionOf(d) == Wait then Until(resumeAt) else Null, now)
  }

  lemma Inserting(c: Config, s: Wakeups.World, r: RunId, ctx: RunContext, index: nat, resumeAt: nat)
    requires s.core.runs == map[r := TimerSet(ctx, index, resumeAt)] && r in s.deliveries
    requires index < |Known(c.definition)| && index !in s.core.rows
    ensures Wakeups.Enabled(c, s, OfRun(InsertRow(r)))
    ensures var d := Known(c.definition)[index];
      Wakeups.Apply(c, s, OfRun(InsertRow(r))) ==
      At(s.(core := s.core.(rows := s.core.rows[index := RowOf(d, resumeAt, s.core.now)])), r,
         if ActionOf(d) == Wait then Ending(Pending) else WaiterOwed(index, resumeAt))
  {
    hide Known;
  }

  lemma AddingWaiter(c: Config, s: Wakeups.World, r: RunId, index: nat, resumeAt: nat)
    requires s.core.runs == map[r := WaiterOwed(index, resumeAt)] && r in s.deliveries && index < |Known(c.definition)|
    ensures Wakeups.Enabled(c, s, OfRun(InsertWaiter(r)))
    ensures Wakeups.Apply(c, s, OfRun(InsertWaiter(r))) ==
            At(s.(waiters := s.waiters[s.next := Waiter(EventOf(Known(c.definition)[index]), resumeAt)], next := s.next + 1), r,
               Ending(Pending))
  {
    hide Known;
  }

  lemma Finishing(c: Config, s: Wakeups.World, r: RunId)
    requires s.core.runs == map[r := Ending(Pending)] && r in s.deliveries && s.core.status == Running
    ensures Wakeups.Enabled(c, s, OfRun(Finish(r)))
    ensures Wakeups.Apply(c, s, OfRun(Finish(r))) ==
            s.(core := s.core.(status := Pending, runs := map[]), handled := s.handled + {s.deliveries[r].entry})
  {
  }

  /** The run suspends, and its entry is acked. */
  lemma Suspending(c: Config, s: Wakeups.World, r: RunId) returns (steps: seq<Wakeups.Step>)
    requires s.core.runs == map[r := Ending(Pending)] && r in s.deliveries && s.core.status == Running
    requires s.deliveries[r].entry in s.entries
    ensures Wakeups.IsRun(c, s, steps)
    ensures Wakeups.After(c, s, steps) ==
            s.(core := s.core.(status := Pending, runs := map[]), handled := s.handled + {s.deliveries[r].entry},
               entries := s.entries - {s.deliveries[r].entry})
  {
    var e := s.deliveries[r].entry;
    var t := s.(core := s.core.(status := Pending, runs := map[]), handled := s.handled + {e});
    assert Wakeups.Enabled(c, t, Wakeups.Ack(e)) && Wakeups.Apply(c, t, Wakeups.Ack(e)) == t.(entries := t.entries - {e});
    hide Wakeups.Enabled, Wakeups.Apply;
    Finishing(c, s, r);
    steps := TwoSteps(c, s, OfRun(Finish(r)), t, Wakeups.Ack(e), t.(entries := t.entries - {e}));
  }

  // ---------------------------------------------------------------- the first run of an instance

  const USER := Input(Some("ada"))

  function Created(): (s: Wakeups.World) {
    Wakeups.Init().(core := Workflow.Init().(status := Pending, input := USER, runs := map[0 := SawPending(USER)]),
                    entries := map[0 := USER], deliveries := map[0 := Delivery(0, USER)], next := 1)
  }

  lemma Creating(c: Config) returns (steps: seq<Wakeups.Step>)
    ensures Wakeups.IsRun(c, Wakeups.Init(), steps) && Wakeups.After(c, Wakeups.Init(), steps) == Created()
  {
    var s1 := Wakeups.Init().(entries := map[0 := USER], next := 1);
    var s2 := s1.(core := s1.core.(runs := map[0 := Triggered(USER)]), deliveries := map[0 := Delivery(0, USER)]);
    var s3 := s2.(core := s2.core.(runs := map[0 := Run.Creating(USER)]));
    assert Wakeups.Apply(c, Wakeups.Init(), Trigger(USER)) == s1;
    assert Wakeups.Apply(c, s1, Wakeups.Deliver(0, 0)) == s2;
    assert Wakeups.Apply(c, s2, OfRun(ReadInstance(0))) == s3;
    assert Wakeups.Apply(c, s3, OfRun(CreateInstance(0))) == Created();
    var begin := TwoSteps(c, Wakeups.Init(), Trigger(USER), s1, Wakeups.Deliver(0, 0), s2);
    var end := TwoSteps(c, s2, OfRun(ReadInstance(0)), s3, OfRun(CreateInstance(0)), Created());
    hide Wakeups.Enabled, Wakeups.Apply;
    RunsOn(c, Wakeups.Init(), begin, end);
    steps := begin + end;
  }

  // ---------------------------------------------------------------- the removal of a timer set anew

  const TWO_WAITS := Config("id", "project", [WaitStep(Some(10)), WaitStep(Some(10))])

  /** Asleep in the first wait. */
  function FirstSleep(): (s: Wakeups.World) {
    Created().(core := Workflow.Init().(status := Pending, input := USER, rows := map[0 := StepRow(Wait, Until(10), 0)]),
               entries := map[], handled := {0}, timers := map[Sleep := 10])
  }

  lemma TwoWaits()
    ensures Known(TWO_WAITS.definition) == TWO_WAITS.definition
  {
    assert TWO_WAITS.definition[1..] == [WaitStep(Some(10))];
    assert TWO_WAITS.definition[1..][1..] == [];
  }

  lemma Sleeping(c: Config, s: Wakeups.World, r: RunId, ctx: RunContext, index: nat, ms: nat) returns (steps: seq<Wakeups.Step>)
    requires s.core.runs == map[r := AtStep(ctx, index)] && r in s.deliveries && s.core.status == Running
    requires index !in ctx.outputs && index !in s.core.rows && Sets(c, index, Sleep, ms) && s.deliveries[r].entry in s.entries
    requires ActionOf(Known(c.definition)[index]) == Wait
    ensures Wakeups.IsRun(c, s, steps)
    ensures Wakeups.After(c, s, steps) ==
            s.(timers := s.timers[Sleep := s.core.now + ms],
               core := s.core.(status := Pending, runs := map[],
                               rows := s.core.rows[index := StepRow(Wait, Until(s.core.now + ms), s.core.now)]),
               handled := s.handled + {s.deliveries[r].entry}, entries := s.entries - {s.deliveries[r].entry})
  {
    assert index < |Known(c.definition)|;
    hide Wakeups.Enabled, Wakeups.Apply, Known, Wakeups.IsRun, Wakeups.After, Sets;
    var arm := Arming(c, s, r, ctx, index, Sleep, ms);
    var t := Wakeups.After(c, s, arm);
    Inserting(c, t, r, ctx, index, s.core.now + ms);
    var u := Wakeups.Apply(c, t, OfRun(InsertRow(r)));
    var suspend := Suspending(c, u, r);
    RunCons(c, t, OfRun(InsertRow(r)), u, suspend);
    RunsOn(c, s, arm, [OfRun(InsertRow(r))] + suspend);
    steps := arm + ([OfRun(InsertRow(r))] + suspend);
  }

  lemma FallingAsleep() returns (steps: seq<Wakeups.Step>)
    ensures Wakeups.IsRun(TWO_WAITS, Wakeups.Init(), steps) && Wakeups.After(TWO_WAITS, Wakeups.Init(), steps) == FirstSleep()
  {
    var create := Creating(TWO_WAITS);
    var start := Starting(TWO_WAITS, Created(), 0, USER);
    var s := Wakeups.After(TWO_WAITS, Created(), start);
    assert Outputs(Created()) == map[];
    TwoWaits();
    var sleep := Sleeping(TWO_WAITS, s, 0, RunContext(USER, map[]), 0, 10);
    assert Wakeups.After(TWO_WAITS, s, sleep) == FirstSleep();
    hide Wakeups.Enabled, Wakeups.Apply, Wakeups.IsRun, Wakeups.After, Known, Sets, Created, FirstSleep;
    RunsOn(TWO_WAITS, Created(), start, sleep);
    RunsOn(TWO_WAITS, Wakeups.Init(), create, start + sleep);
    steps := create + (start + sleep);
  }

  /** A poll has published the resume and has yet to remove the timer. */
  function Fired(): (s: Wakeups.World) {
    FirstSleep().(core := FirstSleep().core.(now := 10), timers := map[Sleep := 60_010], entries := map[1 := USER],
                  polls := map[0 := Removing(Sleep)], next := 2)
  }

  function TimerRead(): (s: Wakeups.World) {
    Fired().(entries := map[], polls := map[0 := Publishing(Sleep)], next := 1)
  }

  lemma ReadingTimer() returns (steps: seq<Wakeups.Step>, t: Wakeups.World)
    ensures Wakeups.IsRun(TWO_WAITS, FirstSleep(), steps) && Wakeups.After(TWO_WAITS, FirstSleep(), steps) == t
    ensures t == TimerRead().(polls := map[0 := Poll.Claimed(Sleep)])
  {
    var s := FirstSleep();
    var s1 := s.(core := s.core.(now := 10));
    t := s1.(timers := map[Sleep := 60_010], polls := map[0 := Poll.Claimed(Sleep)]);
    assert Wakeups.Apply(TWO_WAITS, s, Wakeups.Tick(10)) == s1;
    assert Wakeups.Apply(TWO_WAITS, s1, OfPoll(ClaimTimer(0, Sleep))) == t;
    steps := TwoSteps(TWO_WAITS, s, Wakeups.Tick(10), s1, OfPoll(ClaimTimer(0, Sleep)), t);
  }

  lemma ReadsPending(t: Wakeups.World)
    requires t == TimerRead().(polls := map[0 := Poll.Claimed(Sleep)])
    ensures Wakeups.Enabled(TWO_WAITS, t, OfPoll(ReadStatus(0))) && Wakeups.Apply(TWO_WAITS, t, OfPoll(ReadStatus(0))) == TimerRead()
  {
  }

  lemma PublishesResume()
    ensures Wakeups.Enabled(TWO_WAITS, TimerRead(), OfPoll(PublishResume(0)))
    ensures Wakeups.Apply(TWO_WAITS, TimerRead(), OfPoll(PublishResume(0))) == Fired()
  {
  }

  lemma Firing() returns (steps: seq<Wakeups.Step>)
    ensures Wakeups.IsRun(TWO_WAITS, FirstSleep(), steps) && Wakeups.After(TWO_WAITS, FirstSleep(), steps) == Fired()
  {
    var begin, t := ReadingTimer();
    ReadsPending(t);
    PublishesResume();
    hide Wakeups.Enabled, Wakeups.Apply, FirstSleep, TimerRead, Fired;
    var end := TwoSteps(TWO_WAITS, t, OfPoll(ReadStatus(0)), TimerRead(), OfPoll(PublishResume(0)), Fired());
    RunsOn(TWO_WAITS, FirstSleep(), begin, end);
    steps := begin + end;
  }

  /** The resumed run has passed the first wait, read at the instant it ended. */
  function PastFirst(): (s: Wakeups.World) {
    var outputs := map[0 := Until(10)];
    Fired().(core := Fired().core.(status := Running, runs := map[1 := AtStep(RunContext(USER, outputs), 1)]),
             deliveries := map[0 := Delivery(0, USER), 1 := Delivery(1, USER)])
  }

  lemma Redelivering() returns (steps: seq<Wakeups.Step>, t: Wakeups.World)
    ensures Wakeups.IsRun(TWO_WAITS, Fired(), steps) && Wakeups.After(TWO_WAITS, Fired(), steps) == t
    ensures t == At(PastFirst().(core := PastFirst().core.(status := Pending)), 1, SawPending(USER))
  {
    var s := Fired();
    var s1 := s.(core := s.core.(runs := map[1 := Triggered(USER)]),
                 deliveries := map[0 := Delivery(0, USER), 1 := Delivery(1, USER)]);
    t := At(s1, 1, SawPending(USER));
    assert Wakeups.Apply(TWO_WAITS, s, Wakeups.Deliver(1, 1)) == s1;
    assert Wakeups.Apply(TWO_WAITS, s1, OfRun(ReadInstance(1))) == t;
    steps := TwoSteps(TWO_WAITS, s, Wakeups.Deliver(1, 1), s1, OfRun(ReadInstance(1)), t);
  }

  lemma Passing(s: Wakeups.World)
    requires s == At(PastFirst(), 1, AtStep(RunContext(USER, map[0 := Until(10)]), 0))
    ensures Wakeups.Enabled(TWO_WAITS, s, OfRun(Advance(1))) && Wakeups.Apply(TWO_WAITS, s, OfRun(Advance(1))) == PastFirst()
  {
    TwoWaits();
  }

  lemma Resuming() returns (steps: seq<Wakeups.Step>)
    ensures Wakeups.IsRun(TWO_WAITS, Fired(), steps) && Wakeups.After(TWO_WAITS, Fired(), steps) == PastFirst()
  {
    var deliver, t := Redelivering();
    assert Outputs(t) == map[0 := Until(10)];
    var start := Starting(TWO_WAITS, t, 1, USER);
    var u := Wakeups.After(TWO_WAITS, t, start);
    assert u == At(PastFirst(), 1, AtStep(RunContext(USER, map[0 := Until(10)]), 0));
    hide Wakeups.Enabled, Wakeups.Apply, Wakeups.IsRun, Wakeups.After, Fired, PastFirst, At;
    Passing(u);
    RunNil(TWO_WAITS, PastFirst());
    RunCons(TWO_WAITS, u, OfRun(Advance(1)), PastFirst(), []);
    RunsOn(TWO_WAITS, t, start, [OfRun(Advance(1))] + []);
    RunsOn(TWO_WAITS, Fired(), deliver, start + ([OfRun(Advance(1))] + []));
    steps := deliver + (start + ([OfRun(Advance(1))] + []));
  }

  /** Asleep in the second wait, its timer set, and the poll still to remove it. */
  function SecondSleep(): (s: Wakeups.World) {
    PastFirst().(core := Fired().core.(rows := map[0 := StepRow(Wait, Until(10), 0), 1 := StepRow(Wait, Until(20), 10)]),
                 entries := map[], handled := {0, 1}, timers := map[Sleep := 20])
  }

  lemma SleepingAgain() returns (steps: seq<Wakeups.Step>)
    ensures Wakeups.IsRun(TWO_WAITS, PastFirst(), steps) && Wakeups.After(TWO_WAITS, PastFirst(), steps) == SecondSleep()
  {
    TwoWaits();
    steps := Sleeping(TWO_WAITS, PastFirst(), 1, RunContext(USER, map[0 := Until(10)]), 1, 10);
    assert Wakeups.After(TWO_WAITS, PastFirst(), steps) == SecondSleep();
  }

  function Forgotten(): (s: Wakeups.World) {
    SecondSleep().(timers := map[], polls := map[])
  }

  lemma NothingSet()
    ensures Idle(Forgotten()) && Forgotten().core.status == Pending && !HasWakeUp(Forgotten())
  {
  }

  /** All waits of an instance share one timer. A poll publishes the resume of the first wait; the resumed run falls asleep in
    * the second and sets the timer anew; the poll then removes it. */
  lemma ARemovedTimerStrands() returns (steps: seq<Wakeups.Step>)
    ensures Wakeups.IsRun(TWO_WAITS, Wakeups.Init(), steps)
    ensures var s := Wakeups.After(TWO_WAITS, Wakeups.Init(), steps);
      && Idle(s) && s.core.status == Pending && !CanWake(TWO_WAITS, s)
      && 1 in s.core.rows && s.core.rows[1].output == Until(20) && s.core.now == 10
  {
    var sleep := FallingAsleep();
    var fire := Firing();
    var resume := Resuming();
    var again := SleepingAgain();
    var remove := OfPoll(RemoveTimer(0));
    assert Wakeups.Enabled(TWO_WAITS, SecondSleep(), remove);
    assert Wakeups.Apply(TWO_WAITS, SecondSleep(), remove) == Forgotten();
    NothingSet();
    WakesExactlyWhen(TWO_WAITS, Forgotten());
    RunNil(TWO_WAITS, Forgotten());
    hide Wakeups.Enabled, Wakeups.Apply, Wakeups.IsRun, Wakeups.After, Wakeups.Init, Created, FirstSleep, Fired, PastFirst, SecondSleep, CanWake;
    RunCons(TWO_WAITS, SecondSleep(), remove, Forgotten(), []);
    var rest := [remove] + [];
    RunsOn(TWO_WAITS, PastFirst(), again, rest);
    rest := again + rest;
    RunsOn(TWO_WAITS, Fired(), resume, rest);
    rest := resume + rest;
    RunsOn(TWO_WAITS, FirstSleep(), fire, rest);
    rest := fire + rest;
    RunsOn(TWO_WAITS, Wakeups.Init(), sleep, rest);
    steps := sleep + rest;
  }

  // ---------------------------------------------------------------- a publish that was only buffered

  const ONE_EVENT := Config("id", "project", [WaitForEventStep("paid", Some(1000))])

  const PAID := Timeout(0, "paid")

  /** Asleep until the event or its timeout. */
  function Awaiting(): (s: Wakeups.World) {
    Created().(core := Workflow.Init().(status := Pending, input := USER, rows := map[0 := StepRow(WaitForEvent, Null, 0)]),
               entries := map[], handled := {0}, timers := map[PAID := 1000], waiters := map[1 := Waiter("paid", 1000)], next := 2)
  }

  lemma OneEvent()
    ensures Known(ONE_EVENT.definition) == ONE_EVENT.definition
  {
    assert ONE_EVENT.definition[1..] == [];
  }

  lemma WaitingForIt(s: Wakeups.World) returns (steps: seq<Wakeups.Step>)
    requires s == At(Created().(core := Created().core.(status := Running)), 0, AtStep(RunContext(USER, map[]), 0))
    ensures Wakeups.IsRun(ONE_EVENT, s, steps) && Wakeups.After(ONE_EVENT, s, steps) == Awaiting()
  {
    OneEvent();
    var ctx := RunContext(USER, map[]);
    var arm := Arming(ONE_EVENT, s, 0, ctx, 0, PAID, 1000);
    var t := Wakeups.After(ONE_EVENT, s, arm);
    Inserting(ONE_EVENT, t, 0, ctx, 0, 1000);
    var u := Wakeups.Apply(ONE_EVENT, t, OfRun(InsertRow(0)));
    AddingWaiter(ONE_EVENT, u, 0, 0, 1000);
    var v := Wakeups.Apply(ONE_EVENT, u, OfRun(InsertWaiter(0)));
    hide Wakeups.Enabled, Wakeups.Apply, Wakeups.IsRun, Wakeups.After, Known, Sets;
    var suspend := Suspending(ONE_EVENT, v, 0);
    RunCons(ONE_EVENT, u, OfRun(InsertWaiter(0)), v, suspend);
    RunCons(ONE_EVENT, t, OfRun(InsertRow(0)), u, [OfRun(InsertWaiter(0))] + suspend);
    RunsOn(ONE_EVENT, s, arm, [OfRun(InsertRow(0))] + ([OfRun(InsertWaiter(0))] + suspend));
    steps := arm + ([OfRun(InsertRow(0))] + ([OfRun(InsertWaiter(0))] + suspend));
  }

  lemma FallingAsleepForIt() returns (steps: seq<Wakeups.Step>)
    ensures Wakeups.IsRun(ONE_EVENT, Wakeups.Init(), steps) && Wakeups.After(ONE_EVENT, Wakeups.Init(), steps) == Awaiting()
  {
    var create := Creating(ONE_EVENT);
    var start := Starting(ONE_EVENT, Created(), 0, USER);
    assert Outputs(Created()) == map[];
    hide Wakeups.Enabled, Wakeups.Apply, Wakeups.IsRun, Awaiting;
    var wait := WaitingForIt(Wakeups.After(ONE_EVENT, Created(), start));
    hide Wakeups.After, Created;
    RunsOn(ONE_EVENT, Created(), start, wait);
    RunsOn(ONE_EVENT, Wakeups.Init(), create, start + wait);
    steps := create + (start + wait);
  }

  /** The event worker has recorded the event and buffered the resume. */
  function Recorded(): (s: Wakeups.World) {
    Awaiting().(core := Awaiting().core.(rows := map[0 := StepRow(WaitForEvent, Received("paid"), 0)]),
                matches := map[0 := Pushed(1, false, false)])
  }

  function StepFound(): (s: Wakeups.World) {
    Awaiting().(core := Awaiting().core.(fillers := map[0 := Filler(0)]), matches := map[0 := Selected(1, 0)])
  }

  lemma FindingIt() returns (steps: seq<Wakeups.Step>)
    ensures Wakeups.IsRun(ONE_EVENT, Awaiting(), steps) && Wakeups.After(ONE_EVENT, Awaiting(), steps) == StepFound()
  {
    var s := Awaiting().(matches := map[0 := Matched(1)]);
    var select := OfMatch(SelectWaiting(0, 0, Some(0)));
    assert Wakeups.Apply(ONE_EVENT, Awaiting(), OfMatch(MatchEvent(0, 1))) == s;
    assert Wakeups.Apply(ONE_EVENT, s, select) == StepFound();
    steps := TwoSteps(ONE_EVENT, Awaiting(), OfMatch(MatchEvent(0, 1)), s, select, StepFound());
  }

  lemma RecordsIt()
    ensures Wakeups.Enabled(ONE_EVENT, StepFound(), OfMatch(RecordEvent(0, "paid")))
    ensures Wakeups.Apply(ONE_EVENT, StepFound(), OfMatch(RecordEvent(0, "paid"))) == Recorded()
  {
  }

  lemma RecordingIt() returns (steps: seq<Wakeups.Step>)
    ensures Wakeups.IsRun(ONE_EVENT, Awaiting(), steps) && Wakeups.After(ONE_EVENT, Awaiting(), steps) == Recorded()
  {
    var find := FindingIt();
    var record := OfMatch(RecordEvent(0, "paid"));
    RecordsIt();
    RunNil(ONE_EVENT, Recorded());
    hide *;
    RunCons(ONE_EVENT, StepFound(), record, Recorded(), []);
    RunsOn(ONE_EVENT, Awaiting(), find, [record] + []);
    steps := find + ([record] + []);
  }

  /** The waiter is gone, and the event worker with its buffer. */
  function Unheard(): (s: Wakeups.World) {
    Recorded().(waiters := map[], matches := map[])
  }

  lemma Dying() returns (steps: seq<Wakeups.Step>)
    ensures Wakeups.IsRun(ONE_EVENT, Recorded(), steps) && Wakeups.After(ONE_EVENT, Recorded(), steps) == Unheard()
  {
    var s := Recorded().(waiters := map[], matches := map[0 := Pushed(1, false, true)]);
    assert Wakeups.Apply(ONE_EVENT, Recorded(), OfMatch(DeleteWaiter(0))) == s;
    assert Wakeups.Apply(ONE_EVENT, s, OfMatch(End(0))) == Unheard();
    steps := TwoSteps(ONE_EVENT, Recorded(), OfMatch(DeleteWaiter(0)), s, OfMatch(End(0)), Unheard());
  }

  lemma NobodyListens()
    ensures Idle(Unheard()) && Unheard().core.status == Pending && !HasWakeUp(Unheard())
  {
  }

  /** An event worker records the event, deletes the waiter and dies before its buffer is flushed. The step is resolved, so the
    * timeout is dropped as stale, and the event finds no waiter when it is delivered again. */
  lemma ABufferedResumeStrands() returns (steps: seq<Wakeups.Step>)
    ensures Wakeups.IsRun(ONE_EVENT, Wakeups.Init(), steps)
    ensures var s := Wakeups.After(ONE_EVENT, Wakeups.Init(), steps);
      && Idle(s) && s.core.status == Pending && !CanWake(ONE_EVENT, s)
      && s.waiters == map[] && 0 in s.core.rows && s.core.rows[0].output == Received("paid")
  {
    var wait := FallingAsleepForIt();
    var record := RecordingIt();
    var die := Dying();
    NobodyListens();
    WakesExactlyWhen(ONE_EVENT, Unheard());
    hide Wakeups.Enabled, Wakeups.Apply, Wakeups.IsRun, Wakeups.After, Wakeups.Init, Awaiting, CanWake;
    RunsOn(ONE_EVENT, Awaiting(), record, die);
    RunsOn(ONE_EVENT, Wakeups.Init(), wait, record + die);
    steps := wait + (record + die);
  }
}
