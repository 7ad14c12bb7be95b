/** Putting runs of the release protocol together. */
module ReleaseRuns {
  import opened Delivery
  import opened ReleaseProtocol

  lemma RunNil(s: World)
    ensures Run(s, []) && After(s, []) == s
  {
  }

  lemma RunCons(s: World, step: Step, t: World, rest: seq<Step>)
    requires Enabled(s, step) && t == Apply(s, step) && Run(t, rest)
    ensures Run(s, [step] + rest) && After(s, [step] + rest) == After(t, rest)
  {
    assert ([step] + rest)[1..] == rest;
  }

  lemma RunTwo(s: World, first: Step, t: World, second: Step, u: World) returns (steps: seq<Step>)
    requires Enabled(s, first) && t == Apply(s, first) && Enabled(t, second) && u == Apply(t, second)
    ensures steps == [first, second] && Run(s, steps) && After(s, steps) == u
  {
    hide Enabled, Apply;
    RunNil(u);
    RunCons(t, second, u, []);
    RunCons(s, first, t, [second] + []);
    steps := [first] + ([second] + []);
  }

  lemma {:induction false} RunConcat(s: World, steps: seq<Step>, more: seq<Step>)
    requires Run(s, steps) && Run(After(s, steps), more)
    ensures Run(s, steps + more) && After(s, steps + more) == After(After(s, steps), more)
    decreases |steps|
  {
    if steps == [] {
      assert steps + more == more;
    } else {
      hide Enabled, Apply;
      RunConcat(Apply(s, steps[0]), steps[1..], more);
      RunCons(s, steps[0], Apply(s, steps[0]), steps[1..] + more);
      assert steps + more == [steps[0]] + (steps[1..] + more);
    }
  }

  /** Steps of polls and rebuilds only. */
  predicate Background(steps: seq<Step>) {
    forall i :: 0 <= i < |steps| ==> steps[i].OfPoll? || steps[i].OfRebuild?
  }

  predicate WipeFree(steps: seq<Step>) {
    forall i :: 0 <= i < |steps| ==> !steps[i].Wipe?
  }

  // ---------------------------------------------------------------- one task, as far as its first parking

  const FIRST_TRY := Task(1, Normal, [], true, 3, 0, 0)

  const DEFERRED := Task(1, Normal, [], true, 3, 0, 1)

  const OLD_MEMBER := Member(1, Traced(4))

  /** The task has been dispatched, and lies on its stream. */
  function OnStream(): World {
    Init().(outbound := map[2 := FIRST_TRY], origin := map[1 := FIRST_TRY], marked := {1}, known := {1}, next := 3)
  }

  /** It has been parked until 100 ms. */
  function ParkedOnce(): World {
    Init().(rows := map[1 := Row(DEFERRED, SendTime(100, 3))], scheduled := map[4 := Scheduled(1, 4, 100, false)],
            origin := map[1 := FIRST_TRY], marked := {1}, known := {1}, settled := {2}, earliest := map[1 := 100], next := 5)
  }

  lemma Dispatching() returns (steps: seq<Step>)
    ensures Run(Init(), steps) && After(Init(), steps) == OnStream()
  {
    var order := EngineOrder(FIRST_TRY, SendTime(0, 1), 1);
    var s1 := Init().(upstream := map[1 := order], origin := map[1 := FIRST_TRY], next := 2);
    var s2 := s1.(engines := map[0 := Deciding(order)], marked := {1});
    var s3 := s2.(outbound := map[2 := FIRST_TRY], engines := map[0 := Sent(order)], known := {1}, next := 3);
    RunNil(OnStream());
    steps := [OfEngine(EngineStep.Dispatch(0))] + ([OfEngine(AckOrder(0))] + []);
    assert EngineApply(s3, AckOrder(0)) == OnStream();
    RunCons(s3, OfEngine(AckOrder(0)), OnStream(), []);
    RunCons(s2, OfEngine(EngineStep.Dispatch(0)), s3, steps[1..]);
    RunCons(s1, OfEngine(TakeOrder(0, 1)), s2, steps);
    steps := [OfEngine(TakeOrder(0, 1))] + steps;
    RunCons(Init(), OfEngine(Arrive(FIRST_TRY, 0)), s1, steps);
    steps := [OfEngine(Arrive(FIRST_TRY, 0))] + steps;
  }

  /** Handler 0, having written the row, announces it and acks its entry. */
  lemma Announcing(s: World, e: EntryId, task: Task, sendMs: nat) returns (steps: seq<Step>)
    requires s.handlers == map[0 := RowWritten(e, task, sendMs)]
    ensures Run(s, steps)
    ensures After(s, steps) ==
            s.(scheduled := s.scheduled[s.next := Scheduled(task.id, s.next, sendMs, false)],
               handlers := map[], outbound := s.outbound - {e}, settled := s.settled + {e}, next := s.next + 1)
  {
    var t := DeliveryApply(s, PublishParked(0));
    var u := DeliveryApply(t, Ack(0));
    Announced(s, e, task, sendMs);
    hide DeliveryApply, Run, After;
    steps := RunTwo(s, OfDelivery(PublishParked(0)), t, OfDelivery(Ack(0)), u);
  }

  lemma Announced(s: World, e: EntryId, task: Task, sendMs: nat)
    requires s.handlers == map[0 := RowWritten(e, task, sendMs)]
    ensures var t := DeliveryApply(s, PublishParked(0));
      && DeliveryEnabled(t, Ack(0))
      && DeliveryApply(t, Ack(0)) ==
         s.(scheduled := s.scheduled[s.next := Scheduled(task.id, s.next, sendMs, false)],
            handlers := map[], outbound := s.outbound - {e}, settled := s.settled + {e}, next := s.next + 1)
  {
    assert DeliveryApply(DeliveryApply(s, PublishParked(0)), Ack(0)).handlers == map[];
  }

  function ParkStep(retry: bool, sendMs: nat): DeliveryStep {
    if retry then RetryPark(0, 1, sendMs) else ThrottlePark(0, sendMs)
  }

  /** Handler 0 takes entry `e` and parks its task. */
  lemma Parking(s: World, e: EntryId, task: Task, retry: bool, sendMs: nat, parked: World) returns (steps: seq<Step>)
    requires s.handlers == map[] && e in s.outbound
    requires if retry then HopAllowed(s.outbound[e], RetryHop(1)) && task == RetryTask(s.outbound[e], 1)
             else CanDefer(s.outbound[e]) && task == ThrottleTask(s.outbound[e])
    requires parked == s.(rows := s.rows[task.id := Row(task, SendTime(sendMs, s.next))],
                          earliest := Earlier(s.earliest, task.id, sendMs),
                          scheduled := s.scheduled[s.next + 1 := Scheduled(task.id, s.next + 1, sendMs, false)],
                          outbound := s.outbound - {e}, settled := s.settled + {e}, next := s.next + 2)
    ensures Run(s, steps) && After(s, steps) == parked
  {
    var s1 := s.(handlers := map[0 := Working(e, s.outbound[e])]);
    var s2 := WriteRow(s1, 0, task, sendMs);
    ParkingStarts(s, e, task, retry, sendMs);
    hide WriteRow, DeliveryApply, Earlier;
    steps := Announcing(s2, e, task, sendMs);
    RunCons(s1, OfDelivery(ParkStep(retry, sendMs)), s2, steps);
    steps := [OfDelivery(ParkStep(retry, sendMs))] + steps;
    RunCons(s, OfDelivery(Take(0, e)), s1, steps);
    steps := [OfDelivery(Take(0, e))] + steps;
    assert After(s, steps) == parked by {
      ParkingAddsUp(s, s2, e, task, sendMs, parked);
    }
  }

  lemma ParkingStarts(s: World, e: EntryId, task: Task, retry: bool, sendMs: nat)
    requires s.handlers == map[] && e in s.outbound
    requires if retry then HopAllowed(s.outbound[e], RetryHop(1)) && task == RetryTask(s.outbound[e], 1)
             else CanDefer(s.outbound[e]) && task == ThrottleTask(s.outbound[e])
    ensures var s1 := s.(handlers := map[0 := Working(e, s.outbound[e])]); var s2 := WriteRow(s1, 0, task, sendMs);
      && DeliveryEnabled(s, Take(0, e)) && DeliveryApply(s, Take(0, e)) == s1
      && DeliveryEnabled(s1, ParkStep(retry, sendMs)) && DeliveryApply(s1, ParkStep(retry, sendMs)) == s2
      && s2.handlers == map[0 := RowWritten(e, task, sendMs)]
  {
  }

  lemma ParkingAddsUp(s: World, s2: World, e: EntryId, task: Task, sendMs: nat, parked: World)
    requires s.handlers == map[] && e in s.outbound
    requires s2 == WriteRow(s.(handlers := map[0 := Working(e, s.outbound[e])]), 0, task, sendMs)
    requires parked == s.(rows := s.rows[task.id := Row(task, SendTime(sendMs, s.next))],
                          earliest := Earlier(s.earliest, task.id, sendMs),
                          scheduled := s.scheduled[s.next + 1 := Scheduled(task.id, s.next + 1, sendMs, false)],
                          outbound := s.outbound - {e}, settled := s.settled + {e}, next := s.next + 2)
    ensures parked == s2.(scheduled := s2.scheduled[s2.next := Scheduled(task.id, s2.next, sendMs, false)],
                          handlers := map[], outbound := s2.outbound - {e}, settled := s2.settled + {e}, next := s2.next + 1)
  {
  }

  /** A poll claims the one due member and reads its row. */
  lemma Claiming(s: World, a: ActorId) returns (steps: seq<Step>)
    requires s.polls == map[] && s.members.Keys == {OLD_MEMBER} && s.members[OLD_MEMBER] <= s.now && s.rows.Keys == {1}
    ensures Run(s, steps)
    ensures After(s, steps) == s.(members := map[OLD_MEMBER := s.now + 60_000],
                                  polls := map[a := Releasing({OLD_MEMBER}, s.rows, {}, {}, s.next)])
  {
    var t := s.(members := map[OLD_MEMBER := s.now + 60_000], polls := map[a := Claimed({OLD_MEMBER})]);
    var u := t.(polls := map[a := Poll.Releasing({OLD_MEMBER}, s.rows, {}, {}, s.next)]);
    ClaimingIt(s, a);
    ReadingRows(t, a);
    hide PollApply, PollEnabled, Run, After;
    steps := RunTwo(s, OfPoll(PollStep.Claim(a, {OLD_MEMBER})), t, OfPoll(ReadRows(a, {})), u);
  }

  lemma ClaimingIt(s: World, a: ActorId)
    requires s.polls == map[] && s.members.Keys == {OLD_MEMBER} && s.members[OLD_MEMBER] <= s.now
    ensures PollEnabled(s, PollStep.Claim(a, {OLD_MEMBER}))
    ensures PollApply(s, PollStep.Claim(a, {OLD_MEMBER})) ==
            s.(members := map[OLD_MEMBER := s.now + 60_000], polls := map[a := Claimed({OLD_MEMBER})])
  {
  }

  lemma ReadingRows(t: World, a: ActorId)
    requires t.polls == map[a := Claimed({OLD_MEMBER})] && t.rows.Keys == {1}
    ensures PollEnabled(t, ReadRows(a, {}))
    ensures PollApply(t, ReadRows(a, {})) == t.(polls := map[a := Poll.Releasing({OLD_MEMBER}, t.rows, {}, {}, t.next)])
  {
    assert OLD_MEMBER.task in TasksOf({OLD_MEMBER});
    assert 1 in TasksOf({OLD_MEMBER});
    assert PollApply(t, ReadRows(a, {})).polls[a].rows == t.rows;
    var reading := Poll.Releasing({OLD_MEMBER}, t.rows, {}, {}, t.next);
    assert t.polls[a := reading] == map[a := reading];
  }

  /** Its member has come due, and a poll has claimed it and read its row. */
  function ClaimedOnce(): World {
    ParkedOnce().(now := 100, scheduled := map[], members := map[OLD_MEMBER := 60_100],
                  polls := map[0 := Poll.Releasing({OLD_MEMBER}, ParkedOnce().rows, {}, {}, 5)])
  }

  lemma ClaimingOnce() returns (steps: seq<Step>)
    ensures Run(ParkedOnce(), steps) && After(ParkedOnce(), steps) == ClaimedOnce()
  {
    var s := ParkedOnce();
    var s1 := s.(members := map[OLD_MEMBER := 100], scheduled := map[4 := Scheduled(1, 4, 100, true)]);
    var s2 := s1.(scheduled := map[]);
    var s3 := s2.(now := 100);
    steps := Claiming(s3, 0);
    assert ConsumerApply(s, AddMember(4)) == s1;
    assert ConsumerApply(s1, AckScheduled(4)) == s2;
    hide PollApply, PollEnabled;
    RunCons(s2, Tick(100), s3, steps);
    steps := [Tick(100)] + steps;
    RunCons(s1, OfConsumer(AckScheduled(4)), s2, steps);
    steps := [OfConsumer(AckScheduled(4))] + steps;
    RunCons(s, OfConsumer(AddMember(4)), s1, steps);
    steps := [OfConsumer(AddMember(4))] + steps;
  }
}
