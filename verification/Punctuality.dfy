/** Exactly when the release protocol can release a parked task before the send time of its row: when something left over
  * from an earlier version still carries an earlier time. */
module Punctuality {
  import opened Counting
  import opened ReleaseProtocol
  import opened ReleaseBacking
  import opened ReleaseInvariant
  import opened ReleaseRuns
  import opened WipeLosses

  // ---------------------------------------------------------------- what can bring a row before a poll too soon

  predicate EarlyMember(s: World, m: Member, t: TaskId, ms: nat) {
    m in s.members && m.task == t && s.members[m] < ms
  }

  predicate EarlyEvent(s: World, ev: EventId, t: TaskId, ms: nat) {
    ev in s.scheduled && s.scheduled[ev].task == t && s.scheduled[ev].sendMs < ms
  }

  /** A handler still owes the event of an earlier version. */
  predicate EarlyParker(s: World, a: ActorId, t: TaskId, ms: nat) {
    a in s.handlers && s.handlers[a].RowWritten? && s.handlers[a].task.id == t && s.handlers[a].sendMs < ms
  }

  predicate EarlyEngine(s: World, a: ActorId, t: TaskId, ms: nat) {
    && a in s.engines && !s.engines[a].Sent?
    && s.engines[a].order.task.id == t && s.engines[a].order.sendAt.ms < ms
  }

  predicate EarlyOrder(s: World, t: TaskId, ms: nat) {
    t in s.upstream && s.upstream[t].sendAt.ms < ms
  }

  /** A poll has already claimed a member of the task and not published it. */
  predicate EarlyPoll(s: World, a: ActorId, t: TaskId) {
    && a in s.polls
    && ((s.polls[a].Claimed? && t in TasksOf(s.polls[a].members))
        || (s.polls[a].Releasing? && t in ToPublish(s.polls[a]) - s.polls[a].published))
  }

  /** The rebuilt member is not there, or a poll may still remove it. */
  predicate Restorable(s: World, t: TaskId) {
    || Member(t, Rebuilt) !in s.members
    || exists a :: a in s.polls && !s.polls[a].Claimed? && Member(t, Rebuilt) in s.polls[a].members
  }

  predicate EarlyPending(s: World, a: ActorId, t: TaskId, ms: nat) {
    a in s.rebuilds && t in s.rebuilds[a].pending && s.rebuilds[a].pending[t] < ms && Restorable(s, t)
  }

  ghost predicate Leftover(s: World, t: TaskId, ms: nat) {
    || (exists m :: EarlyMember(s, m, t, ms))
    || (exists ev :: EarlyEvent(s, ev, t, ms))
    || (exists a :: EarlyParker(s, a, t, ms))
    || (exists a :: EarlyEngine(s, a, t, ms))
    || EarlyOrder(s, t, ms)
    || (exists a :: EarlyPoll(s, a, t))
    || (exists a :: EarlyPending(s, a, t, ms))
  }

  // ---------------------------------------------------------------- without a leftover

  predicate ParksTask(s: World, step: Step, t: TaskId)
    requires Enabled(s, step)
  {
    step.OfDelivery? && (step.delivery.ThrottlePark? || step.delivery.RetryPark?) && s.handlers[step.delivery.a].task.id == t
  }

  /** A run that does not park the task anew. */
  predicate ParkFree(s: World, steps: seq<Step>, t: TaskId)
    requires Run(s, steps)
    decreases |steps|
  {
    steps == [] || (!ParksTask(s, steps[0], t) && ParkFree(Apply(s, steps[0]), steps[1..], t))
  }

  ghost predicate StoresPunctual(s: World, t: TaskId, ms: nat) {
    && (t in s.rows ==> s.rows[t].sendAt.ms >= ms)
    && (forall m :: m in s.members && m.task == t ==> s.members[m] >= ms)
    && (forall ev :: ev in s.scheduled && s.scheduled[ev].task == t ==> s.scheduled[ev].sendMs >= ms)
    && (t in s.upstream ==> s.upstream[t].sendAt.ms >= ms)
  }

  ghost predicate WritersPunctual(s: World, t: TaskId, ms: nat) {
    && (forall a :: a in s.handlers && s.handlers[a].RowWritten? && s.handlers[a].task.id == t ==> s.handlers[a].sendMs >= ms)
    && (forall a :: a in s.engines && !s.engines[a].Sent? && s.engines[a].order.task.id == t ==>
          s.engines[a].order.sendAt.ms >= ms)
  }

  ghost predicate PollsPunctual(s: World, t: TaskId) {
    forall a :: a in s.polls ==>
      && (s.polls[a].Claimed? ==> forall m :: m in s.polls[a].members ==> m.task != t)
      && (s.polls[a].Releasing? ==> t !in ToPublish(s.polls[a]) - s.polls[a].published)
  }

  ghost predicate PendingPunctual(s: World, t: TaskId, ms: nat) {
    forall a :: a in s.rebuilds && t in s.rebuilds[a].pending && s.rebuilds[a].pending[t] < ms ==>
      && Member(t, Rebuilt) in s.members
      && forall b :: b in s.polls && !s.polls[b].Claimed? ==> Member(t, Rebuilt) !in s.polls[b].members
  }

  /** Before `ms`, nothing that could release the task carries an earlier time. */
  ghost predicate Punctual(s: World, t: TaskId, ms: nat) {
    s.now < ms ==>
      && StoresPunctual(s, t, ms) && WritersPunctual(s, t, ms) && PollsPunctual(s, t) && PendingPunctual(s, t, ms)
      && t in s.origin
  }

  lemma PunctualMeansNoLeftover(s: World, t: TaskId, ms: nat)
    requires s.now < ms && t in s.origin && (t in s.rows ==> s.rows[t].sendAt.ms >= ms)
    ensures Punctual(s, t, ms) <==> !Leftover(s, t, ms)
  {
    if !Leftover(s, t, ms) {
      StoresHaveNone(s, t, ms);
      WritersHaveNone(s, t, ms);
      forall a | a in s.polls
        ensures s.polls[a].Claimed? ==> forall m :: m in s.polls[a].members ==> m.task != t
        ensures s.polls[a].Releasing? ==> t !in ToPublish(s.polls[a]) - s.polls[a].published
      {
        assert !EarlyPoll(s, a, t);
      }
      forall a | a in s.rebuilds && t in s.rebuilds[a].pending && s.rebuilds[a].pending[t] < ms
        ensures !Restorable(s, t)
      {
        assert !EarlyPending(s, a, t, ms);
      }
    }
  }

  lemma StoresHaveNone(s: World, t: TaskId, ms: nat)
    requires !Leftover(s, t, ms) && (t in s.rows ==> s.rows[t].sendAt.ms >= ms)
    ensures StoresPunctual(s, t, ms)
  {
    forall m | m in s.members && m.task == t ensures s.members[m] >= ms {
      assert !EarlyMember(s, m, t, ms);
    }
    forall ev | ev in s.scheduled && s.scheduled[ev].task == t ensures s.scheduled[ev].sendMs >= ms {
      assert !EarlyEvent(s, ev, t, ms);
    }
  }

  lemma WritersHaveNone(s: World, t: TaskId, ms: nat)
    requires !Leftover(s, t, ms)
    ensures WritersPunctual(s, t, ms)
  {
    forall a | a in s.handlers && s.handlers[a].RowWritten? && s.handlers[a].task.id == t ensures s.handlers[a].sendMs >= ms {
      assert !EarlyParker(s, a, t, ms);
    }
    forall a | a in s.engines && !s.engines[a].Sent? && s.engines[a].order.task.id == t
      ensures s.engines[a].order.sendAt.ms >= ms
    {
      assert !EarlyEngine(s, a, t, ms);
    }
  }

  lemma EngineStoresPunctual(s: World, step: EngineStep, t: TaskId, ms: nat)
    requires UpstreamOk(s) && t in s.origin && WritersPunctual(s, t, ms) && EngineEnabled(s, step) && StoresPunctual(s, t, ms)
    ensures StoresPunctual(EngineApply(s, step), t, ms)
  {
  }

  lemma EngineWritersPunctual(s: World, step: EngineStep, t: TaskId, ms: nat)
    requires StoresPunctual(s, t, ms) && UpstreamOk(s) && t in s.origin && EngineEnabled(s, step) && WritersPunctual(s, t, ms)
    ensures WritersPunctual(EngineApply(s, step), t, ms)
  {
  }

  lemma EnginePollsPunctual(s: World, step: EngineStep, t: TaskId, ms: nat)
    requires EngineEnabled(s, step) && PollsPunctual(s, t) && PendingPunctual(s, t, ms)
    ensures PollsPunctual(EngineApply(s, step), t) && PendingPunctual(EngineApply(s, step), t, ms)
  {
  }

  lemma EngineStaysPunctual(s: World, step: EngineStep, t: TaskId, ms: nat)
    requires UpstreamOk(s) && EngineEnabled(s, step) && Punctual(s, t, ms)
    ensures Punctual(EngineApply(s, step), t, ms)
  {
    EngineClock(s, step);
    hide StoresPunctual, WritersPunctual, PollsPunctual, PendingPunctual, EngineApply;
    if s.now < ms {
      EngineStoresPunctual(s, step, t, ms);
      EngineWritersPunctual(s, step, t, ms);
      EnginePollsPunctual(s, step, t, ms);
    }
  }

  lemma EngineClock(s: World, step: EngineStep)
    requires EngineEnabled(s, step)
    ensures EngineApply(s, step).now == s.now && s.origin.Keys <= EngineApply(s, step).origin.Keys
  {
  }

  lemma DeliveryStoresPunctual(s: World, step: DeliveryStep, t: TaskId, ms: nat)
    requires WritersPunctual(s, t, ms) && DeliveryEnabled(s, step) && StoresPunctual(s, t, ms) && !ParksTask(s, OfDelivery(step), t)
    ensures StoresPunctual(DeliveryApply(s, step), t, ms)
  {
  }

  lemma DeliveryWritersPunctual(s: World, step: DeliveryStep, t: TaskId, ms: nat)
    requires DeliveryEnabled(s, step) && WritersPunctual(s, t, ms) && !ParksTask(s, OfDelivery(step), t)
    ensures WritersPunctual(DeliveryApply(s, step), t, ms)
  {
  }

  lemma DeliveryPollsPunctual(s: World, step: DeliveryStep, t: TaskId, ms: nat)
    requires DeliveryEnabled(s, step) && PollsPunctual(s, t) && PendingPunctual(s, t, ms) && !ParksTask(s, OfDelivery(step), t)
    ensures PollsPunctual(DeliveryApply(s, step), t) && PendingPunctual(DeliveryApply(s, step), t, ms)
  {
  }

  lemma DeliveryStaysPunctual(s: World, step: DeliveryStep, t: TaskId, ms: nat)
    requires RowsOk(s) && DeliveryEnabled(s, step) && Punctual(s, t, ms) && !ParksTask(s, OfDelivery(step), t)
    ensures Punctual(DeliveryApply(s, step), t, ms)
  {
    DeliveryClock(s, step);
    hide StoresPunctual, WritersPunctual, PollsPunctual, PendingPunctual, DeliveryApply;
    if s.now < ms {
      DeliveryStoresPunctual(s, step, t, ms);
      DeliveryWritersPunctual(s, step, t, ms);
      DeliveryPollsPunctual(s, step, t, ms);
    }
  }

  lemma DeliveryClock(s: World, step: DeliveryStep)
    requires DeliveryEnabled(s, step)
    ensures DeliveryApply(s, step).now == s.now && s.origin.Keys <= DeliveryApply(s, step).origin.Keys
  {
  }

  lemma ConsumerStaysPunctual(s: World, step: ConsumerStep, t: TaskId, ms: nat)
    requires ConsumerEnabled(s, step) && Punctual(s, t, ms)
    ensures Punctual(ConsumerApply(s, step), t, ms)
  {
  }

  lemma PollStoresPunctual(s: World, step: PollStep, t: TaskId, ms: nat)
    requires PollEnabled(s, step) && StoresPunctual(s, t, ms)
    ensures StoresPunctual(PollApply(s, step), t, ms)
  {
  }

  lemma PollWritersPunctual(s: World, step: PollStep, t: TaskId, ms: nat)
    requires PollEnabled(s, step) && WritersPunctual(s, t, ms)
    ensures WritersPunctual(PollApply(s, step), t, ms)
  {
  }

  lemma PollPollsPunctual(s: World, step: PollStep, t: TaskId, ms: nat)
    requires StoresPunctual(s, t, ms) && s.now < ms && PollEnabled(s, step) && PollsPunctual(s, t) && PendingPunctual(s, t, ms)
    ensures PollsPunctual(PollApply(s, step), t) && PendingPunctual(PollApply(s, step), t, ms)
  {
  }

  lemma PollStaysPunctual(s: World, step: PollStep, t: TaskId, ms: nat)
    requires PollEnabled(s, step) && Punctual(s, t, ms)
    ensures Punctual(PollApply(s, step), t, ms)
  {
    PollClock(s, step);
    hide StoresPunctual, WritersPunctual, PollsPunctual, PendingPunctual, PollApply;
    if s.now < ms {
      PollStoresPunctual(s, step, t, ms);
      PollWritersPunctual(s, step, t, ms);
      PollPollsPunctual(s, step, t, ms);
    }
  }

  lemma PollClock(s: World, step: PollStep)
    requires PollEnabled(s, step)
    ensures PollApply(s, step).now == s.now && s.origin.Keys <= PollApply(s, step).origin.Keys
  {
  }

  lemma RebuildStoresPunctual(s: World, step: RebuildStep, t: TaskId, ms: nat)
    requires PendingPunctual(s, t, ms) && RebuildEnabled(s, step) && StoresPunctual(s, t, ms)
    ensures StoresPunctual(RebuildApply(s, step), t, ms)
  {
  }

  lemma RebuildWritersPunctual(s: World, step: RebuildStep, t: TaskId, ms: nat)
    requires RebuildEnabled(s, step) && WritersPunctual(s, t, ms)
    ensures WritersPunctual(RebuildApply(s, step), t, ms)
  {
  }

  lemma RebuildPollsPunctual(s: World, step: RebuildStep, t: TaskId, ms: nat)
    requires StoresPunctual(s, t, ms) && RebuildEnabled(s, step) && PollsPunctual(s, t) && PendingPunctual(s, t, ms)
    ensures PollsPunctual(RebuildApply(s, step), t) && PendingPunctual(RebuildApply(s, step), t, ms)
  {
  }

  lemma RebuildStaysPunctual(s: World, step: RebuildStep, t: TaskId, ms: nat)
    requires RebuildEnabled(s, step) && Punctual(s, t, ms)
    ensures Punctual(RebuildApply(s, step), t, ms)
  {
    RebuildClock(s, step);
    hide StoresPunctual, WritersPunctual, PollsPunctual, PendingPunctual, RebuildApply;
    if s.now < ms {
      RebuildStoresPunctual(s, step, t, ms);
      RebuildWritersPunctual(s, step, t, ms);
      RebuildPollsPunctual(s, step, t, ms);
    }
  }

  lemma RebuildClock(s: World, step: RebuildStep)
    requires RebuildEnabled(s, step)
    ensures RebuildApply(s, step).now == s.now && s.origin.Keys <= RebuildApply(s, step).origin.Keys
  {
  }

  lemma StepStaysPunctual(s: World, step: Step, t: TaskId, ms: nat)
    requires Inv(s) && Enabled(s, step) && Punctual(s, t, ms) && !ParksTask(s, step, t)
    ensures Punctual(Apply(s, step), t, ms)
  {
    hide Punctual, EngineApply, DeliveryApply, ConsumerApply, PollApply, RebuildApply, RowsOk, MembersOk, ScheduledOk, EntriesOk,
         UpstreamOk, HistoryOk, HandlersConsistent, EnginesConsistent, PollsConsistent, RebuildsConsistent, TasksSafe;
    match step
    case Tick(n) => TickStaysPunctual(s, n, t, ms);
    case OfEngine(x) => EngineStaysPunctual(s, x, t, ms);
    case OfDelivery(x) => DeliveryStaysPunctual(s, x, t, ms);
    case OfConsumer(x) => ConsumerStaysPunctual(s, x, t, ms);
    case OfPoll(x) => PollStaysPunctual(s, x, t, ms);
    case OfRebuild(x) => RebuildStaysPunctual(s, x, t, ms);
    case Wipe => WipeStaysPunctual(s, t, ms);
  }

  lemma TickStaysPunctual(s: World, n: nat, t: TaskId, ms: nat)
    requires Punctual(s, t, ms)
    ensures Punctual(s.(now := s.now + n), t, ms)
  {
  }

  lemma WipeStaysPunctual(s: World, t: TaskId, ms: nat)
    requires Punctual(s, t, ms) && s.rebuilds == map[]
    ensures Punctual(WipeRedis(s), t, ms)
  {
    hide AtRisk;
  }

  lemma {:induction false} RunStaysPunctual(s: World, steps: seq<Step>, t: TaskId, ms: nat)
    requires Inv(s) && Run(s, steps) && ParkFree(s, steps, t) && Punctual(s, t, ms)
    ensures Punctual(After(s, steps), t, ms)
    decreases |steps|
  {
    if steps != [] {
      hide Inv, Punctual, Apply, Enabled, ParksTask;
      InvKept(s, steps[0]);
      StepStaysPunctual(s, steps[0], t, ms);
      RunStaysPunctual(Apply(s, steps[0]), steps[1..], t, ms);
    }
  }

  // ---------------------------------------------------------------- with a leftover

  /** The run ends with a poll that may publish the task, before `ms`. */
  ghost predicate ReleasesEarly(s: World, steps: seq<Step>, t: TaskId, ms: nat) {
    && Run(s, steps) && ParkFree(s, steps, t)
    && After(s, steps).now < ms && exists a :: Enabled(After(s, steps), OfPoll(PublishOne(a, t)))
  }

  lemma ReleasesNow(s: World, a: ActorId, t: TaskId, ms: nat)
    requires s.now < ms && PollEnabled(s, PublishOne(a, t))
    ensures ReleasesEarly(s, [], t, ms)
  {
    assert Enabled(After(s, []), OfPoll(PublishOne(a, t)));
  }

  /** One more step before an early release. */
  lemma ReleasesAfter(s: World, step: Step, u: World, steps: seq<Step>, t: TaskId, ms: nat)
    requires Enabled(s, step) && u == Apply(s, step) && !ParksTask(s, step, t) && ReleasesEarly(u, steps, t, ms)
    ensures ReleasesEarly(s, [step] + steps, t, ms)
  {
    RunCons(s, step, u, steps);
    assert ([step] + steps)[1..] == steps;
  }

  lemma {:induction false} ReleasesAfterMany(s: World, first: seq<Step>, steps: seq<Step>, t: TaskId, ms: nat)
    requires Run(s, first) && Background(first) && ReleasesEarly(After(s, first), steps, t, ms)
    ensures ReleasesEarly(s, first + steps, t, ms)
    decreases |first|
  {
    hide ReleasesEarly, Enabled, Apply;
    if first == [] {
      assert first + steps == steps;
    } else {
      BackgroundStep(s, first, t);
      hide Background, ParksTask;
      ReleasesAfterMany(Apply(s, first[0]), first[1..], steps, t, ms);
      hide Run, After;
      ReleasesAfter(s, first[0], Apply(s, first[0]), first[1..] + steps, t, ms);
      assert [first[0]] + (first[1..] + steps) == first + steps;
    }
  }

  lemma BackgroundStep(s: World, first: seq<Step>, t: TaskId)
    requires first != [] && Run(s, first) && Background(first)
    ensures !ParksTask(s, first[0], t) && Background(first[1..])
  {
    assert forall i :: 0 <= i < |first[1..]| ==> first[1..][i] == first[i + 1];
  }

  lemma FromClaimed(s: World, a: ActorId, t: TaskId, ms: nat) returns (steps: seq<Step>)
    requires s.now < ms && t in s.rows && a in s.polls && s.polls[a].Claimed? && t in TasksOf(s.polls[a].members)
    ensures ReleasesEarly(s, steps, t, ms)
  {
    var u := PollApply(s, ReadRows(a, {}));
    assert u.polls[a].Releasing? && t in u.polls[a].rows && t in ToPublish(u.polls[a]);
    ReleasesNow(u, a, t, ms);
    hide ReleasesEarly, PollApply;
    ReleasesAfter(s, OfPoll(ReadRows(a, {})), u, [], t, ms);
    steps := [OfPoll(ReadRows(a, {}))] + [];
  }

  lemma FromDue(s: World, m: Member, t: TaskId, ms: nat) returns (steps: seq<Step>)
    requires s.now < ms && t in s.rows && m in s.members && m.task == t && s.members[m] <= s.now
    ensures ReleasesEarly(s, steps, t, ms)
  {
    var a := Unused(s.polls.Keys);
    var u := PollApply(s, PollStep.Claim(a, {m}));
    assert PollEnabled(s, PollStep.Claim(a, {m}));
    assert m in u.polls[a].members && t in TasksOf(u.polls[a].members) && u.now == s.now && u.rows == s.rows;
    hide ReleasesEarly, PollApply, PollEnabled, TasksOf;
    steps := FromClaimed(u, a, t, ms);
    ReleasesAfter(s, OfPoll(PollStep.Claim(a, {m})), u, steps, t, ms);
    steps := [OfPoll(PollStep.Claim(a, {m}))] + steps;
  }

  lemma FromMember(s: World, m: Member, t: TaskId, ms: nat) returns (steps: seq<Step>)
    requires s.now < ms && t in s.rows && EarlyMember(s, m, t, ms)
    ensures ReleasesEarly(s, steps, t, ms)
  {
    var wait := if s.members[m] > s.now then s.members[m] - s.now else 0;
    var u := Apply(s, Tick(wait));
    Waiting(s, wait);
    hide ReleasesEarly, Apply, Enabled;
    steps := FromDue(u, m, t, ms);
    ReleasesAfter(s, Tick(wait), u, steps, t, ms);
    steps := [Tick(wait)] + steps;
  }

  lemma Waiting(s: World, wait: nat)
    ensures Enabled(s, Tick(wait))
    ensures var u := Apply(s, Tick(wait)); u.now == s.now + wait && u.rows == s.rows && u.members == s.members
  {
  }

  lemma FromEvent(s: World, ev: EventId, t: TaskId, ms: nat) returns (steps: seq<Step>)
    requires s.now < ms && t in s.rows && EarlyEvent(s, ev, t, ms)
    ensures ReleasesEarly(s, steps, t, ms)
  {
    var u := ConsumerApply(s, AddMember(ev));
    assert EarlyMember(u, Member(t, Traced(s.scheduled[ev].tag)), t, ms);
    steps := FromMember(u, Member(t, Traced(s.scheduled[ev].tag)), t, ms);
    hide ReleasesEarly, ConsumerApply;
    ReleasesAfter(s, OfConsumer(AddMember(ev)), u, steps, t, ms);
    steps := [OfConsumer(AddMember(ev))] + steps;
  }

  lemma FromParker(s: World, a: ActorId, t: TaskId, ms: nat) returns (steps: seq<Step>)
    requires s.now < ms && t in s.rows && EarlyParker(s, a, t, ms)
    ensures ReleasesEarly(s, steps, t, ms)
  {
    var u := DeliveryApply(s, PublishParked(a));
    assert EarlyEvent(u, s.next, t, ms);
    steps := FromEvent(u, s.next, t, ms);
    hide ReleasesEarly, DeliveryApply;
    ReleasesAfter(s, OfDelivery(PublishParked(a)), u, steps, t, ms);
    steps := [OfDelivery(PublishParked(a))] + steps;
  }

  lemma FromInserted(s: World, a: ActorId, t: TaskId, ms: nat) returns (steps: seq<Step>)
    requires s.now < ms && t in s.rows && EarlyEngine(s, a, t, ms) && s.engines[a].Inserted?
    ensures ReleasesEarly(s, steps, t, ms)
  {
    var u := EngineApply(s, PublishScheduled(a));
    assert EarlyEvent(u, s.next, t, ms);
    steps := FromEvent(u, s.next, t, ms);
    hide ReleasesEarly, EngineApply;
    ReleasesAfter(s, OfEngine(PublishScheduled(a)), u, steps, t, ms);
    steps := [OfEngine(PublishScheduled(a))] + steps;
  }

  lemma FromEngine(s: World, a: ActorId, t: TaskId, ms: nat) returns (steps: seq<Step>)
    requires s.now < ms && t in s.rows && EarlyEngine(s, a, t, ms)
    ensures ReleasesEarly(s, steps, t, ms)
  {
    if s.engines[a].Inserted? {
      steps := FromInserted(s, a, t, ms);
    } else {
      var u := EngineApply(s, EngineStep.InsertRow(a));
      assert EarlyEngine(u, a, t, ms) && u.engines[a].Inserted? && t in u.rows;
      steps := FromInserted(u, a, t, ms);
      hide ReleasesEarly, EngineApply;
      ReleasesAfter(s, OfEngine(EngineStep.InsertRow(a)), u, steps, t, ms);
      steps := [OfEngine(EngineStep.InsertRow(a))] + steps;
    }
  }

  lemma FromOrder(s: World, t: TaskId, ms: nat) returns (steps: seq<Step>)
    requires s.now < ms && t in s.rows && EarlyOrder(s, t, ms) && s.upstream[t].task.id == t
    ensures ReleasesEarly(s, steps, t, ms)
  {
    var a := Unused(s.engines.Keys);
    var u := EngineApply(s, MarkerExpires(t));
    var v := EngineApply(u, TakeOrder(a, t));
    assert EarlyEngine(v, a, t, ms);
    steps := FromEngine(v, a, t, ms);
    hide ReleasesEarly, EngineApply;
    ReleasesAfter(u, OfEngine(TakeOrder(a, t)), v, steps, t, ms);
    steps := [OfEngine(TakeOrder(a, t))] + steps;
    ReleasesAfter(s, OfEngine(MarkerExpires(t)), u, steps, t, ms);
    steps := [OfEngine(MarkerExpires(t))] + steps;
  }

  lemma FromRestored(s: World, a: ActorId, t: TaskId, ms: nat) returns (steps: seq<Step>)
    requires s.now < ms && t in s.rows && a in s.rebuilds && t in s.rebuilds[a].pending && s.rebuilds[a].pending[t] < ms
    requires Member(t, Rebuilt) !in s.members
    ensures ReleasesEarly(s, steps, t, ms)
  {
    var u := RebuildApply(s, RestoreMember(a, t));
    assert EarlyMember(u, Member(t, Rebuilt), t, ms);
    steps := FromMember(u, Member(t, Rebuilt), t, ms);
    hide ReleasesEarly, RebuildApply;
    ReleasesAfter(s, OfRebuild(RestoreMember(a, t)), u, steps, t, ms);
    steps := [OfRebuild(RestoreMember(a, t))] + steps;
  }

  lemma FromPoll(s: World, a: ActorId, t: TaskId, ms: nat) returns (steps: seq<Step>)
    requires s.now < ms && t in s.rows && EarlyPoll(s, a, t)
    ensures ReleasesEarly(s, steps, t, ms)
  {
    if s.polls[a].Claimed? {
      steps := FromClaimed(s, a, t, ms);
    } else {
      ReleasesNow(s, a, t, ms);
      steps := [];
    }
  }

  lemma FromPending(s: World, a: ActorId, t: TaskId, ms: nat) returns (steps: seq<Step>)
    requires Inv(s) && s.now < ms && t in s.rows && EarlyPending(s, a, t, ms)
    ensures ReleasesEarly(s, steps, t, ms)
  {
    if Member(t, Rebuilt) !in s.members {
      steps := FromRestored(s, a, t, ms);
    } else {
      var b :| b in s.polls && !s.polls[b].Claimed? && Member(t, Rebuilt) in s.polls[b].members;
      assert PollConsistent(s, s.polls[b]);
      hide Inv, PollConsistent;
      if EarlyPoll(s, b, t) {
        steps := FromPoll(s, b, t, ms);
      } else {
        var clean := CleaningUp(s, b, t);
        var u := After(s, clean);
        steps := FromRestored(u, a, t, ms);
        hide ReleasesEarly, Aside;
        ReleasesAfterMany(s, clean, steps, t, ms);
        steps := clean + steps;
      }
    }
  }

  lemma FromLeftover(s: World, t: TaskId, ms: nat) returns (steps: seq<Step>)
    requires Inv(s) && s.now < ms && t in s.rows && Leftover(s, t, ms)
    ensures ReleasesEarly(s, steps, t, ms)
  {
    hide ReleasesEarly;
    if m :| EarlyMember(s, m, t, ms) {
      steps := FromMember(s, m, t, ms);
    } else if ev :| EarlyEvent(s, ev, t, ms) {
      steps := FromEvent(s, ev, t, ms);
    } else if a :| EarlyParker(s, a, t, ms) {
      steps := FromParker(s, a, t, ms);
    } else if a :| EarlyEngine(s, a, t, ms) {
      steps := FromEngine(s, a, t, ms);
    } else if EarlyOrder(s, t, ms) {
      steps := FromOrder(s, t, ms);
    } else if a :| EarlyPoll(s, a, t) {
      steps := FromPoll(s, a, t, ms);
    } else {
      var a :| EarlyPending(s, a, t, ms);
      steps := FromPending(s, a, t, ms);
    }
  }

  // ---------------------------------------------------------------- main result

  /** In any reachable state, for a task parked until some time still to come: some continuation that does not park it anew
    * has a poll publish it before that time exactly if a member, an event, a rebuild, a poll at work, a handler or an engine
    * order left over from an earlier version still carries an earlier one. */
  lemma EarlyReleaseExactlyWhen(before: seq<Step>, t: TaskId)
    requires Run(Init(), before) && t in After(Init(), before).rows
    requires After(Init(), before).now < After(Init(), before).rows[t].sendAt.ms
    ensures var s := After(Init(), before); var ms := s.rows[t].sendAt.ms;
      Leftover(s, t, ms) <==> exists steps :: ReleasesEarly(s, steps, t, ms)
  {
    Reachable(before);
    var s := After(Init(), before);
    EarlyReleaseExactlyFrom(s, t);
  }

  lemma EarlyReleaseExactlyFrom(s: World, t: TaskId)
    requires Inv(s) && t in s.rows && s.now < s.rows[t].sendAt.ms
    ensures Leftover(s, t, s.rows[t].sendAt.ms) <==> exists steps :: ReleasesEarly(s, steps, t, s.rows[t].sendAt.ms)
  {
    var ms := s.rows[t].sendAt.ms;
    if Leftover(s, t, ms) {
      var steps := FromLeftover(s, t, ms);
    } else {
      assert t in s.origin;
      PunctualMeansNoLeftover(s, t, ms);
      hide Inv, Leftover;
      forall steps
        ensures !ReleasesEarly(s, steps, t, ms)
      {
        if ReleasesEarly(s, steps, t, ms) {
          RunStaysPunctual(s, steps, t, ms);
          assert false;
        }
      }
    }
  }
}
