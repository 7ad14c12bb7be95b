/** When the release protocol lets a task go, and what its counters can be by then. */
module ReleaseTiming {
  import opened Delivery
  import opened ReleaseProtocol
  import opened ReleaseBacking

  // ---------------------------------------------------------------- never before the earliest recorded send time

  predicate Due(s: World, t: TaskId, ms: nat) {
    t in s.earliest && s.earliest[t] <= ms
  }

  ghost predicate StoresDue(s: World) {
    && (forall t :: t in s.rows ==> Due(s, t, s.rows[t].sendAt.ms))
    && (forall m :: m in s.members ==> Due(s, m.task, s.members[m]))
    && (forall ev :: ev in s.scheduled ==> Due(s, s.scheduled[ev].task, s.scheduled[ev].sendMs))
    && (forall t :: t in s.rows ==> s.rows[t].task.id == t)
  }

  ghost predicate ActorsDue(s: World) {
    && (forall a :: a in s.handlers && s.handlers[a].RowWritten? ==> Due(s, s.handlers[a].task.id, s.handlers[a].sendMs))
    && (forall a :: a in s.engines && s.engines[a].Inserted? ==> Due(s, s.engines[a].order.task.id, s.engines[a].order.sendAt.ms))
    && (forall a, t :: a in s.rebuilds && t in s.rebuilds[a].pending ==> Due(s, t, s.rebuilds[a].pending[t]))
    && (forall a, m :: a in s.polls && m in s.polls[a].members ==> Due(s, m.task, s.now))
  }

  ghost predicate TimingInv(s: World) {
    StoresDue(s) && ActorsDue(s)
  }

  lemma EarlierStaysDue(s: World, s': World, t: TaskId, ms: nat)
    requires s'.earliest == Earlier(s.earliest, t, ms)
    ensures Due(s', t, ms) && forall u, at :: Due(s, u, at) ==> Due(s', u, at)
  {
  }

  lemma InsertRowDue(s: World, a: ActorId)
    requires TimingInv(s) && EngineEnabled(s, InsertRow(a))
    ensures TimingInv(EngineApply(s, InsertRow(a)))
  {
    var o := s.engines[a].order;
    EarlierStaysDue(s, EngineApply(s, InsertRow(a)), o.task.id, o.sendAt.ms);
  }

  lemma PublishScheduledDue(s: World, a: ActorId)
    requires TimingInv(s) && EngineEnabled(s, PublishScheduled(a))
    ensures TimingInv(EngineApply(s, PublishScheduled(a)))
  {
  }

  predicate LeavesTimes(step: EngineStep) {
    !step.InsertRow? && !step.PublishScheduled?
  }

  lemma EngineStoresDue(s: World, step: EngineStep)
    requires StoresDue(s) && EngineEnabled(s, step) && LeavesTimes(step)
    ensures StoresDue(EngineApply(s, step))
  {
  }

  lemma EngineActorsDue(s: World, step: EngineStep)
    requires ActorsDue(s) && EngineEnabled(s, step) && LeavesTimes(step)
    ensures ActorsDue(EngineApply(s, step))
  {
  }

  lemma EngineStepDue(s: World, step: EngineStep)
    requires TimingInv(s) && EngineEnabled(s, step)
    ensures TimingInv(EngineApply(s, step))
  {
    if step.InsertRow? {
      InsertRowDue(s, step.a);
    } else if step.PublishScheduled? {
      PublishScheduledDue(s, step.a);
    } else {
      hide StoresDue, ActorsDue;
      EngineStoresDue(s, step);
      EngineActorsDue(s, step);
    }
  }

  lemma WriteRowDue(s: World, a: ActorId, parked: Task, sendMs: nat)
    requires TimingInv(s) && a in s.handlers && s.handlers[a].Working? && parked.id == s.handlers[a].task.id
    ensures TimingInv(WriteRow(s, a, parked, sendMs))
  {
    EarlierStaysDue(s, WriteRow(s, a, parked, sendMs), parked.id, sendMs);
  }

  lemma PublishParkedDue(s: World, a: ActorId)
    requires TimingInv(s) && DeliveryEnabled(s, PublishParked(a))
    ensures TimingInv(DeliveryApply(s, PublishParked(a)))
  {
  }

  predicate Announces(step: DeliveryStep) {
    step.ThrottlePark? || step.RetryPark? || step.PublishParked?
  }

  lemma QuietDeliveryStoresDue(s: World, step: DeliveryStep)
    requires StoresDue(s) && DeliveryEnabled(s, step) && !Announces(step)
    ensures StoresDue(DeliveryApply(s, step))
  {
  }

  lemma QuietDeliveryActorsDue(s: World, step: DeliveryStep)
    requires ActorsDue(s) && DeliveryEnabled(s, step) && !Announces(step)
    ensures ActorsDue(DeliveryApply(s, step))
  {
  }

  lemma DeliveryStepDue(s: World, step: DeliveryStep)
    requires TimingInv(s) && DeliveryEnabled(s, step)
    ensures TimingInv(DeliveryApply(s, step))
  {
    hide StoresDue, ActorsDue;
    match step
    case ThrottlePark(a, ms) => WriteRowDue(s, a, ThrottleTask(s.handlers[a].task), ms);
    case RetryPark(a, attempt, ms) => WriteRowDue(s, a, RetryTask(s.handlers[a].task, attempt), ms);
    case PublishParked(a) => PublishParkedDue(s, a);
    case _ =>
      QuietDeliveryStoresDue(s, step);
      QuietDeliveryActorsDue(s, step);
  }

  lemma ConsumerStepDue(s: World, step: ConsumerStep)
    requires TimingInv(s) && ConsumerEnabled(s, step)
    ensures TimingInv(ConsumerApply(s, step))
  {
  }

  lemma ClaimDue(s: World, a: ActorId, due: set<Member>)
    requires TimingInv(s) && PollEnabled(s, PollStep.Claim(a, due))
    ensures TimingInv(PollApply(s, PollStep.Claim(a, due)))
  {
  }

  lemma PollStoresDue(s: World, step: PollStep)
    requires TimingInv(s) && PollEnabled(s, step) && !step.Claim?
    ensures StoresDue(PollApply(s, step))
  {
    hide ActorsDue;
  }

  lemma PollActorsDue(s: World, step: PollStep)
    requires TimingInv(s) && PollEnabled(s, step) && !step.Claim?
    ensures ActorsDue(PollApply(s, step))
  {
    hide StoresDue;
  }

  lemma PollStepDue(s: World, step: PollStep)
    requires TimingInv(s) && PollEnabled(s, step)
    ensures TimingInv(PollApply(s, step))
  {
    hide StoresDue, ActorsDue;
    if step.Claim? {
      ClaimDue(s, step.a, step.due);
    } else {
      PollStoresDue(s, step);
      PollActorsDue(s, step);
    }
  }

  lemma RestoreMemberDue(s: World, a: ActorId, t: TaskId)
    requires TimingInv(s) && RebuildEnabled(s, RestoreMember(a, t))
    ensures TimingInv(RebuildApply(s, RestoreMember(a, t)))
  {
  }

  lemma RebuildActorsDue(s: World, step: RebuildStep)
    requires TimingInv(s) && RebuildEnabled(s, step) && !step.RestoreMember?
    ensures ActorsDue(RebuildApply(s, step))
  {
  }

  lemma RebuildStoresDue(s: World, step: RebuildStep)
    requires StoresDue(s) && RebuildEnabled(s, step) && !step.RestoreMember?
    ensures StoresDue(RebuildApply(s, step))
  {
  }

  lemma RebuildStepDue(s: World, step: RebuildStep)
    requires TimingInv(s) && RebuildEnabled(s, step)
    ensures TimingInv(RebuildApply(s, step))
  {
    if step.RestoreMember? {
      RestoreMemberDue(s, step.a, step.t);
    } else {
      hide StoresDue, ActorsDue;
      RebuildStoresDue(s, step);
      RebuildActorsDue(s, step);
    }
  }

  lemma StepDue(s: World, step: Step)
    requires TimingInv(s) && Enabled(s, step)
    ensures TimingInv(Apply(s, step))
  {
    match step
    case Tick(ms) =>
    case OfEngine(x) => EngineStepDue(s, x);
    case OfDelivery(x) => DeliveryStepDue(s, x);
    case OfConsumer(x) => ConsumerStepDue(s, x);
    case OfPoll(x) => PollStepDue(s, x);
    case OfRebuild(x) => RebuildStepDue(s, x);
    case Wipe =>
  }

  lemma {:induction false} TimingAlways(s: World, steps: seq<Step>)
    requires TimingInv(s) && Run(s, steps)
    ensures TimingInv(After(s, steps))
    decreases |steps|
  {
    if steps != [] {
      StepDue(s, steps[0]);
      TimingAlways(Apply(s, steps[0]), steps[1..]);
    }
  }

  /** A poll publishes a parked task only once the earliest send time ever recorded for it has come. */
  lemma NeverReleasedBeforeEarliest(steps: seq<Step>, a: ActorId, t: TaskId)
    requires Run(Init(), steps) && Enabled(After(Init(), steps), OfPoll(PublishOne(a, t)))
    ensures var s := After(Init(), steps); t in s.earliest && s.earliest[t] <= s.now
  {
    TimingAlways(Init(), steps);
    var s := After(Init(), steps);
    var m :| m in s.polls[a].members && m.task == t;
  }

  // ---------------------------------------------------------------- every version is on its task's itinerary

  /** The version is what some sequence of allowed parks makes of the task as it reached the engine. */
  ghost predicate OnItsWay(origin: map<TaskId, Task>, t: Task) {
    t.id in origin && exists hops :: LeadsTo(origin[t.id], hops, t)
  }

  ghost predicate LeadsTo(from: Task, hops: seq<Hop>, t: Task) {
    Itinerary(from, hops) && AfterHops(from, hops) == t && CountFallbacks(hops) == 0
  }

  /** A version of a task that something in the system still holds. */
  ghost predicate InPlay(s: World, t: Task) {
    || (exists k :: k in s.rows && s.rows[k].task == t)
    || (exists e :: e in s.outbound && s.outbound[e] == t)
    || (exists k :: k in s.upstream && s.upstream[k].task == t)
    || (exists a :: a in s.engines && s.engines[a].order.task == t)
    || (exists a :: a in s.handlers && s.handlers[a].task == t)
    || (exists a, k :: a in s.polls && s.polls[a].Releasing? && k in s.polls[a].rows && s.polls[a].rows[k].task == t)
  }

  ghost predicate Fresh(origin: map<TaskId, Task>) {
    forall k :: k in origin ==>
      origin[k].id == k && ValidTask(origin[k]) && origin[k].deliveryAttempts == 0 && origin[k].throttleAttempts == 0
  }

  ghost predicate ItineraryInv(s: World) {
    Fresh(s.origin) && forall t :: InPlay(s, t) ==> OnItsWay(s.origin, t)
  }

  lemma HopStaysOnItsWay(origin: map<TaskId, Task>, t: Task, h: Hop)
    requires OnItsWay(origin, t) && HopAllowed(t, h) && !h.FallbackHop?
    ensures OnItsWay(origin, AfterHop(t, h))
  {
    var hops :| LeadsTo(origin[t.id], hops, t);
    ItineraryExtends(origin[t.id], hops, h);
    assert LeadsTo(origin[t.id], hops + [h], AfterHop(t, h));
  }

  lemma ArrivalIsOnItsWay(origin: map<TaskId, Task>, t: Task)
    requires t.id in origin && origin[t.id] == t
    ensures OnItsWay(origin, t)
  {
    assert LeadsTo(t, [], t);
  }

  /** What a step brings into play was in play, or is a park of something that was, or has just arrived. */
  lemma EngineBrings(s: World, step: EngineStep, t: Task)
    requires EngineEnabled(s, step) && InPlay(EngineApply(s, step), t)
    ensures InPlay(s, t) || (step.Arrive? && step.order == t)
  {
  }

  lemma PollBrings(s: World, step: PollStep, t: Task)
    requires PollEnabled(s, step) && InPlay(PollApply(s, step), t)
    ensures InPlay(s, t)
  {
  }

  lemma ParkBrings(s: World, a: ActorId, parked: Task, sendMs: nat, t: Task)
    requires a in s.handlers && s.handlers[a].Working? && InPlay(WriteRow(s, a, parked, sendMs), t)
    ensures InPlay(s, t) || t == parked
  {
  }

  lemma QuietDeliveryBrings(s: World, step: DeliveryStep, t: Task)
    requires DeliveryEnabled(s, step) && !step.ThrottlePark? && !step.RetryPark? && InPlay(DeliveryApply(s, step), t)
    ensures InPlay(s, t)
  {
  }

  predicate IsPark(step: Step) {
    step.OfDelivery? && (step.delivery.ThrottlePark? || step.delivery.RetryPark?)
  }

  function HopOf(step: DeliveryStep): (h: Hop)
    requires step.ThrottlePark? || step.RetryPark?
  {
    if step.ThrottlePark? then ThrottleHop else RetryHop(step.attempt)
  }

  lemma StepBrings(s: World, step: Step, t: Task)
    requires Enabled(s, step) && InPlay(Apply(s, step), t)
    ensures
      || InPlay(s, t)
      || (step.OfEngine? && step.engine.Arrive? && step.engine.order == t)
      || (IsPark(step) && HopAllowed(s.handlers[step.delivery.a].task, HopOf(step.delivery))
          && t == AfterHop(s.handlers[step.delivery.a].task, HopOf(step.delivery)))
  {
    hide EngineApply, PollApply, WriteRow;
    match step
    case OfEngine(x) => EngineBrings(s, x, t);
    case OfPoll(x) => PollBrings(s, x, t);
    case OfDelivery(x) =>
      match x {
        case ThrottlePark(a, ms) => ParkBrings(s, a, ThrottleTask(s.handlers[a].task), ms, t);
        case RetryPark(a, attempt, ms) => ParkBrings(s, a, RetryTask(s.handlers[a].task, attempt), ms, t);
        case _ => QuietDeliveryBrings(s, x, t);
      }
    case OfConsumer(x) => ConsumerBrings(s, x, t);
    case OfRebuild(x) => RebuildBrings(s, x, t);
    case Tick(_) =>
    case Wipe =>
  }

  lemma ConsumerBrings(s: World, step: ConsumerStep, t: Task)
    requires ConsumerEnabled(s, step) && InPlay(ConsumerApply(s, step), t)
    ensures InPlay(s, t)
  {
  }

  lemma RebuildBrings(s: World, step: RebuildStep, t: Task)
    requires RebuildEnabled(s, step) && InPlay(RebuildApply(s, step), t)
    ensures InPlay(s, t)
  {
  }

  lemma EngineGrowsOrigin(s: World, step: EngineStep)
    requires EngineEnabled(s, step) && Fresh(s.origin)
    ensures var origin := EngineApply(s, step).origin;
      && Fresh(origin) && (forall k :: k in s.origin ==> k in origin && origin[k] == s.origin[k])
      && (step.Arrive? ==> step.order.id in origin && origin[step.order.id] == step.order)
  {
  }

  lemma OriginGrows(s: World, step: Step)
    requires Enabled(s, step) && Fresh(s.origin)
    ensures var origin := Apply(s, step).origin;
      && Fresh(origin) && (forall k :: k in s.origin ==> k in origin && origin[k] == s.origin[k])
      && (step.OfEngine? && step.engine.Arrive? ==>
            step.engine.order.id in origin && origin[step.engine.order.id] == step.engine.order)
  {
    if !step.Wipe? {
      StepFrame(s, step);
    }
    hide EngineApply, DeliveryApply, PollApply, RebuildApply, ConsumerApply, Fresh;
    if step.OfEngine? {
      EngineGrowsOrigin(s, step.engine);
    }
  }

  lemma StepStaysOnItsWay(s: World, step: Step)
    requires ItineraryInv(s) && Enabled(s, step)
    ensures ItineraryInv(Apply(s, step))
  {
    OriginGrows(s, step);
    hide Apply, Enabled, InPlay, Fresh, LeadsTo;
    forall t | InPlay(Apply(s, step), t)
      ensures OnItsWay(Apply(s, step).origin, t)
    {
      StepBrings(s, step, t);
      if !InPlay(s, t) {
        if IsPark(step) {
          var held := s.handlers[step.delivery.a].task;
          HandlerIsInPlay(s, step.delivery.a);
          HopStaysOnItsWay(s.origin, held, HopOf(step.delivery));
        } else {
          ArrivalIsOnItsWay(Apply(s, step).origin, t);
        }
      }
      OnItsWayGrows(s.origin, Apply(s, step).origin, t);
    }
  }

  lemma HandlerIsInPlay(s: World, a: ActorId)
    requires a in s.handlers
    ensures InPlay(s, s.handlers[a].task)
  {
  }

  lemma OnItsWayGrows(origin: map<TaskId, Task>, later: map<TaskId, Task>, t: Task)
    requires forall k :: k in origin ==> k in later && later[k] == origin[k]
    ensures OnItsWay(origin, t) ==> OnItsWay(later, t)
  {
  }

  lemma {:induction false} ItineraryAlways(s: World, steps: seq<Step>)
    requires ItineraryInv(s) && Run(s, steps)
    ensures ItineraryInv(After(s, steps))
    decreases |steps|
  {
    if steps != [] {
      hide ItineraryInv, Apply, Enabled;
      StepStaysOnItsWay(s, steps[0]);
      ItineraryAlways(Apply(s, steps[0]), steps[1..]);
    }
  }

  /** The counters a park leaves are the retries and deferrals that led to it, and nothing else about the task changes. */
  lemma {:induction false} CountersCount(from: Task, hops: seq<Hop>)
    requires Itinerary(from, hops) && CountFallbacks(hops) == 0
    requires from.deliveryAttempts < from.maxAttempts && from.throttleAttempts <= MAX_THROTTLE_DEFERRALS
    ensures var t := AfterHops(from, hops);
      && from.deliveryAttempts + CountRetries(hops) <= t.deliveryAttempts < t.maxAttempts == from.maxAttempts
      && t.throttleAttempts == from.throttleAttempts + CountThrottles(hops) <= MAX_THROTTLE_DEFERRALS
      && t == from.(deliveryAttempts := t.deliveryAttempts, throttleAttempts := t.throttleAttempts)
    ensures |hops| == CountRetries(hops) + CountThrottles(hops)
    decreases |hops|
  {
    if hops != [] {
      CountersCount(AfterHop(from, hops[0]), hops[1..]);
    }
  }

  /** On every run, whatever is parked, on a stream or in some worker's hands is the task as it reached the engine, but for
    * its counters, and what an allowed sequence of parks makes of it: at most `maxAttempts - 1` retries and 50 deferrals, every duplicate, early release,
    * replay and wipe included. */
  lemma EveryVersionIsOnItsWay(steps: seq<Step>, t: Task)
    requires Run(Init(), steps) && InPlay(After(Init(), steps), t)
    ensures var origin := After(Init(), steps).origin;
      && t.id in origin
      && t == origin[t.id].(deliveryAttempts := t.deliveryAttempts, throttleAttempts := t.throttleAttempts)
      && exists hops ::
           && Itinerary(origin[t.id], hops) && AfterHops(origin[t.id], hops) == t
           && CountRetries(hops) <= t.deliveryAttempts < t.maxAttempts
           && CountThrottles(hops) == t.throttleAttempts <= MAX_THROTTLE_DEFERRALS
           && |hops| <= t.maxAttempts - 1 + MAX_THROTTLE_DEFERRALS
  {
    assert forall u :: !InPlay(Init(), u);
    ItineraryAlways(Init(), steps);
    hide Run, After, InPlay;
    var origin := After(Init(), steps).origin;
    var hops :| LeadsTo(origin[t.id], hops, t);
    CountersCount(origin[t.id], hops);
  }

  /** On every run, a task is handed over only if it came with a fallback, and its failure published only if it did not. */
  lemma ClosedAsItsChainSays(steps: seq<Step>, a: ActorId, how: Closing)
    requires Run(Init(), steps) && Enabled(After(Init(), steps), OfDelivery(Close(a, how)))
    ensures var s := After(Init(), steps); var t := s.handlers[a].task;
      && t.id in s.origin
      && (how.HandOver? ==> HasFallback(s.origin[t.id])) && (how.PublishFailure? ==> !HasFallback(s.origin[t.id]))
  {
    var s := After(Init(), steps);
    assert InPlay(s, s.handlers[a].task);
    hide Run, After, InPlay, Itinerary, AfterHops;
    EveryVersionIsOnItsWay(steps, s.handlers[a].task);
  }
}
