/** Nobody in the release protocol does a thing twice for one take: accounts over its runs, kept per process. */
module ReleaseOnce {
  import opened ReleaseProtocol

  // ---------------------------------------------------------------- engine handlers

  /** What `step` adds to the account of engine handler `a`: taking an order opens it, publishing it closes it. */
  function EngineEntry(step: Step, a: ActorId): (n: int) {
    if !step.OfEngine? then 0
    else match step.engine
      case TakeOrder(b, _) => if a == b then 1 else 0
      case Dispatch(b) => if a == b then -1 else 0
      case PublishScheduled(b) => if a == b then -1 else 0
      case _ => 0
  }

  function EngineAccount(steps: seq<Step>, a: ActorId): (n: int) {
    if steps == [] then 0 else EngineEntry(steps[0], a) + EngineAccount(steps[1..], a)
  }

  /** The handler has an order that it has not published. */
  function EngineOwes(s: World, a: ActorId): (n: nat) {
    if a in s.engines && !s.engines[a].Sent? then 1 else 0
  }

  lemma EngineStepPays(s: World, step: EngineStep, a: ActorId)
    requires EngineEnabled(s, step)
    ensures EngineOwes(EngineApply(s, step), a) <= EngineOwes(s, a) + EngineEntry(OfEngine(step), a)
  {
  }

  lemma StepPaysEngine(s: World, step: Step, a: ActorId)
    requires Enabled(s, step)
    ensures EngineOwes(Apply(s, step), a) <= EngineOwes(s, a) + EngineEntry(step, a)
  {
    hide EngineApply, DeliveryApply, ConsumerApply, PollApply, RebuildApply, EngineEnabled, DeliveryEnabled, PollEnabled, Survives,
         EngineEntry;
    NoEntry(step, a);
    match step
    case OfEngine(x) => EngineStepPays(s, x, a);
    case OfDelivery(x) => DeliveryLeaves(s, x);
    case OfConsumer(x) => ConsumerLeaves(s, x);
    case OfPoll(x) => PollLeaves(s, x);
    case OfRebuild(x) => RebuildLeaves(s, x);
    case _ =>
  }

  lemma NoEntry(step: Step, a: ActorId)
    ensures !step.OfEngine? ==> EngineEntry(step, a) == 0
    ensures !step.OfDelivery? ==> HandlerEntry(step, a) == 0
  {
  }

  lemma DeliveryLeaves(s: World, step: DeliveryStep)
    requires DeliveryEnabled(s, step)
    ensures DeliveryApply(s, step).engines == s.engines && DeliveryApply(s, step).polls == s.polls
  {
  }

  lemma EngineLeaves(s: World, step: EngineStep)
    requires EngineEnabled(s, step)
    ensures EngineApply(s, step).handlers == s.handlers && EngineApply(s, step).polls == s.polls
  {
  }

  lemma ConsumerLeaves(s: World, step: ConsumerStep)
    requires ConsumerEnabled(s, step)
    ensures ConsumerApply(s, step) == s.(members := ConsumerApply(s, step).members, scheduled := ConsumerApply(s, step).scheduled,
                                         deadLettered := ConsumerApply(s, step).deadLettered)
  {
  }

  lemma PollLeaves(s: World, step: PollStep)
    requires PollEnabled(s, step)
    ensures PollApply(s, step).engines == s.engines && PollApply(s, step).handlers == s.handlers
  {
  }

  lemma RebuildLeaves(s: World, step: RebuildStep)
    requires RebuildEnabled(s, step)
    ensures RebuildApply(s, step) == s.(members := RebuildApply(s, step).members, sentinel := RebuildApply(s, step).sentinel,
                                        rebuilds := RebuildApply(s, step).rebuilds)
  {
  }

  lemma {:induction false} RunPaysEngine(s: World, steps: seq<Step>, a: ActorId)
    requires Run(s, steps)
    ensures EngineOwes(After(s, steps), a) <= EngineOwes(s, a) + EngineAccount(steps, a)
    decreases |steps|
  {
    if steps != [] {
      hide Enabled, Apply, EngineOwes, EngineEntry;
      StepPaysEngine(s, steps[0], a);
      RunPaysEngine(Apply(s, steps[0]), steps[1..], a);
    }
  }

  /** In every run an engine handler dispatches or schedules an order at most once for each time it takes one. */
  lemma EngineActsOncePerTake(steps: seq<Step>, a: ActorId)
    requires Run(Init(), steps)
    ensures EngineAccount(steps, a) >= 0
  {
    RunPaysEngine(Init(), steps, a);
  }

  // ---------------------------------------------------------------- delivery handlers

  /** Taking an entry opens the account of delivery handler `a`; closing its task, announcing its park, or finding a duplicate
    * closes it. */
  function HandlerEntry(step: Step, a: ActorId): (n: int) {
    if !step.OfDelivery? then 0
    else match step.delivery
      case Take(b, _) => if a == b then 1 else 0
      case PublishParked(b) => if a == b then -1 else 0
      case Close(b, _) => if a == b then -1 else 0
      case DuplicateOfCompleted(b) => if a == b then -1 else 0
      case _ => 0
  }

  function HandlerAccount(steps: seq<Step>, a: ActorId): (n: int) {
    if steps == [] then 0 else HandlerEntry(steps[0], a) + HandlerAccount(steps[1..], a)
  }

  function HandlerOwes(s: World, a: ActorId): (n: nat) {
    if a in s.handlers && !s.handlers[a].Finished? then 1 else 0
  }

  lemma DeliveryStepPays(s: World, step: DeliveryStep, a: ActorId)
    requires DeliveryEnabled(s, step)
    ensures HandlerOwes(DeliveryApply(s, step), a) <= HandlerOwes(s, a) + HandlerEntry(OfDelivery(step), a)
  {
  }

  lemma StepPaysHandler(s: World, step: Step, a: ActorId)
    requires Enabled(s, step)
    ensures HandlerOwes(Apply(s, step), a) <= HandlerOwes(s, a) + HandlerEntry(step, a)
  {
    hide EngineApply, DeliveryApply, ConsumerApply, PollApply, RebuildApply, EngineEnabled, DeliveryEnabled, PollEnabled, Survives,
         HandlerEntry;
    NoEntry(step, a);
    match step
    case OfEngine(x) => EngineLeaves(s, x);
    case OfDelivery(x) => DeliveryStepPays(s, x, a);
    case OfConsumer(x) => ConsumerLeaves(s, x);
    case OfPoll(x) => PollLeaves(s, x);
    case OfRebuild(x) => RebuildLeaves(s, x);
    case _ =>
  }

  lemma {:induction false} RunPaysHandler(s: World, steps: seq<Step>, a: ActorId)
    requires Run(s, steps)
    ensures HandlerOwes(After(s, steps), a) <= HandlerOwes(s, a) + HandlerAccount(steps, a)
    decreases |steps|
  {
    if steps != [] {
      hide Enabled, Apply, HandlerOwes, HandlerEntry;
      StepPaysHandler(s, steps[0], a);
      RunPaysHandler(Apply(s, steps[0]), steps[1..], a);
    }
  }

  /** In every run a delivery handler closes, announces or drops its task at most once for each time it takes an entry. */
  lemma HandlerActsOncePerTake(steps: seq<Step>, a: ActorId)
    requires Run(Init(), steps)
    ensures HandlerAccount(steps, a) >= 0
  {
    RunPaysHandler(Init(), steps, a);
  }

  // ---------------------------------------------------------------- polls

  /** Each claim lets poll `a` publish task `t` once, and delete rows once. */
  function PollEntry(step: Step, a: ActorId, t: TaskId): (n: int) {
    if !step.OfPoll? then 0
    else match step.poll
      case Claim(b, _) => if a == b then 1 else 0
      case PublishOne(b, u) => if a == b && t == u then -1 else 0
      case _ => 0
  }

  function PollAccount(steps: seq<Step>, a: ActorId, t: TaskId): (n: int) {
    if steps == [] then 0 else PollEntry(steps[0], a, t) + PollAccount(steps[1..], a, t)
  }

  function PollOwes(s: World, a: ActorId, t: TaskId): (n: nat) {
    if a in s.polls && (s.polls[a].Claimed? || (s.polls[a].Releasing? && t !in s.polls[a].published)) then 1 else 0
  }

  lemma PollStepPays(s: World, step: PollStep, a: ActorId, t: TaskId)
    requires PollEnabled(s, step)
    ensures PollOwes(PollApply(s, step), a, t) <= PollOwes(s, a, t) + PollEntry(OfPoll(step), a, t)
  {
    hide Deletes, ToPublish;
  }

  lemma PollsAreLeft(s: World, step: Step)
    requires Enabled(s, step) && !step.OfPoll?
    ensures Apply(s, step).polls == s.polls
  {
    hide EngineApply, DeliveryApply, ConsumerApply, RebuildApply, EngineEnabled, DeliveryEnabled, Survives;
    match step
    case OfEngine(x) => EngineLeaves(s, x);
    case OfDelivery(x) => DeliveryLeaves(s, x);
    case OfConsumer(x) => ConsumerLeaves(s, x);
    case OfRebuild(x) => RebuildLeaves(s, x);
    case _ =>
  }

  lemma {:induction false} RunPaysPoll(s: World, steps: seq<Step>, a: ActorId, t: TaskId)
    requires Run(s, steps)
    ensures PollOwes(After(s, steps), a, t) <= PollOwes(s, a, t) + PollAccount(steps, a, t)
    decreases |steps|
  {
    if steps != [] {
      if steps[0].OfPoll? {
        PollStepPays(s, steps[0].poll, a, t);
        hide PollApply, PollOwes;
        RunPaysPoll(Apply(s, steps[0]), steps[1..], a, t);
      } else {
        PollsAreLeft(s, steps[0]);
        hide Enabled, Apply;
        RunPaysPoll(Apply(s, steps[0]), steps[1..], a, t);
      }
    }
  }

  /** In every run a poll publishes a task at most once for each time it claims, however many members of it were due. */
  lemma PollPublishesOncePerClaim(steps: seq<Step>, a: ActorId, t: TaskId)
    requires Run(Init(), steps)
    ensures PollAccount(steps, a, t) >= 0
  {
    RunPaysPoll(Init(), steps, a, t);
  }

  // ---------------------------------------------------------------- dead letters

  /** A dead letter closes its task, written before the ack and whether or not that lands; an entry that is not acked stays. */
  lemma DeadLettersClose(s: World, step: Step)
    requires step.OfEngine? && step.engine.DeadLetterOrder? ==> step.engine.t in s.upstream
    requires step.OfConsumer? && step.consumer.DeadLetterScheduled? ==> step.consumer.ev in s.scheduled
    ensures step.OfEngine? && step.engine.DeadLetterOrder? ==>
              var t := step.engine.t;
              && Enabled(s, step) && Closed(Apply(s, step), t)
              && (t in Apply(s, step).known || t in s.gone)
              && Apply(s, step).upstream - {t} == s.upstream - {t}
              && (t in Apply(s, step).upstream <==> !step.engine.acked)
    ensures step.OfConsumer? && step.consumer.DeadLetterScheduled? ==>
              var ev := step.consumer.ev;
              && Enabled(s, step) && Closed(Apply(s, step), s.scheduled[ev].task)
              && Apply(s, step).scheduled - {ev} == s.scheduled - {ev}
              && (ev in Apply(s, step).scheduled <==> !step.consumer.acked)
  {
  }
}
