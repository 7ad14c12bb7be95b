/** The two-store protocol that carries a task between the outbound streams, Postgres and the scheduler's sorted sets
  * (src/services/delivery/main.ts, src/services/scheduler/main.ts, src/services/engine/schedule-or-dispatch.ts).
  *
  * Every external command is one step. Any number of delivery handlers, engine handlers, scheduler consumers, polls
  * and rebuilds take their steps in any order, may crash between any two of them, and may be started on an entry that
  * another handler is still working on or has already finished. Redis may lose its data at any moment but during a
  * rebuild. The poll lock is not relied on. */
module ReleaseProtocol {
  import opened Delivery

  type TaskId = nat
  type EntryId = nat
  type EventId = nat
  type ActorId = nat

  /** A send time. The stamp makes the send times of different parks different, which is what the conditional delete
    * of a poll relies on. */
  datatype SendTime = SendTime(ms: nat, stamp: nat)

  /** A `scheduled_payloads` row. */
  datatype Row = Row(task: Task, sendAt: SendTime)

  /** The trace id that distinguishes two sorted-set members of one task; a rebuilt member has none. */
  datatype Tag = Traced(n: nat) | Rebuilt

  datatype Member = Member(task: TaskId, tag: Tag)

  /** A `notification.scheduled` entry; `added` records that its ZADD has landed. */
  datatype Scheduled = Scheduled(task: TaskId, tag: nat, sendMs: nat, added: bool)

  /** What the engine will insert and publish for a task, fixed by the event it was enriched from. */
  datatype EngineOrder = EngineOrder(task: Task, sendAt: SendTime, tag: nat)

  /** A delivery handler between two of its external commands. */
  datatype Handler =
    | Working(entry: EntryId, task: Task)
    | RowWritten(entry: EntryId, task: Task, sendMs: nat)
    | Finished(entry: EntryId, task: Task)

  /** An engine handler between two of its external commands. */
  datatype Engine = Deciding(order: EngineOrder) | Inserted(order: EngineOrder) | Sent(order: EngineOrder)

  /** A scheduler poll between two of its external commands. `mark` is a proof device: every stamp and tag handed out
    * before the poll read Postgres is below it. */
  datatype Poll =
    | Claimed(members: set<Member>)
    | Releasing(members: set<Member>, rows: map<TaskId, Row>, blocked: set<TaskId>, published: set<TaskId>, mark: nat)
    | Cleaning(members: set<Member>, mark: nat)

  /** A rebuild: the pages done reach up to `cursor` (everything, once `exhausted`), `pending` waits for its ZADD. */
  datatype Rebuild = Rebuild(cursor: nat, exhausted: bool, pending: map<TaskId, nat>)

  datatype World = World(
    now: nat,
    // Postgres
    rows: map<TaskId, Row>,
    // Redis
    members: map<Member, nat>,
    scheduled: map<EventId, Scheduled>,
    outbound: map<EntryId, Task>,
    sentinel: bool,
    completed: set<TaskId>,
    upstream: map<TaskId, EngineOrder>,
    marked: set<TaskId>,
    // processes
    handlers: map<ActorId, Handler>,
    engines: map<ActorId, Engine>,
    polls: map<ActorId, Poll>,
    rebuilds: map<ActorId, Rebuild>,
    // history: every task that reached the engine; of those, the ones announced on some stream, which the protocol
    // answers for, and the ones that a wipe has made it unable to answer for
    origin: map<TaskId, Task>,
    known: set<TaskId>,
    gone: set<TaskId>,
    wipedAt: nat,
    settled: set<EntryId>,
    accepted: set<TaskId>,
    handedOver: set<TaskId>,
    failedPublished: set<TaskId>,
    deadLettered: set<TaskId>,
    blocked: set<TaskId>,
    earliest: map<TaskId, nat>,
    next: nat)

  // ---------------------------------------------------------------- steps

  datatype Closing = Accept | HandOver | PublishFailure | DeadLetter

  datatype EngineStep =
    | Arrive(order: Task, sendMs: nat)          // upstream of this protocol: a task reaches the engine
    | TakeOrder(a: ActorId, t: TaskId)
    | Dispatch(a: ActorId)
    | InsertRow(a: ActorId)
    | PublishScheduled(a: ActorId)
    | AckOrder(a: ActorId)
    | EngineCrash(a: ActorId)
    | MarkerExpires(t: TaskId)
    | AckDuplicate(t: TaskId)                   // redelivered while the engine's marker still stands
    | DeadLetterOrder(t: TaskId, acked: bool)   // after the last retry

  datatype DeliveryStep =
    | Take(a: ActorId, e: EntryId)
    | Abandon(a: ActorId)
    | ThrottlePark(a: ActorId, sendMs: nat)
    | RetryPark(a: ActorId, attempt: nat, sendMs: nat)
    | PublishParked(a: ActorId)
    | Close(a: ActorId, how: Closing)
    | DuplicateOfCompleted(a: ActorId)
    | MarkCompleted(a: ActorId)
    | ForgetCompleted(t: TaskId)
    | Ack(a: ActorId)

  datatype ConsumerStep =
    | AddMember(ev: EventId)
    | AckScheduled(ev: EventId)
    | DeadLetterScheduled(ev: EventId, acked: bool)

  datatype PollStep =
    | Claim(a: ActorId, due: set<Member>)
    | ReadRows(a: ActorId, blocked: set<TaskId>)
    | PublishOne(a: ActorId, t: TaskId)
    | DeleteRows(a: ActorId)
    | DeleteRowsFails(a: ActorId)
    | RemoveMember(a: ActorId, m: Member)
    | EndPoll(a: ActorId)

  datatype RebuildStep =
    | StartRebuild(a: ActorId)
    | ReadPage(a: ActorId, cursor: nat, exhausted: bool)
    | RestoreMember(a: ActorId, t: TaskId)
    | SetSentinel(a: ActorId)
    | EndRebuild(a: ActorId)

  datatype Step =
    | Tick(ms: nat)
    | OfEngine(engine: EngineStep)
    | OfDelivery(delivery: DeliveryStep)
    | OfConsumer(consumer: ConsumerStep)
    | OfPoll(poll: PollStep)
    | OfRebuild(rebuild: RebuildStep)
    | Wipe                                      // Redis loses its data

  /** From its first event, entry or dead letter on, a task is answered for, unless a wipe has put an end to that. */
  function Announce(s: World, ts: set<TaskId>): (known: set<TaskId>) {
    s.known + (ts - s.gone)
  }

  function Earlier(earliest: map<TaskId, nat>, t: TaskId, ms: nat): (e: map<TaskId, nat>) {
    earliest[t := if t in earliest && earliest[t] <= ms then earliest[t] else ms]
  }

  function TasksOf(members: set<Member>): (ts: set<TaskId>) {
    set m | m in members :: m.task
  }

  /** The tasks of a poll that are neither blocked nor without a row: what it must publish. */
  function ToPublish(p: Poll): (ts: set<TaskId>)
    requires p.Releasing?
  {
    (set t | t in p.rows.Keys && t in TasksOf(p.members)) - p.blocked
  }

  /** The tasks whose row this poll asks Postgres to delete, under the condition that the send time still matches. */
  predicate Deletes(p: Poll, t: TaskId, row: Row)
    requires p.Releasing?
  {
    t in p.rows && t in TasksOf(p.members) && (t in p.published || t in p.blocked) && row.sendAt == p.rows[t].sendAt
  }

  // scheduleOrDispatch

  predicate EngineEnabled(s: World, step: EngineStep) {
    match step
    case Arrive(task, ms) => task.id !in s.origin && ValidTask(task) &&
                             task.deliveryAttempts == 0 && task.throttleAttempts == 0
    case TakeOrder(a, t) => a !in s.engines && t in s.upstream && t !in s.marked
    case Dispatch(a) => a in s.engines && s.engines[a].Deciding?
    case InsertRow(a) => a in s.engines && s.engines[a].Deciding?
    case PublishScheduled(a) => a in s.engines && s.engines[a].Inserted?
    case AckOrder(a) => a in s.engines && s.engines[a].Sent?
    case EngineCrash(a) => a in s.engines
    case MarkerExpires(t) => true
    case AckDuplicate(t) => t in s.upstream && t in s.marked
    case DeadLetterOrder(t, _) => t in s.upstream
  }

  function EngineApply(s: World, step: EngineStep): (s': World)
    requires EngineEnabled(s, step)
  {
    match step
    case Arrive(task, ms) =>
      s.(upstream := s.upstream[task.id := EngineOrder(task, SendTime(ms, s.next), s.next)],
         origin := s.origin[task.id := task], next := s.next + 1)
    // checkAndMark
    case TakeOrder(a, t) => s.(engines := s.engines[a := Deciding(s.upstream[t])], marked := s.marked + {t})
    case Dispatch(a) =>
      var o := s.engines[a].order;
      s.(outbound := s.outbound[s.next := o.task], engines := s.engines[a := Sent(o)],
         known := Announce(s, {o.task.id}), next := s.next + 1)
    case InsertRow(a) =>
      var o := s.engines[a].order;
      s.(rows := if o.task.id in s.rows then s.rows else s.rows[o.task.id := Row(o.task, o.sendAt)],
         engines := s.engines[a := Inserted(o)],
         earliest := Earlier(s.earliest, o.task.id, o.sendAt.ms))
    case PublishScheduled(a) =>
      var o := s.engines[a].order;
      s.(scheduled := s.scheduled[s.next := Scheduled(o.task.id, o.tag, o.sendAt.ms, false)],
         engines := s.engines[a := Sent(o)], known := Announce(s, {o.task.id}), next := s.next + 1)
    case AckOrder(a) => s.(engines := s.engines - {a}, upstream := s.upstream - {s.engines[a].order.task.id})
    case EngineCrash(a) => s.(engines := s.engines - {a})
    case MarkerExpires(t) => s.(marked := s.marked - {t})
    case AckDuplicate(t) => s.(upstream := s.upstream - {t})
    // the dead letter is written first; without its ack the entry stays
    case DeadLetterOrder(t, acked) =>
      s.(deadLettered := s.deadLettered + {t}, known := Announce(s, {t}),
         upstream := if acked then s.upstream - {t} else s.upstream)
  }

  // DeliveryWorker.process

  predicate DeliveryEnabled(s: World, step: DeliveryStep) {
    match step
    case Take(a, e) => a !in s.handlers && e in s.outbound
    case Abandon(a) => a in s.handlers
    case ThrottlePark(a, ms) => a in s.handlers && s.handlers[a].Working? && CanDefer(s.handlers[a].task)
    case RetryPark(a, attempt, ms) =>
      a in s.handlers && s.handlers[a].Working? && HopAllowed(s.handlers[a].task, RetryHop(attempt))
    case PublishParked(a) => a in s.handlers && s.handlers[a].RowWritten?
    case Close(a, how) =>
      && a in s.handlers && s.handlers[a].Working?
      && (how.HandOver? ==> FallbackOr(s.handlers[a].task, LeftPending).HandedOver?)
      && (how.PublishFailure? ==> FallbackOr(s.handlers[a].task, LeftPending).LeftPending?)
    case DuplicateOfCompleted(a) => a in s.handlers && s.handlers[a].Working? && s.handlers[a].task.id in s.completed
    case MarkCompleted(a) => a in s.handlers && s.handlers[a].Finished? &&
                             s.handlers[a].task.id in s.accepted + s.handedOver
    case ForgetCompleted(t) => true
    case Ack(a) => a in s.handlers && s.handlers[a].Finished?
  }

  function WriteRow(s: World, a: ActorId, parked: Task, sendMs: nat): (s': World)
    requires a in s.handlers && s.handlers[a].Working?
  {
    s.(rows := s.rows[parked.id := Row(parked, SendTime(sendMs, s.next))],
       handlers := s.handlers[a := RowWritten(s.handlers[a].entry, parked, sendMs)],
       earliest := Earlier(s.earliest, parked.id, sendMs),
       next := s.next + 1)
  }

  function Finish(s: World, a: ActorId): (s': World)
    requires a in s.handlers
  {
    s.(handlers := s.handlers[a := Finished(s.handlers[a].entry, s.handlers[a].task)],
       settled := s.settled + {s.handlers[a].entry})
  }

  function CloseTask(s: World, t: TaskId, how: Closing): (s': World)
    ensures s' == s.(accepted := s'.accepted, handedOver := s'.handedOver, failedPublished := s'.failedPublished,
                     deadLettered := s'.deadLettered)
    ensures Closed(s', t) && forall u :: Closed(s', u) <==> Closed(s, u) || u == t
  {
    match how
    case Accept => s.(accepted := s.accepted + {t})
    case HandOver => s.(handedOver := s.handedOver + {t})
    case PublishFailure => s.(failedPublished := s.failedPublished + {t})
    case DeadLetter => s.(deadLettered := s.deadLettered + {t})
  }

  function DeliveryApply(s: World, step: DeliveryStep): (s': World)
    requires DeliveryEnabled(s, step)
  {
    match step
    case Take(a, e) => s.(handlers := s.handlers[a := Working(e, s.outbound[e])])
    case Abandon(a) => s.(handlers := s.handlers - {a})
    case ThrottlePark(a, ms) => WriteRow(s, a, ThrottleTask(s.handlers[a].task), ms)
    case RetryPark(a, attempt, ms) => WriteRow(s, a, RetryTask(s.handlers[a].task, attempt), ms)
    case PublishParked(a) =>
      var h := s.handlers[a];
      Finish(s.(scheduled := s.scheduled[s.next := Scheduled(h.task.id, s.next, h.sendMs, false)], next := s.next + 1), a)
    case Close(a, how) => Finish(CloseTask(s, s.handlers[a].task.id, how), a)
    case DuplicateOfCompleted(a) => Finish(s, a)
    case MarkCompleted(a) => s.(completed := s.completed + {s.handlers[a].task.id})
    case ForgetCompleted(t) => s.(completed := s.completed - {t})
    case Ack(a) => s.(outbound := s.outbound - {s.handlers[a].entry}, handlers := s.handlers - {a})
  }

  // SchedulerWorker.process

  predicate ConsumerEnabled(s: World, step: ConsumerStep) {
    match step
    case AddMember(ev) => ev in s.scheduled
    case AckScheduled(ev) => ev in s.scheduled && s.scheduled[ev].added
    case DeadLetterScheduled(ev, _) => ev in s.scheduled
  }

  function ConsumerApply(s: World, step: ConsumerStep): (s': World)
    requires ConsumerEnabled(s, step)
  {
    match step
    case AddMember(ev) =>
      var x := s.scheduled[ev];
      s.(members := s.members[Member(x.task, Traced(x.tag)) := x.sendMs], scheduled := s.scheduled[ev := x.(added := true)])
    case AckScheduled(ev) => s.(scheduled := s.scheduled - {ev})
    case DeadLetterScheduled(ev, acked) =>
      s.(deadLettered := s.deadLettered + {s.scheduled[ev].task},
         scheduled := if acked then s.scheduled - {ev} else s.scheduled)
  }

  // executeSchedulerPoll

  predicate PollEnabled(s: World, step: PollStep) {
    match step
    case Claim(a, due) => a !in s.polls && due <= s.members.Keys && forall m :: m in due ==> s.members[m] <= s.now
    case ReadRows(a, blocked) => a in s.polls && s.polls[a].Claimed? && blocked <= s.rows.Keys
    case PublishOne(a, t) => a in s.polls && s.polls[a].Releasing? && t in ToPublish(s.polls[a]) - s.polls[a].published
    case DeleteRows(a) =>
      a in s.polls && s.polls[a].Releasing? && ToPublish(s.polls[a]) <= s.polls[a].published
    case DeleteRowsFails(a) =>
      a in s.polls && s.polls[a].Releasing? && ToPublish(s.polls[a]) <= s.polls[a].published
    case RemoveMember(a, m) => a in s.polls && s.polls[a].Cleaning? && m in s.polls[a].members
    case EndPoll(a) => a in s.polls
  }

  function PollApply(s: World, step: PollStep): (s': World)
    requires PollEnabled(s, step)
  {
    match step
    case Claim(a, due) =>
      s.(members := map m | m in s.members :: if m in due then s.now + 60_000 else s.members[m],
         polls := s.polls[a := Claimed(due)])
    case ReadRows(a, blocked) =>
      var due := s.polls[a].members;
      var read := map t | t in s.rows && t in TasksOf(due) :: s.rows[t];
      s.(polls := s.polls[a := Releasing(due, read, blocked, {}, s.next)])
    case PublishOne(a, t) =>
      var p := s.polls[a];
      s.(outbound := s.outbound[s.next := p.rows[t].task],
         polls := s.polls[a := p.(published := p.published + {t})], known := Announce(s, {t}), next := s.next + 1)
    case DeleteRows(a) =>
      var p := s.polls[a];
      s.(rows := map t | t in s.rows && !Deletes(p, t, s.rows[t]) :: s.rows[t],
         blocked := s.blocked + (p.blocked * p.rows.Keys), known := Announce(s, p.blocked * p.rows.Keys),
         polls := s.polls[a := Cleaning(p.members, p.mark)])
    case DeleteRowsFails(a) =>
      var p := s.polls[a];
      s.(blocked := s.blocked + (p.blocked * p.rows.Keys), known := Announce(s, p.blocked * p.rows.Keys),
         polls := s.polls[a := Cleaning(p.members, p.mark)])
    case RemoveMember(a, m) => s.(members := s.members - {m})
    case EndPoll(a) => s.(polls := s.polls - {a})
  }

  // rebuildScheduledQueue

  predicate RebuildEnabled(s: World, step: RebuildStep) {
    match step
    case StartRebuild(a) => a !in s.rebuilds && !s.sentinel
    case ReadPage(a, cursor, exhausted) =>
      a in s.rebuilds && s.rebuilds[a].pending == map[] && !s.rebuilds[a].exhausted && s.rebuilds[a].cursor <= cursor
    case RestoreMember(a, t) => a in s.rebuilds && t in s.rebuilds[a].pending
    case SetSentinel(a) => a in s.rebuilds && s.rebuilds[a].pending == map[] && s.rebuilds[a].exhausted
    case EndRebuild(a) => a in s.rebuilds
  }

  /** A page of a rebuild: the rows from the old cursor up to the new one, or all that are left. */
  function PageOf(s: World, r: Rebuild, cursor: nat, exhausted: bool): (page: map<TaskId, nat>) {
    map t | t in s.rows && r.cursor <= t && (exhausted || t < cursor) :: s.rows[t].sendAt.ms
  }

  function RebuildApply(s: World, step: RebuildStep): (s': World)
    requires RebuildEnabled(s, step)
  {
    match step
    case StartRebuild(a) => s.(rebuilds := s.rebuilds[a := Rebuild(0, false, map[])])
    case ReadPage(a, cursor, exhausted) =>
      s.(rebuilds := s.rebuilds[a := Rebuild(cursor, exhausted, PageOf(s, s.rebuilds[a], cursor, exhausted))])
    case RestoreMember(a, t) =>
      var r := s.rebuilds[a];
      var m := Member(t, Rebuilt);
      s.(members := if m in s.members then s.members else s.members[m := r.pending[t]],
         rebuilds := s.rebuilds[a := r.(pending := r.pending - {t})])
    case SetSentinel(a) => s.(sentinel := true)
    case EndRebuild(a) => s.(rebuilds := s.rebuilds - {a})
  }

  // all of them

  /** A poll that the wipe catches at the wrong moment: it has published the version of the row that is there and will
    * delete it, or it is about to remove the very member that a rebuild will restore. */
  predicate Endangers(s: World, p: Poll, t: TaskId) {
    || (p.Releasing? && t in p.published && t in p.rows && t in s.rows && s.rows[t].sendAt == p.rows[t].sendAt)
    || (Member(t, Rebuilt) in p.members && (p.Cleaning? || (p.Releasing? && (t !in p.rows || t in p.published))))
  }

  predicate AtRisk(s: World, t: TaskId) {
    exists a :: a in s.polls && Endangers(s, s.polls[a], t)
  }

  /** What a wipe leaves to answer for: the closed tasks and the parked ones, short of those that a poll endangers. */
  predicate Survives(s: World, t: TaskId) {
    Closed(s, t) || (t in s.rows && !AtRisk(s, t))
  }

  function WipeRedis(s: World): (s': World) {
    var known := set t | t in s.origin && Survives(s, t);
    s.(members := map[], scheduled := map[], outbound := map[], sentinel := false, completed := {}, upstream := map[],
       marked := {}, known := known, gone := s.origin.Keys - known, wipedAt := s.next, next := s.next + 1)
  }

  predicate Enabled(s: World, step: Step) {
    match step
    case Tick(ms) => true
    case OfEngine(x) => EngineEnabled(s, x)
    case OfDelivery(x) => DeliveryEnabled(s, x)
    case OfConsumer(x) => ConsumerEnabled(s, x)
    case OfPoll(x) => PollEnabled(s, x)
    case OfRebuild(x) => RebuildEnabled(s, x)
    case Wipe => s.rebuilds == map[]
  }

  function Apply(s: World, step: Step): (s': World)
    requires Enabled(s, step)
  {
    match step
    case Tick(ms) => s.(now := s.now + ms)
    case OfEngine(x) => EngineApply(s, x)
    case OfDelivery(x) => DeliveryApply(s, x)
    case OfConsumer(x) => ConsumerApply(s, x)
    case OfPoll(x) => PollApply(s, x)
    case OfRebuild(x) => RebuildApply(s, x)
    case Wipe => WipeRedis(s)
  }

  // ---------------------------------------------------------------- what it means not to lose a task

  predicate Closed(s: World, t: TaskId) {
    t in s.accepted || t in s.handedOver || t in s.failedPublished || t in s.deadLettered || t in s.blocked
  }

  predicate PendingOnStream(s: World, t: TaskId) {
    exists e :: e in s.outbound && s.outbound[e].id == t
  }

  /** Something will bring the row of `t` before a poll: a sorted-set member or a `scheduled` event not yet added. */
  predicate Triggered(s: World, t: TaskId) {
    || (exists m :: m in s.members && m.task == t)
    || (exists ev :: ev in s.scheduled && s.scheduled[ev].task == t && !s.scheduled[ev].added)
  }

  predicate Parked(s: World, t: TaskId) {
    t in s.rows && (Triggered(s, t) || !s.sentinel)
  }

  predicate NotLost(s: World, t: TaskId) {
    PendingOnStream(s, t) || Parked(s, t) || Closed(s, t)
  }

  function Init(): (s: World) {
    World(0, map[], map[], map[], map[], false, {}, map[], {}, map[], map[], map[], map[], map[], {}, {}, 0,
          {}, {}, {}, {}, {}, {}, map[], 1)
  }

  predicate Run(s: World, steps: seq<Step>)
    decreases |steps|
  {
    steps == [] || (Enabled(s, steps[0]) && Run(Apply(s, steps[0]), steps[1..]))
  }

  function After(s: World, steps: seq<Step>): (s': World)
    requires Run(s, steps)
    decreases |steps|
  {
    if steps == [] then s else After(Apply(s, steps[0]), steps[1..])
  }
}
