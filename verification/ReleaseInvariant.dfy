/** The invariant of the release protocol survives every step, one step at a time. */
module ReleaseInvariant {
  import opened Delivery
  import opened ReleaseProtocol
  import opened ReleaseBacking

  // ---------------------------------------------------------------- the books stay in order

  lemma EngineStepConsistent(s: World, step: EngineStep)
    requires Consistent(s) && EnginesConsistent(s) && EngineEnabled(s, step)
    ensures Consistent(EngineApply(s, step))
  {
    hide EnginesConsistent, RowsOk, MembersOk, ScheduledOk, EntriesOk, UpstreamOk, HistoryOk, EngineApply;
    EngineRowsOk(s, step);
    EngineMembersOk(s, step);
    EngineStreamsOk(s, step);
    EngineOrdersOk(s, step);
    EngineHistoryOk(s, step);
  }

  lemma EngineRowsOk(s: World, step: EngineStep)
    requires RowsOk(s) && EnginesConsistent(s) && EngineEnabled(s, step)
    ensures RowsOk(EngineApply(s, step))
  {
  }

  lemma EngineMembersOk(s: World, step: EngineStep)
    requires MembersOk(s) && EngineEnabled(s, step)
    ensures MembersOk(EngineApply(s, step))
  {
  }

  lemma EngineStreamsOk(s: World, step: EngineStep)
    requires ScheduledOk(s) && EntriesOk(s) && EnginesConsistent(s) && EngineEnabled(s, step)
    ensures ScheduledOk(EngineApply(s, step)) && EntriesOk(EngineApply(s, step))
  {
  }

  lemma EngineOrdersOk(s: World, step: EngineStep)
    requires UpstreamOk(s) && HistoryOk(s) && EngineEnabled(s, step)
    ensures UpstreamOk(EngineApply(s, step))
  {
  }

  lemma EngineHistoryOk(s: World, step: EngineStep)
    requires HistoryOk(s) && UpstreamOk(s) && EnginesConsistent(s) && EngineEnabled(s, step)
    ensures HistoryOk(EngineApply(s, step))
  {
  }

  lemma WriteRowConsistent(s: World, a: ActorId, parked: Task, sendMs: nat)
    requires Consistent(s) && HandlersConsistent(s) && a in s.handlers && s.handlers[a].Working?
    requires parked.id == s.handlers[a].task.id
    ensures var s' := WriteRow(s, a, parked, sendMs); Consistent(s') && HandlersConsistent(s')
  {
  }

  lemma FinishConsistent(s: World, a: ActorId)
    requires Consistent(s) && HandlersConsistent(s) && a in s.handlers
    ensures var s' := Finish(s, a); Consistent(s') && HandlersConsistent(s')
  {
  }

  lemma AnnounceConsistent(s: World, t: TaskId, sendMs: nat)
    requires Consistent(s) && HandlersConsistent(s) && Announced(s, t)
    ensures var s' := s.(scheduled := s.scheduled[s.next := Scheduled(t, s.next, sendMs, false)], next := s.next + 1);
            Consistent(s') && HandlersConsistent(s')
  {
  }

  lemma PublishParkedConsistent(s: World, a: ActorId)
    requires Consistent(s) && HandlersConsistent(s) && DeliveryEnabled(s, PublishParked(a))
    ensures var s' := DeliveryApply(s, PublishParked(a)); Consistent(s') && HandlersConsistent(s')
  {
    hide Consistent;
    var h := s.handlers[a];
    AnnounceConsistent(s, h.task.id, h.sendMs);
    FinishConsistent(s.(scheduled := s.scheduled[s.next := Scheduled(h.task.id, s.next, h.sendMs, false)],
                        next := s.next + 1), a);
  }

  lemma CloseConsistent(s: World, a: ActorId, how: Closing)
    requires Consistent(s) && HandlersConsistent(s) && DeliveryEnabled(s, Close(a, how))
    ensures var s' := DeliveryApply(s, Close(a, how)); Consistent(s') && HandlersConsistent(s')
  {
    var mid := CloseTask(s, s.handlers[a].task.id, how);
    assert Consistent(mid) && HandlersConsistent(mid);
    hide Consistent, HandlersConsistent;
    FinishConsistent(mid, a);
  }

  predicate IsQuiet(step: DeliveryStep) {
    step.Take? || step.Abandon? || step.MarkCompleted? || step.ForgetCompleted? || step.Ack?
  }

  lemma QuietDeliveryStepConsistent(s: World, step: DeliveryStep)
    requires Consistent(s) && HandlersConsistent(s) && DeliveryEnabled(s, step) && IsQuiet(step)
    ensures Consistent(DeliveryApply(s, step)) && HandlersConsistent(DeliveryApply(s, step))
  {
    hide HandlersConsistent, DeliveryApply, RowsOk, MembersOk, ScheduledOk, UpstreamOk, HistoryOk;
    QuietDeliveryStores(s, step);
    QuietDeliveryHandlers(s, step);
  }

  lemma QuietDeliveryHandlers(s: World, step: DeliveryStep)
    requires EntriesOk(s) && HandlersConsistent(s) && DeliveryEnabled(s, step) && IsQuiet(step)
    ensures HandlersConsistent(DeliveryApply(s, step))
  {
  }

  lemma QuietDeliveryStores(s: World, step: DeliveryStep)
    requires Consistent(s) && DeliveryEnabled(s, step) && IsQuiet(step)
    ensures Consistent(DeliveryApply(s, step))
  {
  }

  lemma DeliveryStepConsistent(s: World, step: DeliveryStep)
    requires Consistent(s) && HandlersConsistent(s) && DeliveryEnabled(s, step)
    ensures Consistent(DeliveryApply(s, step)) && HandlersConsistent(DeliveryApply(s, step))
  {
    hide Consistent, HandlersConsistent;
    match step
    case ThrottlePark(a, ms) => WriteRowConsistent(s, a, ThrottleTask(s.handlers[a].task), ms);
    case RetryPark(a, attempt, ms) => WriteRowConsistent(s, a, RetryTask(s.handlers[a].task, attempt), ms);
    case PublishParked(a) => PublishParkedConsistent(s, a);
    case Close(a, how) => CloseConsistent(s, a, how);
    case DuplicateOfCompleted(a) => FinishConsistent(s, a);
    case _ => QuietDeliveryStepConsistent(s, step);
  }

  lemma ConsumerStepConsistent(s: World, step: ConsumerStep)
    requires Consistent(s) && ConsumerEnabled(s, step)
    ensures Consistent(ConsumerApply(s, step))
  {
  }

  lemma PublishOneConsistent(s: World, a: ActorId, t: TaskId)
    requires Consistent(s) && PollsConsistent(s) && PollEnabled(s, PublishOne(a, t))
    ensures Consistent(PollApply(s, PublishOne(a, t)))
  {
    var p := s.polls[a];
    assert PollConsistent(s, p);
    hide PollsConsistent, PollConsistent;
    assert p.rows[t].task.id == t && t in s.origin;
    PublishKeepsBooks(s, a, t);
    hide MembersOk, ScheduledOk, UpstreamOk;
  }

  lemma PublishKeepsBooks(s: World, a: ActorId, t: TaskId)
    requires Consistent(s) && PollEnabled(s, PublishOne(a, t))
    ensures var s' := PollApply(s, PublishOne(a, t)); MembersOk(s') && ScheduledOk(s') && UpstreamOk(s')
  {
    hide RowsOk, EntriesOk, HistoryOk;
  }

  /** A row that is deleted belongs to a task that has been announced. */
  lemma DeletedIsAnnounced(s: World, a: ActorId, t: TaskId)
    requires HistoryOk(s) && RowsOk(s) && PollsConsistent(s) && PollEnabled(s, DeleteRows(a)) && t in s.rows
    ensures var s' := PollApply(s, DeleteRows(a)); t in s'.rows || Announced(s', t)
  {
    assert PollConsistent(s, s.polls[a]);
  }

  lemma DeleteRowsConsistent(s: World, a: ActorId)
    requires Consistent(s) && PollsConsistent(s) && PollEnabled(s, DeleteRows(a))
    ensures Consistent(PollApply(s, DeleteRows(a)))
  {
    var s' := PollApply(s, DeleteRows(a));
    forall t | t in s.rows
      ensures t in s'.rows || Announced(s', t)
    {
      DeletedIsAnnounced(s, a, t);
    }
    PollHistoryOk(s, DeleteRows(a));
    PollBooksOk(s, DeleteRows(a));
    hide PollsConsistent, HistoryOk, Deletes, RowsOk, ScheduledOk, EntriesOk, UpstreamOk;
  }

  lemma PollBooksOk(s: World, step: PollStep)
    requires Consistent(s) && PollEnabled(s, step) && !step.PublishOne?
    ensures var s' := PollApply(s, step); RowsOk(s') && ScheduledOk(s') && EntriesOk(s') && UpstreamOk(s')
  {
    hide MembersOk, HistoryOk;
    PollStreamsOk(s, step);
    hide ScheduledOk, EntriesOk;
  }

  lemma PollStreamsOk(s: World, step: PollStep)
    requires ScheduledOk(s) && EntriesOk(s) && PollEnabled(s, step) && !step.PublishOne?
    ensures ScheduledOk(PollApply(s, step)) && EntriesOk(PollApply(s, step))
  {
  }

  lemma PollHistoryOk(s: World, step: PollStep)
    requires HistoryOk(s) && PollsConsistent(s) && PollEnabled(s, step) && !step.PublishOne?
    ensures HistoryOk(PollApply(s, step))
  {
    if step.DeleteRows? || step.DeleteRowsFails? {
      assert PollConsistent(s, s.polls[step.a]);
    }
    hide PollsConsistent, HeldBefore, Kept, Released;
  }

  lemma PollStepConsistent(s: World, step: PollStep)
    requires Consistent(s) && PollsConsistent(s) && PollEnabled(s, step)
    ensures Consistent(PollApply(s, step))
  {
    hide PollsConsistent, Consistent;
    if step.PublishOne? {
      PublishOneConsistent(s, step.a, step.t);
    } else if step.DeleteRows? {
      DeleteRowsConsistent(s, step.a);
    } else {
      QuietPollConsistent(s, step);
    }
  }

  lemma QuietPollConsistent(s: World, step: PollStep)
    requires Consistent(s) && PollsConsistent(s) && PollEnabled(s, step) && !step.PublishOne? && !step.DeleteRows?
    ensures Consistent(PollApply(s, step))
  {
    PollHistoryOk(s, step);
    PollBooksOk(s, step);
    hide PollsConsistent, HistoryOk, RowsOk, ScheduledOk, EntriesOk, UpstreamOk;
  }

  lemma RestoreMemberConsistent(s: World, a: ActorId, t: TaskId)
    requires Consistent(s) && RebuildsConsistent(s) && RebuildEnabled(s, RestoreMember(a, t))
    ensures Consistent(RebuildApply(s, RestoreMember(a, t)))
  {
    assert RebuildConsistent(s, s.rebuilds[a]);
    hide RebuildsConsistent, RebuildConsistent;
  }

  lemma RebuildStepConsistent(s: World, step: RebuildStep)
    requires Consistent(s) && RebuildsConsistent(s) && RebuildEnabled(s, step)
    ensures Consistent(RebuildApply(s, step))
  {
    hide RebuildsConsistent;
    if step.RestoreMember? {
      RestoreMemberConsistent(s, step.a, step.t);
    }
  }

  /** Handlers are only affected by their own steps: for everyone else, entries and tasks only grow. */
  lemma HandlersKept(s: World, step: Step)
    requires EntriesOk(s) && HandlersConsistent(s) && Enabled(s, step) && !step.Wipe? && !step.OfDelivery?
    ensures HandlersConsistent(Apply(s, step))
  {
    hide EngineApply, ConsumerApply, PollApply, RebuildApply, DeliveryApply, EntriesOk;
    match step
    case Tick(ms) =>
    case OfEngine(x) => EngineKeepsHandlers(s, x);
    case OfConsumer(x) => ConsumerKeepsHandlers(s, x);
    case OfPoll(x) => PollKeepsHandlers(s, x);
    case OfRebuild(x) => RebuildKeepsHandlers(s, x);
  }

  lemma ConsumerKeepsHandlers(s: World, step: ConsumerStep)
    requires HandlersConsistent(s) && ConsumerEnabled(s, step)
    ensures HandlersConsistent(ConsumerApply(s, step))
  {
  }

  lemma RebuildKeepsHandlers(s: World, step: RebuildStep)
    requires HandlersConsistent(s) && RebuildEnabled(s, step)
    ensures HandlersConsistent(RebuildApply(s, step))
  {
  }

  lemma EngineKeepsHandlers(s: World, step: EngineStep)
    requires EntriesOk(s) && HandlersConsistent(s) && EngineEnabled(s, step)
    ensures HandlersConsistent(EngineApply(s, step))
  {
  }

  lemma PollKeepsHandlers(s: World, step: PollStep)
    requires EntriesOk(s) && HandlersConsistent(s) && PollEnabled(s, step)
    ensures HandlersConsistent(PollApply(s, step))
  {
  }

  lemma TickConsistent(s: World, ms: nat)
    requires Consistent(s)
    ensures Consistent(s.(now := s.now + ms))
  {
  }

  lemma StepConsistent(s: World, step: Step)
    requires Inv(s) && Enabled(s, step) && !step.Wipe?
    ensures Consistent(Apply(s, step)) && HandlersConsistent(Apply(s, step))
  {
    hide HandlersConsistent, EnginesConsistent, PollsConsistent, RebuildsConsistent, TasksSafe, RowsOk, MembersOk, ScheduledOk,
         UpstreamOk, HistoryOk;
    if !step.OfDelivery? {
      HandlersKept(s, step);
    }
    hide EntriesOk;
    match step
    case Tick(ms) => TickConsistent(s, ms);
    case OfEngine(x) => EngineStepConsistent(s, x);
    case OfDelivery(x) => DeliveryStepConsistent(s, x);
    case OfConsumer(x) => ConsumerStepConsistent(s, x);
    case OfPoll(x) => PollStepConsistent(s, x);
    case OfRebuild(x) => RebuildStepConsistent(s, x);
  }

  // ---------------------------------------------------------------- engines

  lemma EngineOrdersKept(s: World, step: EngineStep)
    requires Consistent(s) && EnginesConsistent(s) && EngineEnabled(s, step)
    ensures var s' := EngineApply(s, step);
            forall a :: a in s'.engines ==>
              && GoodOrder(s', s'.engines[a].order)
              && (s'.engines[a].Sent? ==> Announced(s', s'.engines[a].order.task.id))
  {
    hide RowsOk, MembersOk, ScheduledOk, EntriesOk;
  }

  /** A task is handled or has a row, and stays so. */
  lemma StepKeepsHeld(s: World, step: Step, t: TaskId)
    requires Inv(s) && Enabled(s, step) && !step.Wipe? && t !in s.gone && (t in s.rows || Handled(s, t))
    ensures t in Apply(s, step).rows || Handled(Apply(s, step), t)
  {
    hide PollsConsistent, EnginesConsistent, HandlersConsistent, RebuildsConsistent, TasksSafe, Consistent, Apply, Handled;
    if t in s.rows {
      StepKeepsRow(s, step, t);
    } else {
      StepKeepsHandled(s, step, t);
    }
  }

  lemma EngineHolds(s: World, step: EngineStep, a: ActorId)
    requires EngineEnabled(s, step) && a in EngineApply(s, step).engines && EngineApply(s, step).engines[a].Inserted?
    ensures var s' := EngineApply(s, step);
      (a in s.engines && s.engines[a] == s'.engines[a]) || s'.engines[a].order.task.id in s'.rows
  {
  }

  /** What an engine handler has inserted is there, or has been taken further, until it publishes it. */
  lemma EnginesKept(s: World, step: Step)
    requires Inv(s) && Enabled(s, step) && !step.Wipe?
    ensures EnginesConsistent(Apply(s, step))
  {
    StepFrame(s, step);
    var s' := Apply(s, step);
    hide RowsOk, MembersOk, ScheduledOk, EntriesOk, UpstreamOk, HandlersConsistent, PollsConsistent, RebuildsConsistent, TasksSafe;
    if step.OfEngine? {
      EngineOrdersKept(s, step.engine);
    }
    hide Apply, Enabled, Handled;
    forall a | a in s'.engines && s'.engines[a].Inserted?
      ensures s'.engines[a].order.task.id in s'.gone || s'.engines[a].order.task.id in s'.rows
              || Handled(s', s'.engines[a].order.task.id)
    {
      InsertedIsHeld(s, step, a);
    }
  }

  lemma InsertedIsHeld(s: World, step: Step, a: ActorId)
    requires Inv(s) && Enabled(s, step) && !step.Wipe? && a in Apply(s, step).engines && Apply(s, step).engines[a].Inserted?
    ensures var s' := Apply(s, step); var t := s'.engines[a].order.task.id;
      t in s'.gone || t in s'.rows || Handled(s', t)
  {
    StepFrame(s, step);
    if step.OfEngine? {
      EngineHolds(s, step.engine, a);
    }
    hide Apply, Enabled, Handled, Consistent, HandlersConsistent, PollsConsistent, RebuildsConsistent, TasksSafe;
    if a in s.engines && s.engines[a] == Apply(s, step).engines[a] && s.engines[a].order.task.id !in s.gone {
      StepKeepsHeld(s, step, s.engines[a].order.task.id);
    }
  }

  // ---------------------------------------------------------------- polls

  lemma OtherPollsKept(s: World, step: PollStep, a: ActorId)
    requires PollEnabled(s, step) && a != step.a && a in PollApply(s, step).polls
    ensures a in s.polls && s.polls[a] == PollApply(s, step).polls[a]
  {
  }

  lemma PollRowsShrink(s: World, step: PollStep, t: TaskId)
    requires PollEnabled(s, step) && t in PollApply(s, step).rows
    ensures t in s.rows && PollApply(s, step).rows[t] == s.rows[t]
  {
  }

  lemma EngineKeepsRow(s: World, step: EngineStep, t: TaskId)
    requires EngineEnabled(s, step) && t in s.rows
    ensures t in EngineApply(s, step).rows && EngineApply(s, step).rows[t] == s.rows[t]
  {
  }

  lemma DeliveryRowChanges(s: World, step: DeliveryStep, t: TaskId)
    requires DeliveryEnabled(s, step) && t in s.rows
    ensures var rows := DeliveryApply(s, step).rows; t in rows && (rows[t] == s.rows[t] || rows[t].sendAt.stamp == s.next)
  {
  }

  /** Only a park overwrites a row, and with a new send time. */
  lemma RowChanges(s: World, step: Step, t: TaskId)
    requires Enabled(s, step) && !step.Wipe? && t in s.rows && t in Apply(s, step).rows
    ensures Apply(s, step).rows[t] == s.rows[t] || Apply(s, step).rows[t].sendAt.stamp == s.next
  {
    StepFrame(s, step);
    hide PollApply, EngineApply, DeliveryApply, RebuildApply, ConsumerApply;
    if step.OfPoll? {
      PollRowsShrink(s, step.poll, t);
    } else if step.OfEngine? {
      EngineKeepsRow(s, step.engine, t);
    } else if step.OfDelivery? {
      DeliveryRowChanges(s, step.delivery, t);
    }
  }

  lemma AbsentIsHandled(s: World, t: TaskId)
    requires Inv(s) && Announced(s, t) && t !in s.gone && t !in s.rows
    ensures Handled(s, t)
  {
    assert Kept(s, t, s.wipedAt);
  }

  lemma StepKeepsReleased(s: World, step: Step, p: Poll, t: TaskId)
    requires Inv(s) && Enabled(s, step) && !step.Wipe? && PollConsistent(s, p)
    requires p.Releasing? && t in p.published && t !in s.gone
    ensures Released(Apply(s, step), p.rows, t)
  {
    var s' := Apply(s, step);
    assert Released(s, p.rows, t) && p.rows[t].sendAt.stamp < s.next && Announced(s, t);
    if t !in s.rows {
      AbsentIsHandled(s, t);
    }
    hide Inv, PollConsistent, PollsConsistent, RebuildsConsistent, TasksSafe, Apply, Enabled, Handled;
    BooksOf(s);
    if Handled(s, t) {
      StepKeepsHandled(s, step, t);
    } else {
      StepKeepsRow(s, step, t);
      if t in s'.rows {
        RowChanges(s, step, t);
      }
    }
  }

  lemma BooksOf(s: World)
    requires Inv(s)
    ensures Consistent(s) && HandlersConsistent(s) && PollsConsistent(s)
  {
  }

  lemma HeldBeforeStays(s: World, step: Step, members: set<Member>, mark: nat)
    requires Inv(s) && Enabled(s, step) && !step.Wipe? && HeldBefore(s, members, mark)
    ensures HeldBefore(Apply(s, step), members, mark)
  {
    hide RowsOk, MembersOk, ScheduledOk, EntriesOk, UpstreamOk, HandlersConsistent, EnginesConsistent, RebuildsConsistent, TasksSafe;
    StepFrame(s, step);
    forall m | m in members
      ensures Announced(Apply(s, step), m.task) || m.task in Apply(s, step).rows
    {
      if !Announced(s, m.task) {
        AnnouncedOrStored(s, step, m.task);
      }
    }
  }

  lemma AnnouncedOrStored(s: World, step: Step, t: TaskId)
    requires Inv(s) && Enabled(s, step) && !step.Wipe? && (Announced(s, t) || t in s.rows)
    ensures Announced(Apply(s, step), t) || t in Apply(s, step).rows
  {
    hide MembersOk, ScheduledOk, EntriesOk, UpstreamOk, HandlersConsistent, EnginesConsistent, RebuildsConsistent, TasksSafe;
    StepFrame(s, step);
    if t in s.rows && step.OfPoll? {
      if step.poll.DeleteRows? {
        DeletedIsAnnounced(s, step.poll.a, t);
      } else {
        PollRows(s, step.poll);
      }
    }
  }

  lemma HistoryOf(s: World)
    requires Inv(s)
    ensures HistoryOk(s)
  {
  }

  lemma MarkIsPast(s: World, members: set<Member>, mark: nat, t: TaskId)
    requires HistoryOk(s) && HeldBefore(s, members, mark)
    ensures Mark(s, members, mark, t) <= s.next
  {
  }

  lemma HeldIsKept(s: World, step: Step, members: set<Member>, mark: nat, t: TaskId)
    requires Inv(s) && Enabled(s, step) && !step.Wipe? && HeldBefore(s, members, mark) && Kept(s, t, Mark(s, members, mark, t))
    ensures var s' := Apply(s, step); Kept(s', t, Mark(s', members, mark, t))
  {
    hide Apply, Enabled, Inv, Kept, HeldBefore, HistoryOk;
    StepFrame(s, step);
    HistoryOf(s);
    MarkIsPast(s, members, mark, t);
    StepKeepsKept(s, step, t, Mark(s, members, mark, t));
  }

  lemma ClaimedStays(s: World, step: Step, members: set<Member>)
    requires Inv(s) && Enabled(s, step) && !step.Wipe? && HeldBefore(s, members, s.next)
    ensures HeldBefore(Apply(s, step), members, Apply(s, step).next)
  {
    StepFrame(s, step);
    HeldBeforeStays(s, step, members, s.next);
    LaterMark(Apply(s, step), members, s.next);
  }

  lemma LaterMark(s: World, members: set<Member>, mark: nat)
    requires HeldBefore(s, members, mark)
    ensures HeldBefore(s, members, s.next)
  {
  }

  lemma ReleasingStays(s: World, step: Step, p: Poll)
    requires Inv(s) && Enabled(s, step) && !step.Wipe? && PollConsistent(s, p) && p.Releasing?
    ensures PollConsistent(Apply(s, step), p)
  {
    StepFrame(s, step);
    var s' := Apply(s, step);
    HeldBeforeStays(s, step, p.members, p.mark);
    assert s'.gone == s.gone && s.origin.Keys <= s'.origin.Keys && s.known <= s'.known;
    hide Apply, Enabled, Inv, Kept, HeldBefore, Mark, Framed;
    forall t | t in p.published && t !in s.gone ensures Released(s', p.rows, t) {
      StepKeepsReleased(s, step, p, t);
    }
    hide Released;
    forall t | t in TasksOf(p.members) && t !in s.gone && (t !in p.rows || t in p.published)
      ensures Kept(s', t, Mark(s', p.members, p.mark, t))
    {
      HeldIsKept(s, step, p.members, p.mark, t);
    }
  }

  lemma PollUndisturbed(s: World, step: Step, p: Poll)
    requires Inv(s) && Enabled(s, step) && !step.Wipe? && PollConsistent(s, p)
    ensures PollConsistent(Apply(s, step), p)
  {
    StepFrame(s, step);
    hide Apply, Enabled, Inv, Kept, Released, HeldBefore, Mark;
    match p
    case Claimed(members) => ClaimedStays(s, step, members);
    case Releasing(_, _, _, _, _) => ReleasingStays(s, step, p);
    case Cleaning(members, mark) =>
      HeldBeforeStays(s, step, members, mark);
      forall t | t in TasksOf(members) && t !in s.gone
        ensures Kept(Apply(s, step), t, Mark(Apply(s, step), members, mark, t))
      {
        HeldIsKept(s, step, members, mark, t);
      }
  }

  lemma ReadRowsMoves(s: World, a: ActorId, blocked: set<TaskId>)
    requires Inv(s) && PollEnabled(s, ReadRows(a, blocked))
    ensures PollConsistent(PollApply(s, ReadRows(a, blocked)), PollApply(s, ReadRows(a, blocked)).polls[a])
  {
    var s' := PollApply(s, ReadRows(a, blocked));
    assert PollConsistent(s, s.polls[a]);
    forall t | t in TasksOf(s.polls[a].members) && t !in s'.polls[a].rows && t !in s.gone
      ensures Kept(s', t, Mark(s', s.polls[a].members, s.next, t))
    {
      var m :| m in s.polls[a].members && m.task == t;
      AbsentIsHandled(s, t);
      PollKeepsHandled(s, ReadRows(a, blocked), t);
    }
    hide HandlersConsistent, EnginesConsistent, PollsConsistent, RebuildsConsistent, TasksSafe, Handled, Kept;
  }

  lemma PublishOneMoves(s: World, a: ActorId, u: TaskId)
    requires Inv(s) && PollEnabled(s, PublishOne(a, u))
    ensures PollConsistent(PollApply(s, PublishOne(a, u)), PollApply(s, PublishOne(a, u)).polls[a])
  {
    var s' := PollApply(s, PublishOne(a, u));
    var p := s.polls[a];
    assert PollConsistent(s, p);
    PublishedIsLive(s, a, u);
    PollUndisturbed(s, OfPoll(PublishOne(a, u)), p);
    assert s'.polls[a] == p.(published := p.published + {u});
    hide Inv, PollApply, PollEnabled, Handled, HeldBefore, Released;
    ReleasedIfHandled(s', p.rows, u);
    KeptIfHandled(s', u, Mark(s', p.members, p.mark, u));
    assert u in ToPublish(p);
  }

  lemma PublishedIsLive(s: World, a: ActorId, u: TaskId)
    requires Inv(s) && PollEnabled(s, PublishOne(a, u)) && PollConsistent(s, s.polls[a])
    ensures var s' := PollApply(s, PublishOne(a, u)); Handled(s', u) && Announced(s', u)
  {
    hide EnginesConsistent, PollsConsistent, RebuildsConsistent, TasksSafe, HeldBefore, Kept, Released;
    assert s.polls[a].rows[u].task.id == u;
    assert IsLive(PollApply(s, PublishOne(a, u)), s.next, u);
  }

  lemma ReleasedIfHandled(s: World, rows: map<TaskId, Row>, t: TaskId)
    requires Handled(s, t) && t in rows
    ensures Released(s, rows, t)
  {
  }

  lemma KeptIfHandled(s: World, t: TaskId, mark: nat)
    requires Handled(s, t)
    ensures t in s.known ==> Kept(s, t, mark)
  {
  }

  lemma UnpublishedIsBlocked(p: Poll, t: TaskId)
    requires p.Releasing? && ToPublish(p) <= p.published && t in TasksOf(p.members) && t in p.rows && t !in p.published
    ensures t in p.blocked
  {
    assert t !in ToPublish(p);
  }

  lemma CleaningStarts(s: World, step: PollStep)
    requires Inv(s) && PollEnabled(s, step) && (step.DeleteRows? || step.DeleteRowsFails?)
    ensures PollConsistent(PollApply(s, step), PollApply(s, step).polls[step.a])
  {
    var s' := PollApply(s, step);
    var p := s.polls[step.a];
    assert PollConsistent(s, p);
    PollUndisturbed(s, OfPoll(step), p);
    assert s'.polls[step.a] == Cleaning(p.members, p.mark) && s'.gone == s.gone;
    forall t | t in TasksOf(p.members) && t !in s'.gone
      ensures Kept(s', t, Mark(s', p.members, p.mark, t))
    {
      if t in p.rows && t !in p.published {
        UnpublishedIsBlocked(p, t);
        assert Closed(s', t) && t in s'.known;
      }
    }
  }

  lemma PollMoves(s: World, step: PollStep, a: ActorId)
    requires Inv(s) && PollEnabled(s, step) && a == step.a && a in PollApply(s, step).polls
    ensures PollConsistent(PollApply(s, step), PollApply(s, step).polls[a])
  {
    hide HandlersConsistent, EnginesConsistent, RebuildsConsistent, TasksSafe;
    match step
    case Claim(_, due) =>
    case RemoveMember(_, m) => PollUndisturbed(s, OfPoll(step), s.polls[a]);
    case ReadRows(_, blocked) => ReadRowsMoves(s, a, blocked);
    case PublishOne(_, u) => PublishOneMoves(s, a, u);
    case DeleteRows(_) => CleaningStarts(s, step);
    case DeleteRowsFails(_) => CleaningStarts(s, step);
  }

  lemma PollKept(s: World, step: Step, a: ActorId)
    requires Inv(s) && Enabled(s, step) && !step.Wipe? && a in Apply(s, step).polls
    ensures PollConsistent(Apply(s, step), Apply(s, step).polls[a])
  {
    StepFrame(s, step);
    hide Consistent, HandlersConsistent, EnginesConsistent, RebuildsConsistent, TasksSafe, PollConsistent;
    if step.OfPoll? && a == step.poll.a {
      PollMoves(s, step.poll, a);
    } else {
      if step.OfPoll? {
        OtherPollsKept(s, step.poll, a);
      }
      PollUndisturbed(s, step, s.polls[a]);
    }
  }

  /** What a poll holds stays kept, whoever takes the step. */
  lemma PollsKept(s: World, step: Step)
    requires Inv(s) && Enabled(s, step) && !step.Wipe?
    ensures PollsConsistent(Apply(s, step))
  {
    hide Inv, Apply, Enabled, PollConsistent;
    forall a | a in Apply(s, step).polls ensures PollConsistent(Apply(s, step), Apply(s, step).polls[a]) {
      PollKept(s, step, a);
    }
  }

  // ---------------------------------------------------------------- rebuilds

  lemma OtherRebuildsKept(s: World, step: RebuildStep, a: ActorId)
    requires RebuildEnabled(s, step) && a != step.a && a in RebuildApply(s, step).rebuilds
    ensures a in s.rebuilds && s.rebuilds[a] == RebuildApply(s, step).rebuilds[a]
  {
  }

  /** A task answered for after a step already was, or has just been handled, or has an event from after the wipe. */
  lemma NewlyKnownIsBacked(s: World, step: Step, t: TaskId)
    requires Inv(s) && Enabled(s, step) && !step.Wipe? && t in Apply(s, step).known && t !in s.known
    ensures Backed(Apply(s, step), t, s.wipedAt)
  {
    StepFrame(s, step);
    if step.OfEngine? {
      EngineAnnounces(s, step.engine, t);
    } else {
      PollAnnounces(s, step.poll, t);
    }
  }

  lemma EngineAnnounces(s: World, step: EngineStep, t: TaskId)
    requires Inv(s) && EngineEnabled(s, step) && t in EngineApply(s, step).known && t !in s.known
    ensures Backed(EngineApply(s, step), t, s.wipedAt)
  {
    hide PollsConsistent, RebuildsConsistent, TasksSafe, RowsOk, MembersOk, ScheduledOk, UpstreamOk;
    var s' := EngineApply(s, step);
    if step.DeadLetterOrder? {
      assert Closed(s', t);
    } else if step.Dispatch? {
      assert t == s.engines[step.a].order.task.id && t !in s.gone;
      assert IsLive(s', s.next, t);
    } else {
      assert t == s.engines[step.a].order.task.id && t !in s.gone;
      assert EventFrom(s', s.next, t, s.wipedAt);
      if Handled(s, t) {
        EngineStepAdds(s, step, t);
        AddingKeepsHandled(s, s', t);
      }
    }
  }

  lemma PollAnnounces(s: World, step: PollStep, t: TaskId)
    requires Inv(s) && PollEnabled(s, step) && t in PollApply(s, step).known && t !in s.known
    ensures Backed(PollApply(s, step), t, s.wipedAt)
  {
    hide EnginesConsistent, RebuildsConsistent, TasksSafe, RowsOk, MembersOk, ScheduledOk, UpstreamOk;
    if step.PublishOne? {
      assert PollConsistent(s, s.polls[step.a]);
      PublishedIsLive(s, step.a, t);
    }
  }

  lemma RebuildUndisturbed(s: World, step: Step, r: Rebuild)
    requires Inv(s) && Enabled(s, step) && !step.Wipe? && RebuildConsistent(s, r)
    ensures RebuildConsistent(Apply(s, step), r)
  {
    StepFrame(s, step);
    var s' := Apply(s, step);
    hide Inv, Apply, Enabled, Backed;
    BooksOf(s);
    HistoryOf(s);
    forall t | t in r.pending ensures Announced(s', t) || t in s'.rows {
      AnnouncedOrStored(s, step, t);
    }
    forall t | t in s'.known && (r.exhausted || t < r.cursor) && t !in r.pending
      ensures Backed(s', t, s.wipedAt)
    {
      if t in s.known {
        StepKeepsBacked(s, step, t, s.wipedAt);
      } else {
        NewlyKnownIsBacked(s, step, t);
      }
    }
  }

  lemma ReadPageMoves(s: World, a: ActorId, cursor: nat, exhausted: bool)
    requires Inv(s) && RebuildEnabled(s, ReadPage(a, cursor, exhausted))
    ensures var s' := RebuildApply(s, ReadPage(a, cursor, exhausted)); RebuildConsistent(s', s'.rebuilds[a])
  {
    var step := ReadPage(a, cursor, exhausted);
    var s' := RebuildApply(s, step);
    var r, r' := s.rebuilds[a], s'.rebuilds[a];
    assert RebuildConsistent(s, r);
    forall t | t in s'.known && (r'.exhausted || t < r'.cursor) && t !in r'.pending
      ensures Backed(s', t, s.wipedAt)
    {
      assert Kept(s, t, s.wipedAt);
      assert Backed(s, t, s.wipedAt);
      RebuildStepAdds(s, step, t);
      AddingKeepsBacked(s, s', t, s.wipedAt);
    }
  }

  lemma RestoreMemberMoves(s: World, a: ActorId, u: TaskId)
    requires Inv(s) && RebuildEnabled(s, RestoreMember(a, u))
    ensures var s' := RebuildApply(s, RestoreMember(a, u)); RebuildConsistent(s', s'.rebuilds[a])
  {
    var s' := RebuildApply(s, RestoreMember(a, u));
    RebuildUndisturbed(s, OfRebuild(RestoreMember(a, u)), s.rebuilds[a]);
    assert s'.rebuilds[a] == s.rebuilds[a].(pending := s.rebuilds[a].pending - {u});
    if u in s'.known {
      RestoredIsBacked(s, a, u);
    }
    hide Inv, RebuildApply, RebuildEnabled, Backed;
  }

  lemma RestoredIsBacked(s: World, a: ActorId, u: TaskId)
    requires Inv(s) && RebuildEnabled(s, RestoreMember(a, u)) && u in s.known && RebuildConsistent(s, s.rebuilds[a])
    ensures Backed(RebuildApply(s, RestoreMember(a, u)), u, s.wipedAt)
  {
    var s' := RebuildApply(s, RestoreMember(a, u));
    RebuildStepAdds(s, RestoreMember(a, u), u);
    hide EnginesConsistent, HandlersConsistent, PollsConsistent;
    if u in s.rows {
      assert MemberFrom(s', Member(u, Rebuilt), u, s.wipedAt);
    } else {
      AbsentIsHandled(s, u);
      AddingKeepsHandled(s, s', u);
    }
  }

  lemma RebuildMoves(s: World, step: RebuildStep, a: ActorId)
    requires Inv(s) && RebuildEnabled(s, step) && a == step.a && a in RebuildApply(s, step).rebuilds
    ensures RebuildConsistent(RebuildApply(s, step), RebuildApply(s, step).rebuilds[a])
  {
    hide Consistent, HandlersConsistent, EnginesConsistent, PollsConsistent, TasksSafe, Backed;
    match step
    case StartRebuild(_) =>
    case SetSentinel(_) => RebuildUndisturbed(s, OfRebuild(step), s.rebuilds[a]);
    case ReadPage(_, cursor, exhausted) => ReadPageMoves(s, a, cursor, exhausted);
    case RestoreMember(_, u) => RestoreMemberMoves(s, a, u);
  }

  lemma RebuildsKept(s: World, step: Step)
    requires Inv(s) && Enabled(s, step) && !step.Wipe?
    ensures RebuildsConsistent(Apply(s, step))
  {
    StepFrame(s, step);
    hide Consistent, HandlersConsistent, EnginesConsistent, PollsConsistent, TasksSafe, RebuildConsistent;
    forall a | a in Apply(s, step).rebuilds ensures RebuildConsistent(Apply(s, step), Apply(s, step).rebuilds[a]) {
      if step.OfRebuild? && a == step.rebuild.a {
        RebuildMoves(s, step.rebuild, a);
      } else {
        if step.OfRebuild? {
          OtherRebuildsKept(s, step.rebuild, a);
        }
        RebuildUndisturbed(s, step, s.rebuilds[a]);
      }
    }
  }

  // ---------------------------------------------------------------- every step, wipes included

  lemma TasksKept(s: World, step: Step)
    requires Inv(s) && Enabled(s, step) && !step.Wipe?
    ensures TasksSafe(Apply(s, step))
  {
    StepFrame(s, step);
    HistoryOf(s);
    hide Consistent, HandlersConsistent, EnginesConsistent, PollsConsistent, RebuildsConsistent, Apply, Enabled, Backed;
    forall t | t in Apply(s, step).known
      ensures Kept(Apply(s, step), t, Apply(s, step).wipedAt)
    {
      if t in s.known {
        StepKeepsKept(s, step, t, s.wipedAt);
      } else {
        NewlyKnownIsBacked(s, step, t);
      }
    }
  }

  lemma WipeAnnounces(s: World, t: TaskId)
    requires HistoryOk(s)
    ensures t in s.origin <==> Announced(WipeRedis(s), t)
    ensures Announced(s, t) ==> Announced(WipeRedis(s), t)
    ensures Closed(WipeRedis(s), t) <==> Closed(s, t)
    ensures t in WipeRedis(s).known ==> Closed(s, t) || t in s.rows
  {
  }

  lemma WipeConsistent(s: World)
    requires Consistent(s)
    ensures Consistent(WipeRedis(s))
  {
    hide Survives;
  }

  lemma WipeBooks(s: World)
    requires Inv(s)
    ensures Consistent(WipeRedis(s)) && HandlersConsistent(WipeRedis(s)) && EnginesConsistent(WipeRedis(s))
  {
    WipeConsistent(s);
    HistoryOf(s);
    forall t: TaskId
      ensures t in s.origin <==> Announced(WipeRedis(s), t)
      ensures Announced(s, t) ==> Announced(WipeRedis(s), t)
      ensures Closed(WipeRedis(s), t) <==> Closed(s, t)
      ensures t in WipeRedis(s).known ==> Closed(s, t) || t in s.rows
    {
      WipeAnnounces(s, t);
    }
    hide PollsConsistent, RebuildsConsistent, TasksSafe, Consistent, Survives, Announced, Closed;
  }

  lemma WipeTasks(s: World)
    requires Inv(s)
    ensures TasksSafe(WipeRedis(s))
  {
    hide PollsConsistent, RebuildsConsistent, HandlersConsistent, EnginesConsistent, AtRisk;
  }

  /** What a poll still holds from before the wipe is either given up with the tasks it endangers, or harmless. */
  lemma WipePoll(s: World, p: Poll)
    requires Inv(s) && PollConsistent(s, p) && exists a :: a in s.polls && s.polls[a] == p
    ensures PollConsistent(WipeRedis(s), p)
  {
    var s' := WipeRedis(s);
    WipeBooks(s);
    hide HandlersConsistent, EnginesConsistent, PollsConsistent, RebuildsConsistent, TasksSafe, MembersOk, ScheduledOk, EntriesOk,
         UpstreamOk;
    assert forall m :: m in p.members ==> m.task in s.origin;
    forall t | t in s'.known
      ensures t in s'.origin && (Closed(s', t) || (t in s'.rows && !Endangers(s, p, t)))
    {
      assert Survives(s, t);
    }
    if p.Releasing? {
      assert forall t :: t in p.published && t !in s'.gone ==> Released(s', p.rows, t);
    }
  }

  lemma WipeKeepsInv(s: World)
    requires Inv(s) && s.rebuilds == map[]
    ensures Inv(WipeRedis(s))
  {
    WipeBooks(s);
    WipeTasks(s);
    hide Consistent, HandlersConsistent, EnginesConsistent, TasksSafe, PollConsistent;
    forall a | a in s.polls
      ensures PollConsistent(WipeRedis(s), s.polls[a])
    {
      WipePoll(s, s.polls[a]);
    }
  }

  /** The invariant survives every step of every process, crash, duplicate and wipe. */
  lemma InvKept(s: World, step: Step)
    requires Inv(s) && Enabled(s, step)
    ensures Inv(Apply(s, step))
  {
    if step.Wipe? {
      WipeKeepsInv(s);
    } else {
      StepConsistent(s, step);
      EnginesKept(s, step);
      PollsKept(s, step);
      RebuildsKept(s, step);
      TasksKept(s, step);
      hide Consistent, HandlersConsistent, EnginesConsistent, PollsConsistent, RebuildsConsistent, TasksSafe, Apply, Enabled;
    }
  }

  lemma {:induction false} InvAlways(s: World, steps: seq<Step>)
    requires Inv(s) && Run(s, steps)
    ensures Inv(After(s, steps))
    decreases |steps|
  {
    if steps != [] {
      hide Inv, Apply, Enabled;
      InvKept(s, steps[0]);
      InvAlways(Apply(s, steps[0]), steps[1..]);
    }
  }

  /** Every reachable state satisfies the invariant. */
  lemma Reachable(steps: seq<Step>)
    requires Run(Init(), steps)
    ensures Inv(After(Init(), steps))
  {
    InitInv();
    hide Inv, Init;
    InvAlways(Init(), steps);
  }

  lemma InitInv()
    ensures Inv(Init())
  {
  }
}
