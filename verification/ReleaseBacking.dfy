/** What keeps a task of the release protocol alive, and why no step of any process takes that away. */
module ReleaseBacking {
  import opened Delivery
  import opened ReleaseProtocol

  // ---------------------------------------------------------------- what keeps a task alive

  /** An entry still owed a handling: on the stream, not settled, and no handler is between its row and its event. */
  ghost predicate IsLive(s: World, e: EntryId, t: TaskId) {
    && e in s.outbound && s.outbound[e].id == t && e !in s.settled
    && forall a :: a in s.handlers && s.handlers[a].RowWritten? ==> s.handlers[a].entry != e
  }

  ghost predicate Live(s: World, t: TaskId) {
    exists e :: IsLive(s, e, t)
  }

  /** A handler that has written the row of `t` and still owes its event, on an entry that survives it. */
  ghost predicate IsParker(s: World, a: ActorId, t: TaskId) {
    && a in s.handlers && s.handlers[a].RowWritten? && s.handlers[a].task.id == t
    && s.handlers[a].entry in s.outbound && s.handlers[a].entry !in s.settled
  }

  ghost predicate BeingParked(s: World, t: TaskId) {
    exists a :: IsParker(s, a, t)
  }

  /** A rebuilt member dates from the last wipe. */
  predicate TagFrom(s: World, tag: Tag, mark: nat) {
    match tag
    case Traced(n) => n >= mark
    case Rebuilt => mark <= s.wipedAt
  }

  ghost predicate MemberFrom(s: World, m: Member, t: TaskId, mark: nat) {
    m in s.members && m.task == t && TagFrom(s, m.tag, mark)
  }

  ghost predicate EventFrom(s: World, ev: EventId, t: TaskId, mark: nat) {
    ev in s.scheduled && s.scheduled[ev].task == t && !s.scheduled[ev].added && s.scheduled[ev].tag >= mark
  }

  /** A member or event of `t` handed out at or after `mark`. */
  ghost predicate TriggeredFrom(s: World, t: TaskId, mark: nat) {
    (exists m :: MemberFrom(s, m, t, mark)) || (exists ev :: EventFrom(s, ev, t, mark))
  }

  /** Closed, or owed by a live entry. */
  ghost predicate Handled(s: World, t: TaskId) {
    Closed(s, t) || Live(s, t)
  }

  /** The task is handled, or parked with a wake-up that dates from `mark` or later. */
  ghost predicate Backed(s: World, t: TaskId, mark: nat) {
    Handled(s, t) || (t in s.rows && (BeingParked(s, t) || TriggeredFrom(s, t, mark)))
  }

  /** Backed, or parked while a rebuild is due, which will restore a member as good as one from `mark`. */
  ghost predicate Kept(s: World, t: TaskId, mark: nat) {
    t in s.known && (Backed(s, t, mark) || (t in s.rows && !s.sentinel && mark <= s.wipedAt))
  }

  // ---------------------------------------------------------------- the invariant

  /** Some member, event or entry of the task has existed, or a wipe has come since it reached the engine. */
  predicate Announced(s: World, t: TaskId) {
    t in s.known || t in s.gone
  }

  ghost predicate RowsOk(s: World) {
    forall t :: t in s.rows ==> t in s.origin && s.rows[t].task.id == t && s.rows[t].sendAt.stamp < s.next
  }

  ghost predicate MembersOk(s: World) {
    forall m :: m in s.members ==> (Announced(s, m.task) || m.task in s.rows) && (m.tag.Traced? ==> m.tag.n < s.next)
  }

  ghost predicate ScheduledOk(s: World) {
    forall ev :: ev in s.scheduled ==> ev < s.next && Announced(s, s.scheduled[ev].task) && s.scheduled[ev].tag < s.next
  }

  ghost predicate EntriesOk(s: World) {
    && (forall e :: e in s.outbound ==> e < s.next && Announced(s, s.outbound[e].id))
    && (forall e :: e in s.settled ==> e < s.next)
  }

  ghost predicate GoodOrder(s: World, o: EngineOrder) {
    && o.sendAt.stamp < s.next && o.tag < s.next && o.task.id in s.origin
    && (Announced(s, o.task.id) || o.tag >= s.wipedAt)
  }

  ghost predicate UpstreamOk(s: World) {
    forall t :: t in s.upstream ==> GoodOrder(s, s.upstream[t]) && s.upstream[t].task.id == t
  }

  ghost predicate HistoryOk(s: World) {
    && s.wipedAt < s.next && s.known !! s.gone && s.known + s.gone <= s.origin.Keys
    && (forall t :: t in s.completed ==> Closed(s, t))
  }

  ghost predicate Consistent(s: World) {
    RowsOk(s) && MembersOk(s) && ScheduledOk(s) && EntriesOk(s) && UpstreamOk(s) && HistoryOk(s)
  }

  ghost predicate HandlersConsistent(s: World) {
    forall a :: a in s.handlers ==>
      var h := s.handlers[a];
      && h.entry < s.next && Announced(s, h.task.id)
      && (h.entry in s.outbound ==> s.outbound[h.entry].id == h.task.id)
      && (h.Finished? ==> h.entry in s.settled)
  }

  ghost predicate EnginesConsistent(s: World) {
    forall a :: a in s.engines ==>
      var o := s.engines[a].order;
      && GoodOrder(s, o)
      && (s.engines[a].Inserted? ==> o.task.id in s.gone || o.task.id in s.rows || Handled(s, o.task.id))
      && (s.engines[a].Sent? ==> Announced(s, o.task.id))
  }

  /** The members a poll holds were all handed out before `mark`, but for rebuilt ones. */
  ghost predicate HeldBefore(s: World, members: set<Member>, mark: nat) {
    && 1 <= mark <= s.next
    && forall m :: m in members ==> (Announced(s, m.task) || m.task in s.rows) && (m.tag.Traced? ==> m.tag.n < mark)
  }

  /** What backs a task must date from this mark on not to be removed by the poll. */
  function Mark(s: World, members: set<Member>, mark: nat, t: TaskId): (m: nat)
    ensures m >= mark
  {
    if Member(t, Rebuilt) in members && mark <= s.wipedAt then s.wipedAt + 1 else mark
  }

  /** The version a poll has published is handled, or is no longer the one in the table. */
  ghost predicate Released(s: World, rows: map<TaskId, Row>, t: TaskId)
    requires t in rows
  {
    Handled(s, t) || (t in s.rows ==> s.rows[t].sendAt != rows[t].sendAt)
  }

  ghost predicate PollConsistent(s: World, p: Poll) {
    match p
    case Claimed(members) => HeldBefore(s, members, s.next)
    case Releasing(members, rows, blocked, published, mark) =>
      && HeldBefore(s, members, mark)
      && (forall t :: t in rows ==> rows[t].sendAt.stamp < mark && rows[t].task.id == t && t in s.origin)
      && published <= rows.Keys <= TasksOf(members) && published !! blocked
      && (forall t :: t in published ==> Announced(s, t) && (t in s.gone || Released(s, rows, t)))
      && (forall t :: t in TasksOf(members) && t !in s.gone && (t !in rows || t in published) ==>
            Kept(s, t, Mark(s, members, mark, t)))
    case Cleaning(members, mark) =>
      && HeldBefore(s, members, mark)
      && (forall t :: t in TasksOf(members) && t !in s.gone ==> Kept(s, t, Mark(s, members, mark, t)))
  }

  ghost predicate PollsConsistent(s: World) {
    forall a :: a in s.polls ==> PollConsistent(s, s.polls[a])
  }

  /** Every task a rebuild has passed, and is not about to restore, is backed without help of the missing sentinel. */
  ghost predicate RebuildConsistent(s: World, r: Rebuild) {
    && (forall t :: t in r.pending ==> Announced(s, t) || t in s.rows)
    && (forall t :: t in s.known && (r.exhausted || t < r.cursor) && t !in r.pending ==> Backed(s, t, s.wipedAt))
  }

  ghost predicate RebuildsConsistent(s: World) {
    forall a :: a in s.rebuilds ==> RebuildConsistent(s, s.rebuilds[a])
  }

  ghost predicate TasksSafe(s: World) {
    forall t :: t in s.known ==> Kept(s, t, s.wipedAt)
  }

  ghost predicate Inv(s: World) {
    && Consistent(s)
    && HandlersConsistent(s)
    && EnginesConsistent(s)
    && PollsConsistent(s)
    && RebuildsConsistent(s)
    && TasksSafe(s)
  }

  // ---------------------------------------------------------------- keeping a task backed

  lemma BackedWeakens(s: World, t: TaskId, mark: nat, lower: nat)
    requires lower <= mark && Backed(s, t, mark)
    ensures Backed(s, t, lower)
  {
    if !Handled(s, t) && !BeingParked(s, t) {
      if m :| MemberFrom(s, m, t, mark) {
        assert MemberFrom(s, m, t, lower);
      } else {
        var ev :| EventFrom(s, ev, t, mark);
        assert EventFrom(s, ev, t, lower);
      }
    }
  }

  /** Steps that only add entries, events, members or bookkeeping around a task. */
  ghost predicate OnlyAdds(s: World, s': World, t: TaskId) {
    && s'.wipedAt == s.wipedAt
    && (Closed(s, t) ==> Closed(s', t))
    && (t in s.rows ==> t in s'.rows && s'.rows[t] == s.rows[t])
    && (forall e :: IsLive(s, e, t) ==> IsLive(s', e, t))
    && (forall a :: IsParker(s, a, t) ==> IsParker(s', a, t))
    && (forall m :: m in s.members && m.task == t ==> m in s'.members)
    && (forall ev :: ev in s.scheduled && s.scheduled[ev].task == t && !s.scheduled[ev].added ==>
          ev in s'.scheduled && s'.scheduled[ev] == s.scheduled[ev])
  }

  lemma AddingKeepsBacked(s: World, s': World, t: TaskId, mark: nat)
    requires OnlyAdds(s, s', t) && Backed(s, t, mark)
    ensures Backed(s', t, mark)
  {
    if !Closed(s, t) {
      if e :| IsLive(s, e, t) {
        assert IsLive(s', e, t);
      } else if a :| IsParker(s, a, t) {
        assert IsParker(s', a, t);
      } else if m :| MemberFrom(s, m, t, mark) {
        assert MemberFrom(s', m, t, mark);
      } else {
        var ev :| EventFrom(s, ev, t, mark);
        assert EventFrom(s', ev, t, mark);
      }
    }
  }

  lemma EngineStepAdds(s: World, step: EngineStep, t: TaskId)
    requires ScheduledOk(s) && EntriesOk(s) && HandlersConsistent(s) && EngineEnabled(s, step)
    ensures OnlyAdds(s, EngineApply(s, step), t)
  {
    if step.Dispatch? {
      hide ScheduledOk;
      DispatchAdds(s, step.a, t);
    } else if step.PublishScheduled? {
      hide EntriesOk, HandlersConsistent, IsLive, IsParker;
      ScheduleAdds(s, step.a, t);
    } else {
      hide EntriesOk, HandlersConsistent, ScheduledOk;
    }
  }

  lemma DispatchAdds(s: World, a: ActorId, t: TaskId)
    requires EntriesOk(s) && HandlersConsistent(s) && EngineEnabled(s, EngineStep.Dispatch(a))
    ensures OnlyAdds(s, EngineApply(s, EngineStep.Dispatch(a)), t)
  {
  }

  lemma ScheduleAdds(s: World, a: ActorId, t: TaskId)
    requires ScheduledOk(s) && EngineEnabled(s, PublishScheduled(a))
    ensures OnlyAdds(s, EngineApply(s, PublishScheduled(a)), t)
  {
  }

  lemma RebuildStepAdds(s: World, step: RebuildStep, t: TaskId)
    requires RebuildEnabled(s, step)
    ensures OnlyAdds(s, RebuildApply(s, step), t)
  {
  }

  predicate MovesEntry(step: DeliveryStep) {
    || step.ThrottlePark? || step.RetryPark? || step.PublishParked? || step.Close? || step.DuplicateOfCompleted?
    || step.Abandon?
  }

  lemma DeliveryStepAdds(s: World, step: DeliveryStep, t: TaskId)
    requires HandlersConsistent(s) && DeliveryEnabled(s, step) && !MovesEntry(step)
    ensures OnlyAdds(s, DeliveryApply(s, step), t)
  {
  }

  lemma PollStepAdds(s: World, step: PollStep, t: TaskId)
    requires EntriesOk(s) && HandlersConsistent(s) && PollEnabled(s, step) && !step.RemoveMember? && !step.DeleteRows?
    ensures OnlyAdds(s, PollApply(s, step), t)
  {
  }

  /** Writing a row trades a live entry for a row that its handler is about to announce. */
  lemma WriteRowKeepsBacked(s: World, a: ActorId, parked: Task, sendMs: nat, t: TaskId, mark: nat)
    requires Consistent(s) && HandlersConsistent(s) && a in s.handlers && s.handlers[a].Working?
    requires parked.id == s.handlers[a].task.id && Backed(s, t, mark)
    ensures Backed(WriteRow(s, a, parked, sendMs), t, mark)
  {
    var s' := WriteRow(s, a, parked, sendMs);
    var entry := s.handlers[a].entry;
    if !Closed(s, t) {
      if e :| IsLive(s, e, t) {
        if e == entry {
          assert IsParker(s', a, t);
        } else {
          assert IsLive(s', e, t);
        }
      } else if b :| IsParker(s, b, t) {
        assert IsParker(s', b, t);
      } else {
        SameTriggers(s, s', t, mark);
      }
    }
  }

  lemma SameTriggers(s: World, s': World, t: TaskId, mark: nat)
    requires TriggeredFrom(s, t, mark) && s'.wipedAt == s.wipedAt
    requires forall m :: m in s.members && m.task == t && TagFrom(s, m.tag, mark) ==> m in s'.members
    requires forall ev :: ev in s.scheduled && s.scheduled[ev].task == t && !s.scheduled[ev].added ==>
                            ev in s'.scheduled && s'.scheduled[ev] == s.scheduled[ev]
    ensures TriggeredFrom(s', t, mark)
  {
    if m :| MemberFrom(s, m, t, mark) {
      assert MemberFrom(s', m, t, mark);
    } else {
      var ev :| EventFrom(s, ev, t, mark);
      assert EventFrom(s', ev, t, mark);
    }
  }

  /** Publishing the event settles the entry: the row no longer needs its handler. */
  lemma PublishParkedKeepsBacked(s: World, a: ActorId, t: TaskId, mark: nat)
    requires Consistent(s) && HandlersConsistent(s) && DeliveryEnabled(s, PublishParked(a)) && mark <= s.next && Backed(s, t, mark)
    ensures Backed(DeliveryApply(s, PublishParked(a)), t, mark)
  {
    var s' := DeliveryApply(s, PublishParked(a));
    var entry := s.handlers[a].entry;
    if !Closed(s, t) {
      if e :| IsLive(s, e, t) {
        assert IsLive(s', e, t);
      } else if b :| IsParker(s, b, t) {
        if s.handlers[b].entry == entry {
          assert EventFrom(s', s.next, t, mark);
        } else {
          assert IsParker(s', b, t);
        }
      } else {
        SameTriggers(s, s', t, mark);
      }
    }
  }

  /** Settling an entry of a closed task takes nothing from any other task. */
  lemma SettleKeepsBacked(s: World, s': World, a: ActorId, t: TaskId, mark: nat)
    requires Consistent(s) && HandlersConsistent(s) && a in s.handlers && s.handlers[a].Working?
    requires s'.outbound == s.outbound && s'.rows == s.rows && s'.members == s.members && s'.scheduled == s.scheduled
    requires s'.wipedAt == s.wipedAt
    requires s'.settled == s.settled + {s.handlers[a].entry}
    requires s'.handlers == s.handlers[a := Finished(s.handlers[a].entry, s.handlers[a].task)]
    requires Closed(s', s.handlers[a].task.id) && (Closed(s, t) ==> Closed(s', t)) && Backed(s, t, mark)
    ensures Backed(s', t, mark)
  {
    if !Closed(s, t) && t != s.handlers[a].task.id {
      if e :| IsLive(s, e, t) {
        assert IsLive(s', e, t);
      } else if b :| IsParker(s, b, t) {
        assert IsParker(s', b, t);
      } else {
        SameTriggers(s, s', t, mark);
      }
    }
  }

  /** A handler that crashes or gives up leaves its entry to be handled again. */
  lemma AbandonKeepsBacked(s: World, a: ActorId, t: TaskId, mark: nat)
    requires Consistent(s) && HandlersConsistent(s) && DeliveryEnabled(s, Abandon(a)) && Backed(s, t, mark)
    ensures Backed(DeliveryApply(s, Abandon(a)), t, mark)
  {
    var s' := DeliveryApply(s, Abandon(a));
    if !Closed(s, t) {
      if e :| IsLive(s, e, t) {
        assert IsLive(s', e, t);
      } else if b :| IsParker(s, b, t) {
        var entry := s.handlers[b].entry;
        if c :| c in s'.handlers && s'.handlers[c].RowWritten? && s'.handlers[c].entry == entry {
          assert IsParker(s', c, t);
        } else {
          assert IsLive(s', entry, t);
        }
      } else {
        SameTriggers(s, s', t, mark);
      }
    }
  }

  /** ZADD turns an event into a member with the same tag. */
  lemma AddMemberKeepsBacked(s: World, id: EventId, t: TaskId, mark: nat)
    requires Consistent(s) && ConsumerEnabled(s, AddMember(id)) && Backed(s, t, mark)
    ensures Backed(ConsumerApply(s, AddMember(id)), t, mark)
  {
    var s' := ConsumerApply(s, AddMember(id));
    if !Closed(s, t) {
      if e :| IsLive(s, e, t) {
        assert IsLive(s', e, t);
      } else if b :| IsParker(s, b, t) {
        assert IsParker(s', b, t);
      } else if m :| MemberFrom(s, m, t, mark) {
        assert MemberFrom(s', m, t, mark);
      } else {
        var ev :| EventFrom(s, ev, t, mark);
        if ev == id {
          assert MemberFrom(s', Member(t, Traced(s.scheduled[ev].tag)), t, mark);
        } else {
          assert EventFrom(s', ev, t, mark);
        }
      }
    }
  }

  /** A poll only removes members of tasks that are backed by something else, or whose rows a rebuild will pass. */
  lemma RemoveMemberKeepsBacked(s: World, a: ActorId, m: Member, t: TaskId, mark: nat)
    requires PollsConsistent(s) && PollEnabled(s, RemoveMember(a, m)) && Backed(s, t, mark)
    requires t !in s.gone && (mark >= s.wipedAt || s.sentinel)
    ensures Backed(PollApply(s, RemoveMember(a, m)), t, mark)
  {
    var s' := PollApply(s, RemoveMember(a, m));
    var p := s.polls[a];
    assert PollConsistent(s, p);
    if t != m.task {
      AddingKeepsBacked(s, s', t, mark);
    } else {
      assert t in TasksOf(p.members);
      var own := Mark(s, p.members, p.mark, t);
      assert Kept(s, t, own);
      var from := if mark >= own then mark else own;
      assert Backed(s, t, from);
      RemovedIsOlder(s, p, m, from);
      RemovingKeepsBacked(s, s', m, t, from);
      BackedWeakens(s', t, from, mark);
    }
  }

  lemma RemovedIsOlder(s: World, p: Poll, m: Member, from: nat)
    requires p.Cleaning? && PollConsistent(s, p) && m in p.members && from >= Mark(s, p.members, p.mark, m.task)
    ensures !TagFrom(s, m.tag, from)
  {
  }

  lemma RemovingKeepsBacked(s: World, s': World, m: Member, t: TaskId, from: nat)
    requires s' == s.(members := s.members - {m}) && Backed(s, t, from) && !TagFrom(s, m.tag, from)
    ensures Backed(s', t, from)
  {
    if !Closed(s, t) {
      if e :| IsLive(s, e, t) {
        assert IsLive(s', e, t);
      } else if b :| IsParker(s, b, t) {
        assert IsParker(s', b, t);
      } else {
        SameTriggers(s, s', t, from);
      }
    }
  }

  /** The row a poll deletes is one whose task is handled, or blocked. */
  lemma DeletedIsHandled(s: World, a: ActorId, t: TaskId)
    requires PollsConsistent(s) && PollEnabled(s, DeleteRows(a)) && t !in s.gone
    requires t in s.rows && t !in PollApply(s, DeleteRows(a)).rows
    ensures Handled(PollApply(s, DeleteRows(a)), t)
  {
    var s' := PollApply(s, DeleteRows(a));
    var p := s.polls[a];
    assert PollConsistent(s, p) && Deletes(p, t, s.rows[t]);
    if t !in p.blocked && !Closed(s, t) {
      assert Released(s, p.rows, t);
      var e :| IsLive(s, e, t);
      assert IsLive(s', e, t);
    }
  }

  lemma DeleteRowsKeepsBacked(s: World, a: ActorId, t: TaskId, mark: nat)
    requires PollsConsistent(s) && PollEnabled(s, DeleteRows(a)) && Backed(s, t, mark) && t !in s.gone
    ensures Backed(PollApply(s, DeleteRows(a)), t, mark)
  {
    if t in s.rows && t !in PollApply(s, DeleteRows(a)).rows {
      DeletedIsHandled(s, a, t);
    } else {
      AddingKeepsBacked(s, PollApply(s, DeleteRows(a)), t, mark);
    }
  }

  lemma CloseKeepsBacked(s: World, a: ActorId, how: Closing, t: TaskId, mark: nat)
    requires Consistent(s) && HandlersConsistent(s) && DeliveryEnabled(s, Close(a, how)) && Backed(s, t, mark)
    ensures Backed(DeliveryApply(s, Close(a, how)), t, mark)
  {
    SettleKeepsBacked(s, DeliveryApply(s, Close(a, how)), a, t, mark);
  }

  lemma DuplicateKeepsBacked(s: World, a: ActorId, t: TaskId, mark: nat)
    requires Consistent(s) && HandlersConsistent(s) && DeliveryEnabled(s, DuplicateOfCompleted(a)) && Backed(s, t, mark)
    ensures Backed(DeliveryApply(s, DuplicateOfCompleted(a)), t, mark)
  {
    SettleKeepsBacked(s, DeliveryApply(s, DuplicateOfCompleted(a)), a, t, mark);
  }

  lemma DeliveryStepKeepsBacked(s: World, step: DeliveryStep, t: TaskId, mark: nat)
    requires Consistent(s) && HandlersConsistent(s) && DeliveryEnabled(s, step) && mark <= s.next && Backed(s, t, mark)
    ensures Backed(DeliveryApply(s, step), t, mark)
  {
    hide Consistent, HandlersConsistent, Backed, OnlyAdds;
    match step
    case ThrottlePark(a, ms) => WriteRowKeepsBacked(s, a, ThrottleTask(s.handlers[a].task), ms, t, mark);
    case RetryPark(a, attempt, ms) => WriteRowKeepsBacked(s, a, RetryTask(s.handlers[a].task, attempt), ms, t, mark);
    case PublishParked(a) => PublishParkedKeepsBacked(s, a, t, mark);
    case Close(a, how) => CloseKeepsBacked(s, a, how, t, mark);
    case DuplicateOfCompleted(a) => DuplicateKeepsBacked(s, a, t, mark);
    case Abandon(a) => AbandonKeepsBacked(s, a, t, mark);
    case _ =>
      DeliveryStepAdds(s, step, t);
      AddingKeepsBacked(s, DeliveryApply(s, step), t, mark);
  }

  lemma ConsumerStepKeepsBacked(s: World, step: ConsumerStep, t: TaskId, mark: nat)
    requires Consistent(s) && ConsumerEnabled(s, step) && Backed(s, t, mark)
    ensures Backed(ConsumerApply(s, step), t, mark)
  {
    match step
    case AddMember(ev) => AddMemberKeepsBacked(s, ev, t, mark);
    case AckScheduled(ev) => AddingKeepsBacked(s, ConsumerApply(s, step), t, mark);
    case DeadLetterScheduled(ev, acked) =>
      if t != s.scheduled[ev].task {
        AddingKeepsBacked(s, ConsumerApply(s, step), t, mark);
      }
  }

  lemma PollStepKeepsBacked(s: World, step: PollStep, t: TaskId, mark: nat)
    requires EntriesOk(s) && HandlersConsistent(s) && PollsConsistent(s) && PollEnabled(s, step) && Backed(s, t, mark)
    requires t !in s.gone && (step.RemoveMember? ==> mark >= s.wipedAt || s.sentinel)
    ensures Backed(PollApply(s, step), t, mark)
  {
    hide HandlersConsistent, PollsConsistent, Backed, OnlyAdds, EntriesOk;
    match step
    case RemoveMember(a, m) => RemoveMemberKeepsBacked(s, a, m, t, mark);
    case DeleteRows(a) => DeleteRowsKeepsBacked(s, a, t, mark);
    case _ =>
      PollStepAdds(s, step, t);
      AddingKeepsBacked(s, PollApply(s, step), t, mark);
  }

  predicate RemovesMember(step: Step) {
    step.OfPoll? && step.poll.RemoveMember?
  }

  /** Short of a wipe, no step of any process takes away what backs a task. While a rebuild is due, that goes for what
    * dates from after the wipe. */
  lemma StepKeepsBacked(s: World, step: Step, t: TaskId, mark: nat)
    requires Consistent(s) && HandlersConsistent(s) && PollsConsistent(s)
    requires Enabled(s, step) && !step.Wipe? && mark <= s.next && Backed(s, t, mark)
    requires t !in s.gone && (RemovesMember(step) ==> mark >= s.wipedAt || s.sentinel)
    ensures Backed(Apply(s, step), t, mark)
  {
    match step
    case Tick(ms) => AddingKeepsBacked(s, Apply(s, step), t, mark);
    case OfEngine(x) =>
      EngineStepAdds(s, x, t);
      AddingKeepsBacked(s, EngineApply(s, x), t, mark);
    case OfDelivery(x) => DeliveryStepKeepsBacked(s, x, t, mark);
    case OfConsumer(x) => ConsumerStepKeepsBacked(s, x, t, mark);
    case OfPoll(x) => PollStepKeepsBacked(s, x, t, mark);
    case OfRebuild(x) =>
      RebuildStepAdds(s, x, t);
      AddingKeepsBacked(s, RebuildApply(s, x), t, mark);
  }

  // ---------------------------------------------------------------- keeping a task handled, and kept

  predicate Parks(step: Step, entry: EntryId, s: World)
    requires Enabled(s, step)
  {
    step.OfDelivery? && (step.delivery.ThrottlePark? || step.delivery.RetryPark?) && s.handlers[step.delivery.a].entry == entry
  }

  lemma DeliveryKeepsClosed(s: World, step: DeliveryStep, t: TaskId)
    requires DeliveryEnabled(s, step) && Closed(s, t)
    ensures Closed(DeliveryApply(s, step), t)
  {
  }

  lemma DeliveryKeepsLive(s: World, step: DeliveryStep, e: EntryId, t: TaskId)
    requires HistoryOk(s) && HandlersConsistent(s) && DeliveryEnabled(s, step) && IsLive(s, e, t) && !Parks(OfDelivery(step), e, s)
    ensures IsLive(DeliveryApply(s, step), e, t) || Closed(DeliveryApply(s, step), t)
  {
    if step.Close? || step.DuplicateOfCompleted? {
      DeliverySettles(s, step, e, t);
    }
  }

  lemma DeliverySettles(s: World, step: DeliveryStep, e: EntryId, t: TaskId)
    requires HandlersConsistent(s) && (forall u :: u in s.completed ==> Closed(s, u)) && DeliveryEnabled(s, step) && IsLive(s, e, t)
    requires step.Close? || step.DuplicateOfCompleted?
    ensures IsLive(DeliveryApply(s, step), e, t) || Closed(DeliveryApply(s, step), t)
  {
  }

  lemma PollKeepsHandled(s: World, step: PollStep, t: TaskId)
    requires EntriesOk(s) && HandlersConsistent(s) && PollEnabled(s, step) && Handled(s, t)
    ensures Handled(PollApply(s, step), t)
  {
    if !step.RemoveMember? && !step.DeleteRows? {
      PollStepAdds(s, step, t);
    }
    var s' := PollApply(s, step);
    if !Closed(s, t) {
      var e :| IsLive(s, e, t);
      assert IsLive(s', e, t);
    }
  }

  lemma AddingKeepsHandled(s: World, s': World, t: TaskId)
    requires OnlyAdds(s, s', t) && Handled(s, t)
    ensures Handled(s', t)
  {
    if !Closed(s, t) {
      var e :| IsLive(s, e, t);
      assert IsLive(s', e, t);
    }
  }

  lemma DeliveryKeepsHandled(s: World, step: DeliveryStep, t: TaskId)
    requires Consistent(s) && HandlersConsistent(s) && DeliveryEnabled(s, step) && Handled(s, t)
    ensures var s' := DeliveryApply(s, step);
      Handled(s', t) || (t in s'.rows && s'.rows[t].sendAt.stamp == s.next)
  {
    var s' := DeliveryApply(s, step);
    if Closed(s, t) {
      DeliveryKeepsClosed(s, step, t);
    } else {
      var e :| IsLive(s, e, t);
      if Parks(OfDelivery(step), e, s) {
        assert s'.rows[t].sendAt.stamp == s.next;
      } else {
        DeliveryKeepsLive(s, step, e, t);
      }
    }
  }

  /** A handled task stays so, or is written back to Postgres under a new send time. */
  lemma StepKeepsHandled(s: World, step: Step, t: TaskId)
    requires Consistent(s) && HandlersConsistent(s) && Enabled(s, step) && !step.Wipe? && Handled(s, t)
    ensures var s' := Apply(s, step);
      Handled(s', t) || (t in s'.rows && s'.rows[t].sendAt.stamp == s.next)
  {
    hide Handled, HandlersConsistent, OnlyAdds, RowsOk, MembersOk, ScheduledOk, EntriesOk, UpstreamOk, HistoryOk,
         EngineApply, PollApply, DeliveryApply, RebuildApply, ConsumerApply;
    match step
    case Tick(ms) => TickKeepsHandled(s, ms, t);
    case OfEngine(x) =>
      EngineStepAdds(s, x, t);
      AddingKeepsHandled(s, EngineApply(s, x), t);
    case OfDelivery(x) => DeliveryKeepsHandled(s, x, t);
    case OfConsumer(x) => ConsumerKeepsHandled(s, x, t);
    case OfPoll(x) => PollKeepsHandled(s, x, t);
    case OfRebuild(x) =>
      RebuildStepAdds(s, x, t);
      AddingKeepsHandled(s, RebuildApply(s, x), t);
  }

  lemma ConsumerKeepsHandled(s: World, step: ConsumerStep, t: TaskId)
    requires ConsumerEnabled(s, step) && Handled(s, t)
    ensures Handled(ConsumerApply(s, step), t)
  {
    if !Closed(s, t) {
      var e :| IsLive(s, e, t);
      assert IsLive(ConsumerApply(s, step), e, t);
    }
  }

  lemma TickKeepsHandled(s: World, ms: nat, t: TaskId)
    requires Handled(s, t)
    ensures Handled(s.(now := s.now + ms), t)
  {
    if !Closed(s, t) {
      var e :| IsLive(s, e, t);
      assert IsLive(s.(now := s.now + ms), e, t);
    }
  }

  /** A row goes only when its task is handled. */
  lemma StepKeepsRow(s: World, step: Step, t: TaskId)
    requires PollsConsistent(s) && Enabled(s, step) && !step.Wipe? && t in s.rows && t !in s.gone
    ensures t in Apply(s, step).rows || Handled(Apply(s, step), t)
  {
    hide PollsConsistent, Handled, EngineApply, DeliveryApply, ConsumerApply, RebuildApply;
    StepFrame(s, step);
    if step.OfPoll? {
      if step.poll.DeleteRows? {
        if t !in Apply(s, step).rows {
          DeletedIsHandled(s, step.poll.a, t);
        }
      } else {
        PollRows(s, step.poll);
      }
    }
  }

  lemma PollRows(s: World, step: PollStep)
    requires PollEnabled(s, step) && !step.DeleteRows?
    ensures PollApply(s, step).rows == s.rows
  {
  }

  predicate SetsSentinel(step: Step) {
    step.OfRebuild? && step.rebuild.SetSentinel?
  }

  lemma StepKeepsSentinel(s: World, step: Step)
    requires Enabled(s, step) && !step.Wipe? && !SetsSentinel(step)
    ensures Apply(s, step).sentinel == s.sentinel
  {
    StepFrame(s, step);
    if step.OfRebuild? {
      RebuildKeepsSentinel(s, step.rebuild);
    }
  }

  lemma RebuildKeepsSentinel(s: World, step: RebuildStep)
    requires RebuildEnabled(s, step) && !step.SetSentinel?
    ensures RebuildApply(s, step).sentinel == s.sentinel
  {
  }

  /** The sentinel is set only when every task answered for is backed without it. */
  lemma SentinelNeedsBacking(s: World, a: ActorId, t: TaskId)
    requires RebuildsConsistent(s) && RebuildEnabled(s, SetSentinel(a)) && t in s.known
    ensures Backed(s, t, s.wipedAt)
  {
    assert RebuildConsistent(s, s.rebuilds[a]);
  }

  lemma KnownIsNotGone(s: World, t: TaskId)
    requires HistoryOk(s) && t in s.known
    ensures t !in s.gone
  {
  }

  /** Short of a wipe, a task that is kept stays kept. */
  lemma StepKeepsKept(s: World, step: Step, t: TaskId, mark: nat)
    requires Inv(s) && Enabled(s, step) && !step.Wipe? && mark <= s.next && Kept(s, t, mark)
    ensures Kept(Apply(s, step), t, mark)
  {
    hide Backed, RowsOk, MembersOk, ScheduledOk, EntriesOk, UpstreamOk, HandlersConsistent, EnginesConsistent, PollsConsistent,
         RebuildsConsistent;
    var s' := Apply(s, step);
    KnownIsNotGone(s, t);
    StepFrame(s, step);
    hide Apply, Enabled;
    assert Kept(s, t, s.wipedAt);
    if Backed(s, t, s.wipedAt) && mark <= s.wipedAt {
      StepKeepsBacked(s, step, t, s.wipedAt);
      BackedWeakens(s', t, s.wipedAt, mark);
    } else if Backed(s, t, mark) && (mark >= s.wipedAt || s.sentinel || !RemovesMember(step)) {
      StepKeepsBacked(s, step, t, mark);
    } else if SetsSentinel(step) {
      SentinelIsSet(s, step, t, mark);
    } else {
      StepKeepsRow(s, step, t);
      StepKeepsSentinel(s, step);
      HandledIsBacked(s', t, mark);
    }
  }

  lemma HandledIsBacked(s: World, t: TaskId, mark: nat)
    ensures Handled(s, t) ==> Backed(s, t, mark)
  {
  }

  lemma SentinelIsSet(s: World, step: Step, t: TaskId, mark: nat)
    requires Inv(s) && Enabled(s, step) && SetsSentinel(step) && t in s.known && mark <= s.wipedAt
    ensures Backed(Apply(s, step), t, mark)
  {
    SentinelNeedsBacking(s, step.rebuild.a, t);
    StepKeepsBacked(s, step, t, s.wipedAt);
    BackedWeakens(Apply(s, step), t, s.wipedAt, mark);
  }

  // ---------------------------------------------------------------- frames

  /** What a process cannot touch: each process table changes only by its own steps. */
  ghost predicate Framed(s: World, step: Step, s': World) {
    && s.known <= s'.known && s'.gone == s.gone && s'.wipedAt == s.wipedAt && s.next <= s'.next
    && s.origin.Keys <= s'.origin.Keys
    && (!step.OfEngine? ==> s'.engines == s.engines && s'.upstream == s.upstream && s'.origin == s.origin)
    && (!step.OfEngine? && !step.OfPoll? ==> s'.known == s.known)
    && (!step.OfPoll? ==> s'.polls == s.polls)
    && (!step.OfRebuild? ==> s'.rebuilds == s.rebuilds && s'.sentinel == s.sentinel)
    && (!step.OfPoll? ==> s.rows.Keys <= s'.rows.Keys)
    && (!step.OfPoll? && !step.OfEngine? && !step.OfDelivery? ==> s'.rows == s.rows)
  }

  lemma EngineFrame(s: World, x: EngineStep)
    requires EngineEnabled(s, x)
    ensures Framed(s, OfEngine(x), EngineApply(s, x))
  {
  }

  lemma DeliveryFrame(s: World, x: DeliveryStep)
    requires DeliveryEnabled(s, x)
    ensures Framed(s, OfDelivery(x), DeliveryApply(s, x))
  {
  }

  lemma PollFrame(s: World, x: PollStep)
    requires PollEnabled(s, x)
    ensures Framed(s, OfPoll(x), PollApply(s, x))
  {
  }

  lemma RebuildFrame(s: World, x: RebuildStep)
    requires RebuildEnabled(s, x)
    ensures Framed(s, OfRebuild(x), RebuildApply(s, x))
  {
  }

  lemma ConsumerFrame(s: World, x: ConsumerStep)
    requires ConsumerEnabled(s, x)
    ensures Framed(s, OfConsumer(x), ConsumerApply(s, x))
  {
  }

  lemma StepFrame(s: World, step: Step)
    requires Enabled(s, step) && !step.Wipe?
    ensures Framed(s, step, Apply(s, step))
  {
    match step
    case Tick(ms) => assert Framed(s, step, s.(now := s.now + ms));
    case OfEngine(x) => EngineFrame(s, x);
    case OfDelivery(x) => DeliveryFrame(s, x);
    case OfConsumer(x) => ConsumerFrame(s, x);
    case OfPoll(x) => PollFrame(s, x);
    case OfRebuild(x) => RebuildFrame(s, x);
  }
}
