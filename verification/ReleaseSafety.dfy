/** The main results on the release protocol: no task is lost, and what exactly wipes and late markers can lose. */
module ReleaseSafety {
  import opened ReleaseProtocol
  import opened ReleaseBacking
  import opened ReleaseInvariant

  // ---------------------------------------------------------------- main results

  lemma BackedIsFound(s: World, t: TaskId, mark: nat)
    requires Inv(s) && Backed(s, t, mark)
    ensures Closed(s, t) || PendingOnStream(s, t) || (t in s.rows && Triggered(s, t))
  {
    hide Consistent, EnginesConsistent, PollsConsistent, RebuildsConsistent, TasksSafe;
    if !Closed(s, t) {
      if e :| IsLive(s, e, t) {
        assert e in s.outbound && s.outbound[e].id == t;
      } else if a :| IsParker(s, a, t) {
        assert s.handlers[a].entry in s.outbound;
      } else if m :| MemberFrom(s, m, t, mark) {
        assert m in s.members;
      } else {
        var ev :| EventFrom(s, ev, t, mark);
        assert ev in s.scheduled;
      }
    }
  }

  lemma InvMeansNotLost(s: World, t: TaskId)
    requires Inv(s) && t in s.known
    ensures NotLost(s, t)
  {
    assert Kept(s, t, s.wipedAt);
    hide Inv, Backed;
    if Backed(s, t, s.wipedAt) {
      BackedIsFound(s, t, s.wipedAt);
    }
  }

  /** No task is silently dropped: after any run, a task the protocol answers for is pending on an outbound stream, parked
    * where a poll or a rebuild will find it, or closed. */
  lemma NoTaskIsLost(steps: seq<Step>, t: TaskId)
    requires Run(Init(), steps) && t in After(Init(), steps).known
    ensures NotLost(After(Init(), steps), t)
  {
    Reachable(steps);
    InvMeansNotLost(After(Init(), steps), t);
  }

  /** No step but a wipe puts an end to answering for a task. (Which tasks a wipe can lose is the result of WipeLosses.) */
  lemma OnlyAWipeForgets(steps: seq<Step>, step: Step, t: TaskId)
    requires Run(Init(), steps) && Enabled(After(Init(), steps), step)
    requires t in After(Init(), steps).known && t !in Apply(After(Init(), steps), step).known
    ensures step.Wipe? && !Survives(After(Init(), steps), t) && t in Apply(After(Init(), steps), step).gone
  {
    Reachable(steps);
    hide Inv, Apply, Enabled, Survives;
    Forgetting(After(Init(), steps), step, t);
  }

  lemma Forgetting(s: World, step: Step, t: TaskId)
    requires Inv(s) && Enabled(s, step) && t in s.known && t !in Apply(s, step).known
    ensures step.Wipe? && !Survives(s, t) && t in Apply(s, step).gone
  {
    HistoryOf(s);
    hide Inv, EngineApply, DeliveryApply, ConsumerApply, RebuildApply, PollApply, Survives;
    if !step.Wipe? {
      StepFrame(s, step);
    }
  }

  // from the engine on

  /** The engine's marker for an order that no stream has yet seen has expired by the time its entry is reclaimed. */
  predicate MarkerInTime(s: World, step: Step) {
    step.OfEngine? && step.engine.AckDuplicate? ==> Announced(s, step.engine.t)
  }

  predicate MarkersInTime(s: World, steps: seq<Step>)
    requires Run(s, steps)
    decreases |steps|
  {
    steps == [] || (MarkerInTime(s, steps[0]) && MarkersInTime(Apply(s, steps[0]), steps[1..]))
  }

  ghost predicate Accepted(s: World) {
    forall t :: t in s.origin ==> t in s.upstream || Announced(s, t)
  }

  lemma StepKeepsAccepted(s: World, step: Step)
    requires Inv(s) && Accepted(s) && Enabled(s, step) && MarkerInTime(s, step)
    ensures Accepted(Apply(s, step))
  {
    hide HandlersConsistent, PollsConsistent, RebuildsConsistent, TasksSafe, RowsOk, MembersOk, ScheduledOk, EntriesOk,
         UpstreamOk;
    if step.Wipe? {
      forall t | t in s.origin ensures Announced(WipeRedis(s), t) {
        WipeAnnounces(s, t);
      }
    } else {
      StepFrame(s, step);
      if step.OfEngine? {
        EngineKeepsAccepted(s, step.engine);
      }
    }
  }

  lemma EngineKeepsAccepted(s: World, step: EngineStep)
    requires EnginesConsistent(s) && Accepted(s) && EngineEnabled(s, step) && MarkerInTime(s, OfEngine(step))
    ensures Accepted(EngineApply(s, step))
  {
  }

  lemma {:induction false} AcceptedAlways(s: World, steps: seq<Step>)
    requires Inv(s) && Accepted(s) && Run(s, steps) && MarkersInTime(s, steps)
    ensures Inv(After(s, steps)) && Accepted(After(s, steps))
    decreases |steps|
  {
    if steps != [] {
      hide Inv, Apply, Enabled, Accepted, MarkerInTime;
      InvKept(s, steps[0]);
      StepKeepsAccepted(s, steps[0]);
      AcceptedAlways(Apply(s, steps[0]), steps[1..]);
    }
  }

  /** From its arrival at the engine on, a task is still on its way in, or answered for, or a wipe has ended that: provided
    * no redelivered order is acked for the marker of a handler that died before it published anything. */
  lemma AcceptedTasksAreNotLost(steps: seq<Step>, t: TaskId)
    requires Run(Init(), steps) && MarkersInTime(Init(), steps) && t in After(Init(), steps).origin
    ensures var s := After(Init(), steps); t in s.upstream || t in s.gone || NotLost(s, t)
  {
    AcceptedAlways(Init(), steps);
    var s := After(Init(), steps);
    if t in s.known {
      InvMeansNotLost(s, t);
    }
  }

  // deletion and rebuild

  /** A parked row disappears only when a poll that read that very send time deletes it, having published or blocked the
    * task; whatever was parked since then stays. What is left behind is closed or owed by an entry on a stream, unless a
    * wipe has taken that entry. */
  lemma RowDeletedOnlyOnceReleased(steps: seq<Step>, step: Step, t: TaskId)
    requires Run(Init(), steps) && Enabled(After(Init(), steps), step)
    requires t in After(Init(), steps).rows && t !in Apply(After(Init(), steps), step).rows
    ensures var s := After(Init(), steps);
            && step.OfPoll? && step.poll.DeleteRows?
            && var p := s.polls[step.poll.a];
            && t in p.rows && p.rows[t].sendAt == s.rows[t].sendAt && (t in p.published || t in p.blocked)
            && (t in s.gone || Closed(Apply(s, step), t) || PendingOnStream(s, t))
  {
    Reachable(steps);
    hide Inv, Apply, Enabled, Closed, PendingOnStream;
    RowDeletion(After(Init(), steps), step, t);
  }

  lemma RowDeletion(s: World, step: Step, t: TaskId)
    requires Inv(s) && Enabled(s, step) && t in s.rows && t !in Apply(s, step).rows
    ensures && step.OfPoll? && step.poll.DeleteRows?
            && var p := s.polls[step.poll.a];
            && t in p.rows && p.rows[t].sendAt == s.rows[t].sendAt && (t in p.published || t in p.blocked)
            && (t in s.gone || Closed(Apply(s, step), t) || PendingOnStream(s, t))
  {
    hide Inv, EngineApply, DeliveryApply, ConsumerApply, RebuildApply, PollApply;
    if !(step.OfPoll? && step.poll.DeleteRows?) {
      RowsOnlyLeaveByDelete(s, step, t);
    }
    DeletedWasReleased(s, step.poll.a, t);
  }

  lemma DeletedWasReleased(s: World, a: ActorId, t: TaskId)
    requires Inv(s) && PollEnabled(s, DeleteRows(a)) && t in s.rows && t !in PollApply(s, DeleteRows(a)).rows
    ensures var p := s.polls[a];
            && t in p.rows && p.rows[t].sendAt == s.rows[t].sendAt && (t in p.published || t in p.blocked)
            && (t in s.gone || Closed(PollApply(s, DeleteRows(a)), t) || PendingOnStream(s, t))
  {
    hide HandlersConsistent, EnginesConsistent, RebuildsConsistent, TasksSafe;
    var p := s.polls[a];
    assert PollConsistent(s, p);
    assert Deletes(p, t, s.rows[t]);
    if t !in p.blocked && t !in s.gone && !Closed(s, t) {
      assert Released(s, p.rows, t);
      var e :| IsLive(s, e, t);
      assert e in s.outbound && s.outbound[e].id == t;
    }
  }

  lemma RowsOnlyLeaveByDelete(s: World, step: Step, t: TaskId)
    requires Enabled(s, step) && !(step.OfPoll? && step.poll.DeleteRows?) && t in s.rows
    ensures t in Apply(s, step).rows
  {
    if step.OfPoll? {
      PollRows(s, step.poll);
    } else if !step.Wipe? {
      StepFrame(s, step);
    }
  }

  /** Whenever a rebuild, whatever its pages, is about to set the sentinel, every parked task the protocol answers for has a
    * member or an event of its own, is on a stream, or needs neither. */
  lemma RebuildRestoresEveryRow(steps: seq<Step>, a: ActorId, t: TaskId)
    requires Run(Init(), steps) && Enabled(After(Init(), steps), OfRebuild(SetSentinel(a)))
    ensures var s := After(Init(), steps);
            t in s.rows && t in s.known ==> Triggered(s, t) || PendingOnStream(s, t) || Closed(s, t)
  {
    Reachable(steps);
    var s := After(Init(), steps);
    if t in s.rows && t in s.known {
      SentinelNeedsBacking(s, a, t);
      BackedIsFound(s, t, s.wipedAt);
    }
  }
}
