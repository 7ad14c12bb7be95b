/** Exactly when the ack of a supposed duplicate order loses a task: the engine's marker still stands, and neither a stream
  * nor a rebuild has the task. */
module LateMarkers {
  import opened ReleaseProtocol
  import opened ReleaseBacking
  import opened ReleaseInvariant
  import opened ReleaseRuns
  import opened ReleaseSafety
  import opened WipeLosses

  // ---------------------------------------------------------------- a row without an event

  /** The rebuild has gone past the task and will not restore it. */
  predicate Passed(r: Rebuild, t: TaskId) {
    (r.exhausted || t < r.cursor) && t !in r.pending
  }

  predicate ToBeRebuilt(s: World, t: TaskId) {
    !s.sentinel && forall a :: a in s.rebuilds ==> !Passed(s.rebuilds[a], t)
  }

  /** The row has a member, or will be given one by every rebuild there is and, with the sentinel not set, by the next. */
  ghost predicate Reached(s: World, t: TaskId) {
    t in s.rows && ((exists m :: m in s.members && m.task == t) || ToBeRebuilt(s, t))
  }

  // ---------------------------------------------------------------- what a rebuild reaches is not lost

  lemma EngineReaches(s: World, step: EngineStep, t: TaskId)
    requires EngineEnabled(s, step) && Reached(s, t)
    ensures Reached(EngineApply(s, step), t)
  {
  }

  lemma DeliveryReaches(s: World, step: DeliveryStep, t: TaskId)
    requires DeliveryEnabled(s, step) && Reached(s, t)
    ensures Reached(DeliveryApply(s, step), t)
  {
  }

  lemma ConsumerReaches(s: World, step: ConsumerStep, t: TaskId)
    requires ConsumerEnabled(s, step) && Reached(s, t)
    ensures Reached(ConsumerApply(s, step), t)
  {
  }

  lemma RebuildReaches(s: World, step: RebuildStep, t: TaskId)
    requires RebuildEnabled(s, step) && Reached(s, t)
    ensures Reached(RebuildApply(s, step), t)
  {
    var s' := RebuildApply(s, step);
    if m :| m in s.members && m.task == t {
      assert m in s'.members;
    } else if step == RestoreMember(step.a, t) {
      assert Member(t, Rebuilt) in s'.members;
    } else {
      RebuildPassesNone(s, step, t);
    }
  }

  lemma RebuildPassesNone(s: World, step: RebuildStep, t: TaskId)
    requires RebuildEnabled(s, step) && t in s.rows && ToBeRebuilt(s, t) && !(step.RestoreMember? && step.t == t)
    ensures ToBeRebuilt(RebuildApply(s, step), t)
  {
  }

  /** A poll removes the members of a task only once it has published or blocked it. */
  lemma PollReaches(s: World, step: PollStep, t: TaskId)
    requires Inv(s) && PollEnabled(s, step) && Reached(s, t) && t !in s.known && t !in s.gone
    ensures var s' := PollApply(s, step); t in s'.known || Reached(s', t)
  {
    hide Consistent, HandlersConsistent, EnginesConsistent, RebuildsConsistent, TasksSafe, Kept;
    if step.DeleteRows? || step.RemoveMember? {
      assert PollConsistent(s, s.polls[step.a]);
    }
    if step.DeleteRows? {
      DeletedIsKnown(s, step.a, t);
    } else if step.RemoveMember? && step.m.task == t {
      RemovedIsKnown(s, step.a, step.m);
    }
  }

  lemma DeletedIsKnown(s: World, a: ActorId, t: TaskId)
    requires PollEnabled(s, DeleteRows(a)) && PollConsistent(s, s.polls[a]) && t in s.rows && t !in s.known && t !in s.gone
    ensures var s' := PollApply(s, DeleteRows(a)); t in s'.known || t in s'.rows
  {
  }

  lemma RemovedIsKnown(s: World, a: ActorId, m: Member)
    requires PollEnabled(s, RemoveMember(a, m)) && PollConsistent(s, s.polls[a]) && m.task !in s.gone
    ensures m.task in s.known
  {
  }

  lemma StepReaches(s: World, step: Step, t: TaskId)
    requires Inv(s) && Enabled(s, step) && !step.Wipe? && Reached(s, t) && t !in s.known && t !in s.gone
    ensures t in Apply(s, step).known || Reached(Apply(s, step), t)
  {
    hide Inv, Reached, EngineApply, DeliveryApply, ConsumerApply, PollApply, RebuildApply;
    match step
    case Tick(ms) => TickReaches(s, ms, t);
    case OfEngine(x) => EngineReaches(s, x, t);
    case OfDelivery(x) => DeliveryReaches(s, x, t);
    case OfConsumer(x) => ConsumerReaches(s, x, t);
    case OfPoll(x) => PollReaches(s, x, t);
    case OfRebuild(x) => RebuildReaches(s, x, t);
  }

  lemma TickReaches(s: World, ms: nat, t: TaskId)
    requires Reached(s, t)
    ensures Reached(s.(now := s.now + ms), t)
  {
  }

  /** The task is answered for, or closed, or within reach of a rebuild. */
  ghost predicate Safe(s: World, t: TaskId) {
    t in s.known || (t !in s.gone && (Closed(s, t) || Reached(s, t)))
  }

  lemma StepStaysSafe(s: World, step: Step, t: TaskId)
    requires Inv(s) && Enabled(s, step) && !step.Wipe? && Safe(s, t)
    ensures Safe(Apply(s, step), t)
  {
    StepFrame(s, step);
    hide Inv, Reached, Apply, Enabled;
    if t !in s.known {
      if Closed(s, t) {
        StepKeepsClosed(s, step, t);
      } else {
        StepReaches(s, step, t);
      }
    }
  }

  lemma StepKeepsClosed(s: World, step: Step, t: TaskId)
    requires Enabled(s, step) && !step.Wipe? && Closed(s, t)
    ensures Closed(Apply(s, step), t)
  {
    hide EngineApply, DeliveryApply, ConsumerApply, PollApply, RebuildApply, Closed;
    match step
    case Tick(ms) => TickKeepsClosed(s, ms, t);
    case OfDelivery(x) => DeliveryKeepsClosed(s, x, t);
    case OfPoll(x) => PollKeepsClosed(s, x, t);
    case OfEngine(x) => EngineKeepsClosed(s, x, t);
    case OfRebuild(x) => RebuildKeepsClosed(s, x, t);
    case OfConsumer(x) => ConsumerKeepsClosed(s, x, t);
  }

  lemma TickKeepsClosed(s: World, ms: nat, t: TaskId)
    requires Closed(s, t)
    ensures Closed(s.(now := s.now + ms), t)
  {
  }

  lemma ConsumerKeepsClosed(s: World, step: ConsumerStep, t: TaskId)
    requires ConsumerEnabled(s, step) && Closed(s, t)
    ensures Closed(ConsumerApply(s, step), t)
  {
  }

  lemma PollKeepsClosed(s: World, step: PollStep, t: TaskId)
    requires PollEnabled(s, step) && Closed(s, t)
    ensures Closed(PollApply(s, step), t)
  {
  }

  lemma EngineKeepsClosed(s: World, step: EngineStep, t: TaskId)
    requires EngineEnabled(s, step) && Closed(s, t)
    ensures Closed(EngineApply(s, step), t)
  {
  }

  lemma RebuildKeepsClosed(s: World, step: RebuildStep, t: TaskId)
    requires RebuildEnabled(s, step) && Closed(s, t)
    ensures Closed(RebuildApply(s, step), t)
  {
  }

  lemma {:induction false} SafeIsNotLost(s: World, steps: seq<Step>, t: TaskId)
    requires Inv(s) && Run(s, steps) && WipeFree(steps) && Safe(s, t)
    ensures NotLost(After(s, steps), t)
    decreases |steps|
  {
    if steps == [] {
      if t in s.known {
        InvMeansNotLost(s, t);
      }
    } else {
      assert forall i :: 0 <= i < |steps[1..]| ==> steps[1..][i] == steps[i + 1];
      hide Inv, Safe, Apply, Enabled, NotLost;
      InvKept(s, steps[0]);
      StepStaysSafe(s, steps[0], t);
      SafeIsNotLost(Apply(s, steps[0]), steps[1..], t);
    }
  }

  // ---------------------------------------------------------------- what it has passed is

  ghost predicate Bare(s: World, t: TaskId) {
    !PendingOnStream(s, t) && !Triggered(s, t) && !Closed(s, t)
  }

  lemma RebuildLeavesBare(s: World, step: RebuildStep, t: TaskId)
    requires RebuildEnabled(s, step) && Bare(s, t) && !(step.RestoreMember? && step.t == t)
    ensures Bare(RebuildApply(s, step), t)
  {
  }

  /** The rebuild restores what it has read. */
  lemma {:induction false} Finishing(s: World, a: ActorId, t: TaskId) returns (steps: seq<Step>)
    requires a in s.rebuilds && t !in s.rebuilds[a].pending && Bare(s, t)
    ensures Run(s, steps) && WipeFree(steps)
    ensures var u := After(s, steps);
      a in u.rebuilds && u.rebuilds[a] == s.rebuilds[a].(pending := map[]) && Bare(u, t)
    decreases s.rebuilds[a].pending.Keys
  {
    hide Bare;
    var r := s.rebuilds[a];
    if r.pending == map[] {
      steps := [];
    } else {
      var v :| v in r.pending;
      var s1 := RebuildApply(s, RestoreMember(a, v));
      RebuildLeavesBare(s, RestoreMember(a, v), t);
      assert s1.rebuilds[a] == r.(pending := r.pending - {v});
      SmallerPending(r.pending, v);
      hide RebuildApply;
      steps := Finishing(s1, a, t);
      RunCons(s, OfRebuild(RestoreMember(a, v)), s1, steps);
      steps := [OfRebuild(RestoreMember(a, v))] + steps;
    }
  }

  /** It sets the sentinel, with the task left out. */
  lemma Sealing(s: World, a: ActorId, t: TaskId) returns (steps: seq<Step>)
    requires a in s.rebuilds && s.rebuilds[a].exhausted && t !in s.rebuilds[a].pending && Bare(s, t)
    ensures Run(s, steps) && WipeFree(steps) && !NotLost(After(s, steps), t)
  {
    var finish := Finishing(s, a, t);
    var u := After(s, finish);
    var v := RebuildApply(u, SetSentinel(a));
    RebuildLeavesBare(u, SetSentinel(a), t);
    assert !NotLost(v, t);
    hide NotLost, Bare;
    RunNil(v);
    RunCons(u, OfRebuild(SetSentinel(a)), v, []);
    RunConcat(s, finish, [OfRebuild(SetSentinel(a))] + []);
    steps := finish + ([OfRebuild(SetSentinel(a))] + []);
  }

  lemma PassedIsLost(s: World, a: ActorId, t: TaskId) returns (steps: seq<Step>)
    requires a in s.rebuilds && Passed(s.rebuilds[a], t) && Bare(s, t)
    ensures Run(s, steps) && WipeFree(steps) && !NotLost(After(s, steps), t)
  {
    hide Bare, NotLost;
    if s.rebuilds[a].exhausted {
      steps := Sealing(s, a, t);
    } else {
      var finish := Finishing(s, a, t);
      var u := After(s, finish);
      var page := ReadPage(a, u.rebuilds[a].cursor, true);
      var v := RebuildApply(u, page);
      RebuildLeavesBare(u, page, t);
      var seal := Sealing(v, a, t);
      RunCons(u, OfRebuild(page), v, seal);
      RunConcat(s, finish, [OfRebuild(page)] + seal);
      steps := finish + ([OfRebuild(page)] + seal);
    }
  }

  // ---------------------------------------------------------------- main result

  /** An order still on its way has not been through a wipe. */
  ghost predicate OrdersAreNew(s: World) {
    forall t :: t in s.upstream ==> t !in s.gone
  }

  lemma StepKeepsOrdersNew(s: World, step: Step)
    requires HistoryOk(s) && OrdersAreNew(s) && Enabled(s, step)
    ensures OrdersAreNew(Apply(s, step))
  {
    if !step.Wipe? {
      StepFrame(s, step);
      hide Apply, Enabled;
      if step.OfEngine? {
        AppliesEngine(s, step);
        EngineKeepsOrdersNew(s, step.engine);
      }
    }
  }

  lemma AppliesEngine(s: World, step: Step)
    requires Enabled(s, step) && step.OfEngine?
    ensures EngineEnabled(s, step.engine) && Apply(s, step) == EngineApply(s, step.engine)
  {
  }

  lemma EngineKeepsOrdersNew(s: World, step: EngineStep)
    requires HistoryOk(s) && OrdersAreNew(s) && EngineEnabled(s, step)
    ensures OrdersAreNew(EngineApply(s, step))
  {
  }

  lemma {:induction false} OrdersStayNew(s: World, steps: seq<Step>)
    requires Inv(s) && OrdersAreNew(s) && Run(s, steps)
    ensures OrdersAreNew(After(s, steps))
    decreases |steps|
  {
    if steps != [] {
      HistoryOf(s);
      hide Inv, OrdersAreNew, HistoryOk, Apply, Enabled;
      InvKept(s, steps[0]);
      StepKeepsOrdersNew(s, steps[0]);
      OrdersStayNew(Apply(s, steps[0]), steps[1..]);
    }
  }

  lemma UnannouncedIsBare(s: World, t: TaskId)
    requires Inv(s) && t !in s.known && t !in s.gone && !Closed(s, t) && !Reached(s, t)
    ensures Bare(s, t)
  {
    hide HandlersConsistent, EnginesConsistent, PollsConsistent, RebuildsConsistent, TasksSafe;
  }

  lemma UnreachedIsLost(s: World, t: TaskId) returns (steps: seq<Step>)
    requires Inv(s) && !Safe(s, t) && t !in s.gone
    ensures Run(s, steps) && WipeFree(steps) && !NotLost(After(s, steps), t)
  {
    UnannouncedIsBare(s, t);
    hide Inv;
    if t !in s.rows || s.sentinel {
      steps := [];
    } else {
      var a :| a in s.rebuilds && Passed(s.rebuilds[a], t);
      steps := PassedIsLost(s, a, t);
    }
  }

  /** In any reachable state in which an order is redelivered while the engine's marker still stands: acking it as a
    * duplicate can lose the task, short of a wipe, exactly if the task is on no stream's books, not closed, and without a
    * row that a rebuild has reached or will reach. */
  lemma DuplicateAckLosesExactly(before: seq<Step>, t: TaskId)
    requires Run(Init(), before) && Enabled(After(Init(), before), OfEngine(AckDuplicate(t)))
    ensures var s := After(Init(), before); var u := Apply(s, OfEngine(AckDuplicate(t)));
      (exists steps :: Run(u, steps) && WipeFree(steps) && !NotLost(After(u, steps), t)) <==>
      t !in s.known && !Closed(s, t) && !Reached(s, t)
  {
    Reachable(before);
    OrdersStayNew(Init(), before);
    var s := After(Init(), before);
    var u := Apply(s, OfEngine(AckDuplicate(t)));
    InvKept(s, OfEngine(AckDuplicate(t)));
    assert Safe(u, t) <==> t in s.known || Closed(s, t) || Reached(s, t) by {
      AckLeaves(s, t);
    }
    hide Inv, Safe, Reached;
    if Safe(u, t) {
      forall steps | Run(u, steps) && WipeFree(steps)
        ensures NotLost(After(u, steps), t)
      {
        SafeIsNotLost(u, steps, t);
      }
    } else {
      var steps := UnreachedIsLost(u, t);
    }
  }

  lemma AckLeaves(s: World, t: TaskId)
    requires EngineEnabled(s, AckDuplicate(t))
    ensures var u := EngineApply(s, AckDuplicate(t));
      u.known == s.known && u.gone == s.gone && (Closed(u, t) <==> Closed(s, t)) && (Reached(u, t) <==> Reached(s, t))
  {
  }
}
