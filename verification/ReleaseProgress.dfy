/** The other half of not losing a task: from every reachable state of the release protocol, every task it answers for, and
  * every order still on its way in, can go on until it is sent. */
module ReleaseProgress {
  import opened Counting
  import opened Punctuality
  import opened ReleaseInvariant
  import opened ReleaseBacking
  import opened ReleaseProtocol
  import opened ReleaseRuns
  import opened ReleaseSafety

  /** The run has the task accepted by a provider and marked completed, and its entry acked. */
  ghost predicate Sends(s: World, steps: seq<Step>, t: TaskId) {
    Run(s, steps) && t in After(s, steps).accepted && t in After(s, steps).completed
  }

  lemma SendsAfter(s: World, first: seq<Step>, steps: seq<Step>, t: TaskId)
    requires Run(s, first) && Sends(After(s, first), steps, t)
    ensures Sends(s, first + steps, t)
  {
    RunConcat(s, first, steps);
  }

  lemma TakesAndCloses(s: World, e: EntryId, a: ActorId) returns (u: World)
    requires e in s.outbound && a !in s.handlers
    ensures Run(s, [OfDelivery(Take(a, e)), OfDelivery(Close(a, Accept))])
    ensures u == After(s, [OfDelivery(Take(a, e)), OfDelivery(Close(a, Accept))])
    ensures u == s.(accepted := s.accepted + {s.outbound[e].id}, settled := s.settled + {e},
                    handlers := s.handlers[a := Finished(e, s.outbound[e])])
  {
    var taken := DeliveryApply(s, Take(a, e));
    u := DeliveryApply(taken, Close(a, Accept));
    var steps := RunTwo(s, OfDelivery(Take(a, e)), taken, OfDelivery(Close(a, Accept)), u);
  }

  lemma MarksAndAcks(s: World, a: ActorId) returns (u: World)
    requires a in s.handlers && s.handlers[a].Finished? && s.handlers[a].task.id in s.accepted
    ensures Run(s, [OfDelivery(MarkCompleted(a)), OfDelivery(Ack(a))])
    ensures u == After(s, [OfDelivery(MarkCompleted(a)), OfDelivery(Ack(a))])
    ensures u == s.(completed := s.completed + {s.handlers[a].task.id}, outbound := s.outbound - {s.handlers[a].entry},
                    handlers := s.handlers - {a})
  {
    var marked := DeliveryApply(s, MarkCompleted(a));
    u := DeliveryApply(marked, Ack(a));
    var steps := RunTwo(s, OfDelivery(MarkCompleted(a)), marked, OfDelivery(Ack(a)), u);
  }

  /** An entry on a stream is taken by a new handler, accepted, marked completed and acked. */
  lemma FromStream(s: World, e: EntryId) returns (steps: seq<Step>)
    requires e in s.outbound
    ensures Sends(s, steps, s.outbound[e].id) && e !in After(s, steps).outbound
  {
    var a := Unused(s.handlers.Keys);
    var sent := TakesAndCloses(s, e, a);
    var acked := MarksAndAcks(sent, a);
    var first := [OfDelivery(Take(a, e)), OfDelivery(Close(a, Accept))];
    var second := [OfDelivery(MarkCompleted(a)), OfDelivery(Ack(a))];
    hide Run, After;
    RunConcat(s, first, second);
    steps := first + second;
  }

  /** A poll that may publish the task does, and the entry is sent. */
  lemma FromPublishing(s: World, a: ActorId, t: TaskId) returns (steps: seq<Step>)
    requires Inv(s) && Enabled(s, OfPoll(PublishOne(a, t)))
    ensures Sends(s, steps, t)
  {
    var u := PollApply(s, PublishOne(a, t));
    assert u.outbound[s.next].id == t by {
      assert PollConsistent(s, s.polls[a]);
    }
    steps := FromStream(u, s.next);
    hide Inv, Sends, PollApply, Run, After;
    RunOfOne(s, OfPoll(PublishOne(a, t)), u);
    SendsAfter(s, [OfPoll(PublishOne(a, t))], steps, t);
    steps := [OfPoll(PublishOne(a, t))] + steps;
  }

  lemma RunOfOne(s: World, step: Step, u: World)
    requires Enabled(s, step) && u == Apply(s, step)
    ensures Run(s, [step]) && After(s, [step]) == u
  {
    RunNil(u);
    RunCons(s, step, u, []);
    assert [step] + [] == [step];
  }

  lemma FromEarlyRelease(s: World, first: seq<Step>, t: TaskId, ms: nat) returns (steps: seq<Step>)
    requires Inv(s) && ReleasesEarly(s, first, t, ms)
    ensures Sends(s, steps, t)
  {
    InvAlways(s, first);
    var u := After(s, first);
    var a :| Enabled(u, OfPoll(PublishOne(a, t)));
    hide Inv, Sends, Enabled;
    steps := FromPublishing(u, a, t);
    SendsAfter(s, first, steps, t);
    steps := first + steps;
  }

  /** A parked task with a member or an event of its own. */
  lemma FromTriggered(s: World, t: TaskId) returns (steps: seq<Step>)
    requires Inv(s) && t in s.rows && Triggered(s, t)
    ensures Sends(s, steps, t)
  {
    hide Inv, Sends;
    var ms: nat;
    if m :| m in s.members && m.task == t {
      ms := s.members[m] + s.now + 1;
      assert EarlyMember(s, m, t, ms);
    } else {
      var ev :| ev in s.scheduled && s.scheduled[ev].task == t;
      ms := s.scheduled[ev].sendMs + s.now + 1;
      assert EarlyEvent(s, ev, t, ms);
    }
    hide ReleasesEarly;
    var first := FromLeftover(s, t, ms);
    steps := FromEarlyRelease(s, first, t, ms);
  }

  /** A parked task without either, which the missing sentinel leaves to a rebuild. */
  lemma FromRebuild(s: World, t: TaskId) returns (steps: seq<Step>)
    requires Inv(s) && t in s.rows && !Triggered(s, t) && !s.sentinel
    ensures Sends(s, steps, t)
  {
    var a := Unused(s.rebuilds.Keys);
    var started := RebuildApply(s, StartRebuild(a));
    var u := RebuildApply(started, ReadPage(a, 0, true));
    var first := [OfRebuild(StartRebuild(a)), OfRebuild(ReadPage(a, 0, true))];
    first := RunTwo(s, first[0], started, first[1], u);
    var ms := s.rows[t].sendAt.ms + s.now + 1;
    assert EarlyPending(u, a, t, ms);
    InvAlways(s, first);
    hide Inv, Sends, Run, After, RebuildApply, Leftover;
    var later := FromPending(u, a, t, ms);
    steps := FromEarlyRelease(u, later, t, ms);
    SendsAfter(s, first, steps, t);
    steps := first + steps;
  }

  /** No task is stuck: from every reachable state, whatever has crashed and whatever a wipe has taken, each task that the
    * protocol answers for and that is not closed can still be sent. */
  lemma EveryTaskCanBeSent(before: seq<Step>, t: TaskId) returns (steps: seq<Step>)
    requires Run(Init(), before)
    requires var s := After(Init(), before); t in s.known && !Closed(s, t)
    ensures Sends(After(Init(), before), steps, t)
  {
    Reachable(before);
    var s := After(Init(), before);
    InvMeansNotLost(s, t);
    hide Inv, Sends, Triggered;
    if e :| e in s.outbound && s.outbound[e].id == t {
      steps := FromStream(s, e);
    } else if Triggered(s, t) {
      steps := FromTriggered(s, t);
    } else {
      steps := FromRebuild(s, t);
    }
  }

  lemma Dispatched(s: World, t: TaskId, a: ActorId) returns (steps: seq<Step>, u: World)
    requires t in s.upstream && a !in s.engines
    ensures Run(s, steps) && u == After(s, steps)
    ensures s.next in u.outbound && u.outbound[s.next] == s.upstream[t].task
  {
    var free := EngineApply(s, MarkerExpires(t));
    var taken := EngineApply(free, TakeOrder(a, t));
    var sent := EngineApply(taken, EngineStep.Dispatch(a));
    u := EngineApply(sent, AckOrder(a));
    hide Run, After;
    var first := RunTwo(s, OfEngine(MarkerExpires(t)), free, OfEngine(TakeOrder(a, t)), taken);
    var second := RunTwo(taken, OfEngine(EngineStep.Dispatch(a)), sent, OfEngine(AckOrder(a)), u);
    RunConcat(s, first, second);
    steps := first + second;
  }

  /** Nor is an order: while it is on its stream a task can be taken by the engine, dispatched, and sent. */
  lemma EveryOrderCanBeSent(before: seq<Step>, t: TaskId) returns (steps: seq<Step>)
    requires Run(Init(), before) && t in After(Init(), before).upstream
    ensures Sends(After(Init(), before), steps, t)
  {
    Reachable(before);
    var s := After(Init(), before);
    assert s.upstream[t].task.id == t;
    hide Inv, Run, After, Sends;
    var a := Unused(s.engines.Keys);
    var first, u := Dispatched(s, t, a);
    var second := FromStream(u, s.next);
    SendsAfter(s, first, second, t);
    steps := first + second;
  }

  // ---------------------------------------------------------------- duplicates

  /** An entry whose handler has died goes to another one, who sends it. */
  lemma ADeadHandlersEntryIsSent(s: World, a: ActorId) returns (steps: seq<Step>)
    requires a in s.handlers && s.handlers[a].entry in s.outbound
    ensures var e := s.handlers[a].entry;
      steps != [] && steps[0] == OfDelivery(Abandon(a)) && Sends(s, steps, s.outbound[e].id) && e !in After(s, steps).outbound
  {
    var u := DeliveryApply(s, Abandon(a));
    steps := FromStream(u, s.handlers[a].entry);
    RunCons(s, OfDelivery(Abandon(a)), u, steps);
    steps := [OfDelivery(Abandon(a))] + steps;
  }

  /** An entry of a completed task is acked without being sent or parked again. */
  lemma DuplicatesAreDropped(s: World, e: EntryId) returns (steps: seq<Step>)
    requires e in s.outbound && s.outbound[e].id in s.completed
    ensures Run(s, steps) && After(s, steps) == s.(outbound := s.outbound - {e}, settled := s.settled + {e})
  {
    var a := Unused(s.handlers.Keys);
    var taken := DeliveryApply(s, Take(a, e));
    var found := DeliveryApply(taken, DuplicateOfCompleted(a));
    var acked := DeliveryApply(found, Ack(a));
    assert acked.handlers == s.handlers;
    hide Run, After;
    var rest := RunTwo(taken, OfDelivery(DuplicateOfCompleted(a)), found, OfDelivery(Ack(a)), acked);
    RunCons(s, OfDelivery(Take(a, e)), taken, rest);
    steps := [OfDelivery(Take(a, e))] + rest;
  }

  /** Once the marker of a completed task has expired, no handler takes an entry of it for a duplicate any more. */
  lemma ForgottenTasksAreNoDuplicates(s: World, t: TaskId, a: ActorId)
    requires a in s.handlers && s.handlers[a].task.id == t
    ensures Enabled(s, OfDelivery(ForgetCompleted(t)))
    ensures !Enabled(Apply(s, OfDelivery(ForgetCompleted(t))), OfDelivery(DuplicateOfCompleted(a)))
    ensures Apply(s, OfDelivery(ForgetCompleted(t))) == s.(completed := s.completed - {t})
  {
  }

  // ---------------------------------------------------------------- the visibility timeout

  /** A step that writes or removes the member, other than a claim. */
  predicate Rewrites(s: World, step: Step, m: Member) {
    || step.Wipe?
    || (step.OfConsumer? && step.consumer.AddMember? && step.consumer.ev in s.scheduled
        && m == Member(s.scheduled[step.consumer.ev].task, Traced(s.scheduled[step.consumer.ev].tag)))
    || (step.OfRebuild? && step.rebuild.RestoreMember? && m == Member(step.rebuild.t, Rebuilt))
    || (step.OfPoll? && step.poll.RemoveMember? && m == step.poll.m)
  }

  ghost predicate Unwritten(s: World, steps: seq<Step>, m: Member)
    requires Run(s, steps)
    decreases |steps|
  {
    steps == [] || (!Rewrites(s, steps[0], m) && Unwritten(Apply(s, steps[0]), steps[1..], m))
  }

  ghost predicate Hidden(s: World, after: World, m: Member) {
    s.now <= after.now && (m in s.members ==> m in after.members && s.members[m] <= after.members[m])
  }

  lemma EngineHides(s: World, step: EngineStep, m: Member)
    requires EngineEnabled(s, step)
    ensures Hidden(s, EngineApply(s, step), m)
  {
  }

  lemma DeliveryHides(s: World, step: DeliveryStep, m: Member)
    requires DeliveryEnabled(s, step)
    ensures Hidden(s, DeliveryApply(s, step), m)
  {
  }

  lemma PollHides(s: World, step: PollStep, m: Member)
    requires PollEnabled(s, step) && !Rewrites(s, OfPoll(step), m)
    ensures Hidden(s, PollApply(s, step), m)
  {
    hide Deletes, ToPublish;
  }

  lemma ConsumerHides(s: World, step: ConsumerStep, m: Member)
    requires ConsumerEnabled(s, step) && !Rewrites(s, OfConsumer(step), m)
    ensures Hidden(s, ConsumerApply(s, step), m)
  {
  }

  lemma RebuildHides(s: World, step: RebuildStep, m: Member)
    requires RebuildEnabled(s, step) && !Rewrites(s, OfRebuild(step), m)
    ensures Hidden(s, RebuildApply(s, step), m)
  {
    hide PageOf;
  }

  lemma WipeRewrites(s: World, m: Member)
    ensures Rewrites(s, Wipe, m)
  {
  }

  lemma StepKeepsHidden(s: World, step: Step, m: Member)
    requires Enabled(s, step) && !Rewrites(s, step, m)
    ensures Hidden(s, Apply(s, step), m)
  {
    hide EngineApply, DeliveryApply, PollApply, ConsumerApply, RebuildApply, EngineEnabled, DeliveryEnabled, PollEnabled,
         ConsumerEnabled, RebuildEnabled, Rewrites, Survives;
    match step
    case Tick(_) =>
    case OfEngine(x) => EngineHides(s, x, m);
    case OfDelivery(x) => DeliveryHides(s, x, m);
    case OfPoll(x) => PollHides(s, x, m);
    case OfConsumer(x) => ConsumerHides(s, x, m);
    case OfRebuild(x) => RebuildHides(s, x, m);
    case Wipe => WipeRewrites(s, m);
  }

  lemma {:induction false} RunKeepsHidden(s: World, steps: seq<Step>, m: Member)
    requires Run(s, steps) && Unwritten(s, steps, m) && m in s.members
    ensures m in After(s, steps).members && s.members[m] <= After(s, steps).members[m]
    decreases |steps|
  {
    if steps != [] {
      hide Enabled, Apply, Rewrites;
      StepKeepsHidden(s, steps[0], m);
      RunKeepsHidden(Apply(s, steps[0]), steps[1..], m);
    }
  }

  /** What one poll has claimed no other poll claims in the next minute, unless the member is written anew or removed. */
  lemma ClaimsAreAMinuteApart(s: World, a: ActorId, due: set<Member>, steps: seq<Step>, b: ActorId, again: set<Member>, m: Member)
    requires PollEnabled(s, PollStep.Claim(a, due)) && m in due
    requires Run(PollApply(s, PollStep.Claim(a, due)), steps) && Unwritten(PollApply(s, PollStep.Claim(a, due)), steps, m)
    requires PollEnabled(After(PollApply(s, PollStep.Claim(a, due)), steps), PollStep.Claim(b, again)) && m in again
    ensures After(PollApply(s, PollStep.Claim(a, due)), steps).now >= s.now + 60_000
  {
    RunKeepsHidden(PollApply(s, PollStep.Claim(a, due)), steps, m);
  }

  /** And of a poll that died, after that minute, all of them. */
  lemma ADeadPollsClaimsReturn(s: World, a: ActorId, due: set<Member>, b: ActorId)
    requires PollEnabled(s, PollStep.Claim(a, due)) && b !in s.polls && a != b
    ensures Run(s, [OfPoll(PollStep.Claim(a, due)), Tick(60_000)])
    ensures Enabled(After(s, [OfPoll(PollStep.Claim(a, due)), Tick(60_000)]), OfPoll(PollStep.Claim(b, due)))
  {
    var claimed := PollApply(s, PollStep.Claim(a, due));
    var later := claimed.(now := s.now + 60_000);
    var steps := RunTwo(s, OfPoll(PollStep.Claim(a, due)), claimed, Tick(60_000), later);
  }
}
