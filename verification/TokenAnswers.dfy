/** What a request of the token limiter can count on (src/rate-limiter/api-rate-limiter.ts): it gets its answer, a state
  * has one lease at a time, and Redis runs each lease once at most. Results about the runs of TokenConservation. */
module TokenAnswers {
  import opened ApiRateLimiter
  import opened LeaseScript
  import opened TokenConservation
  import opened TokenWaits
  import opened Wrappers

  // ---------------------------------------------------------------- every request is answered

  lemma {:induction false} RunsOn(c: Config, s: World, first: seq<Step>, second: seq<Step>)
    requires c.window > 0 && IsRun(c, s, first) && IsRun(c, After(c, s, first), second)
    ensures IsRun(c, s, first + second) && After(c, s, first + second) == After(c, After(c, s, first), second)
    decreases |first|
  {
    hide Enabled, Apply;
    if first == [] {
      assert first + second == second;
    } else {
      RunsOn(c, Apply(c, s, first[0]), first[1..], second);
      assert (first + second)[1..] == first[1..] + second;
    }
  }

  lemma TwoSteps(c: Config, s: World, first: Step, t: World, second: Step, u: World)
    requires c.window > 0 && Enabled(c, s, first) && t == Apply(c, s, first) && Enabled(c, t, second) && u == Apply(c, t, second)
    ensures IsRun(c, s, [first, second]) && After(c, s, [first, second]) == u
  {
    hide Enabled, Apply;
    assert IsRun(c, u, []) && After(c, u, []) == u;
    assert [second][1..] == [];
    assert IsRun(c, t, [second]) && After(c, t, [second]) == u;
    assert [first, second][1..] == [second];
  }

  /** Request `w` has come to a new state, and waits on that state's first lease. */
  ghost predicate Arrived(c: Config, s: World, t: World, limit: nat, w: nat)
    requires c.window > 0
  {
    var i, l, b, batch := |s.states|, |s.calls|, Bucket(s.store.now, c.window), CalculateTokenBatchSize(limit, c.maxBatch);
    t == World(s.store, s.states + [Local(b, 0, batch, Some(l))], s.calls + [Call(i, s.store.now, limit, batch, Asked)],
               s.waiters[w := Waiter(i, s.store.now, limit, l)], s.ledger)
  }

  lemma Arrives(c: Config, s: World, limit: nat, w: nat) returns (t: World)
    requires c.window > 0 && 0 < limit <= c.limit && w !in s.waiters
    ensures IsRun(c, s, [NewState(limit), Check(|s.states|, limit, w)])
    ensures t == After(c, s, [NewState(limit), Check(|s.states|, limit, w)]) && Arrived(c, s, t, limit, w)
  {
    hide Bucket, CalculateTokenBatchSize;
    var made := Apply(c, s, NewState(limit));
    t := Apply(c, made, Check(|s.states|, limit, w));
    assert t.states == s.states + [t.states[|s.states|]];
    TwoSteps(c, s, NewState(limit), made, Check(|s.states|, limit, w), t);
  }

  function Observed(c: Config, s: World): (n: nat)
    requires c.window > 0
  {
    if Bucket(s.store.now, c.window) == c.bucket then 1 else 0
  }

  lemma Answers(c: Config, s: World, t: World, limit: nat, w: nat, estimated: int) returns (u: World)
    requires c.window > 0 && c.maxBatch > 0 && 0 < limit && Arrived(c, s, t, limit, w)
    requires EstimateOf(s.store, s.store.now, c.window, estimated)
    ensures IsRun(c, t, [TokenConservation.Answer(|s.calls|, estimated), Deliver(|s.calls|)])
    ensures u == After(c, t, [TokenConservation.Answer(|s.calls|, estimated), Deliver(|s.calls|)])
    ensures |u.states| == |s.states| + 1 && |u.calls| == |s.calls| + 1 && u.waiters == t.waiters
    ensures u.ledger.admitted == s.ledger.admitted && u.calls[|s.calls|].phase.Done?
    ensures u.states[|s.states|].bucket == Bucket(s.store.now, c.window)
    ensures u.states[|s.states|].tokens == u.calls[|s.calls|].phase.value
    ensures u.calls[|s.calls|].phase.value > 0 <==> estimated < limit
  {
    hide Bucket, EstimateOf, CalculateTokenBatchSize;
    var answered := Apply(c, t, TokenConservation.Answer(|s.calls|, estimated));
    u := Apply(c, answered, Deliver(|s.calls|));
    TwoSteps(c, t, TokenConservation.Answer(|s.calls|, estimated), answered, Deliver(|s.calls|), u);
  }

  lemma Concludes(c: Config, s: World, u: World, limit: nat, w: nat)
    requires c.window > 0 && w in u.waiters && u.waiters[w] == Waiter(|s.states|, s.store.now, limit, |s.calls|)
    requires |u.states| == |s.states| + 1 && |u.calls| == |s.calls| + 1 && u.calls[|s.calls|].phase.Done?
    requires u.states[|s.states|].bucket == Bucket(s.store.now, c.window)
    requires u.states[|s.states|].tokens == u.calls[|s.calls|].phase.value
    ensures IsRun(c, u, [Continue(w)])
    ensures var v := After(c, u, [Continue(w)]);
      && w !in v.waiters
      && v.ledger.admitted == u.ledger.admitted + if u.calls[|s.calls|].phase.value > 0 then Observed(c, s) else 0
  {
    hide Bucket;
    var v := Apply(c, u, Continue(w));
    assert [Continue(w)][1..] == [];
    assert IsRun(c, v, []) && After(c, v, []) == v;
  }

  /** From every reachable state a newcomer gets its answer once the script has run for it: it is admitted exactly if the
    * estimate is below the limit. */
  lemma NewcomersAreAnswered(c: Config, s: World, limit: nat, w: nat, estimated: int)
    requires c.window > 0 && c.maxBatch > 0 && 0 < limit <= c.limit && w !in s.waiters
    requires EstimateOf(s.store, s.store.now, c.window, estimated)
    ensures var l := |s.calls|;
      var steps := [NewState(limit), Check(|s.states|, limit, w)] +
                   ([TokenConservation.Answer(l, estimated), Deliver(l)] + [Continue(w)]);
      && IsRun(c, s, steps)
      && w !in After(c, s, steps).waiters
      && After(c, s, steps).ledger.admitted == s.ledger.admitted + if estimated < limit then Observed(c, s) else 0
  {
    hide IsRun, After, EstimateOf, Observed;
    var t := Arrives(c, s, limit, w);
    var u := Answers(c, s, t, limit, w, estimated);
    Concludes(c, s, u, limit, w);
    RunsOn(c, t, [TokenConservation.Answer(|s.calls|, estimated), Deliver(|s.calls|)], [Continue(w)]);
    RunsOn(c, s, [NewState(limit), Check(|s.states|, limit, w)],
           [TokenConservation.Answer(|s.calls|, estimated), Deliver(|s.calls|)] + [Continue(w)]);
  }

  lemma Breaks(c: Config, s: World, t: World, limit: nat, w: nat) returns (u: World)
    requires c.window > 0 && c.maxBatch > 0 && 0 < limit && Arrived(c, s, t, limit, w)
    ensures IsRun(c, t, [Break(|s.calls|)]) && u == After(c, t, [Break(|s.calls|)])
    ensures |u.states| == |s.states| + 1 && |u.calls| == |s.calls| + 1 && u.waiters == t.waiters && u.store == s.store
    ensures u.ledger.admitted == s.ledger.admitted
    ensures u.calls[|s.calls|].phase.Done? && u.calls[|s.calls|].phase.owed && u.calls[|s.calls|].phase.value > 0
    ensures u.calls[|s.calls|].askedAt == s.store.now
    ensures u.states[|s.states|].bucket == Bucket(s.store.now, c.window)
    ensures u.states[|s.states|].tokens == u.calls[|s.calls|].phase.value
  {
    hide Bucket;
    u := Apply(c, t, Break(|s.calls|));
    assert [Break(|s.calls|)][1..] == [];
    assert IsRun(c, u, []) && After(c, u, []) == u;
  }

  /** If its lease fails instead, the newcomer is admitted, and Redis may still run the command it gave up on. */
  lemma FailuresAdmit(c: Config, s: World, limit: nat, w: nat, estimated: int)
    requires c.window > 0 && c.maxBatch > 0 && 0 < limit <= c.limit && w !in s.waiters
    requires EstimateOf(s.store, s.store.now, c.window, estimated)
    ensures var l := |s.calls|;
      var steps := [NewState(limit), Check(|s.states|, limit, w)] + ([Break(l)] + [Continue(w)]);
      && IsRun(c, s, steps)
      && w !in After(c, s, steps).waiters
      && After(c, s, steps).ledger.admitted == s.ledger.admitted + Observed(c, s)
      && Enabled(c, After(c, s, steps), Late(l, estimated))
  {
    var t := Arrives(c, s, limit, w);
    var u := Breaks(c, s, t, limit, w);
    LateStaysOpen(c, s, u, w, estimated);
    Concludes(c, s, u, limit, w);
    hide IsRun, After, EstimateOf, Observed, Enabled;
    RunsOn(c, t, [Break(|s.calls|)], [Continue(w)]);
    RunsOn(c, s, [NewState(limit), Check(|s.states|, limit, w)], [Break(|s.calls|)] + [Continue(w)]);
  }

  lemma LateStaysOpen(c: Config, s: World, u: World, w: nat, estimated: int)
    requires c.window > 0 && |u.calls| == |s.calls| + 1 && u.store == s.store && Enabled(c, u, Continue(w))
    requires u.calls[|s.calls|].phase.Done? && u.calls[|s.calls|].phase.owed && u.calls[|s.calls|].askedAt == s.store.now
    requires EstimateOf(s.store, s.store.now, c.window, estimated)
    ensures IsRun(c, u, [Continue(w)]) && Enabled(c, After(c, u, [Continue(w)]), Late(|s.calls|, estimated))
  {
    hide Bucket, EstimateOf;
    var v := Apply(c, u, Continue(w));
    assert [Continue(w)][1..] == [];
    assert IsRun(c, v, []) && After(c, v, []) == v;
  }

  // ---------------------------------------------------------------- each command runs once

  function Executions(steps: seq<Step>, l: nat): (n: nat) {
    if steps == [] then 0
    else (if RunsScript(steps[0]) && steps[0].l == l then 1 else 0) + Executions(steps[1..], l)
  }

  /** Redis has not run the command of this lease. */
  predicate Unrun(s: World, l: nat) {
    l >= |s.calls| || s.calls[l].phase.Asked? || (s.calls[l].phase.Done? && s.calls[l].phase.owed)
  }

  lemma StepRunsOnce(c: Config, s: World, step: Step, l: nat)
    requires c.window > 0 && Enabled(c, s, step)
    ensures RunsScript(step) && step.l == l ==> Unrun(s, l) && !Unrun(Apply(c, s, step), l)
    ensures !Unrun(s, l) ==> !Unrun(Apply(c, s, step), l)
  {
    hide Executes, Executed, Bucket, Settle;
  }

  lemma {:induction false} RunRunsOnce(c: Config, s: World, steps: seq<Step>, l: nat)
    requires c.window > 0 && IsRun(c, s, steps)
    ensures Executions(steps, l) <= if Unrun(s, l) then 1 else 0
    decreases |steps|
  {
    if steps != [] {
      hide Enabled, Apply, Unrun;
      StepRunsOnce(c, s, steps[0], l);
      RunRunsOnce(c, Apply(c, s, steps[0]), steps[1..], l);
    }
  }

  /** In every run, Redis runs the script at most once for a lease, whether its caller waits for the answer, gets it, or gave
    * up. */
  lemma ScriptRunsOnce(c: Config, now: nat, steps: seq<Step>, l: nat)
    requires c.window > 0 && IsRun(c, Init(now), steps)
    ensures Executions(steps, l) <= 1
  {
    RunRunsOnce(c, Init(now), steps, l);
  }

  // ---------------------------------------------------------------- one lease at a time

  /** A lease that has not resolved is for a bucket its state has left, or it is the one in flight. */
  ghost predicate FlightKnown(c: Config, s: World, l: nat)
    requires c.window > 0 && l < |s.calls|
  {
    !s.calls[l].phase.Done? ==>
      && s.calls[l].owner < |s.states|
      && var i := s.states[s.calls[l].owner];
         || Bucket(s.calls[l].askedAt, c.window) < i.bucket
         || (Bucket(s.calls[l].askedAt, c.window) == i.bucket && i.inFlight == Some(l))
  }

  ghost predicate Single(c: Config, s: World)
    requires c.window > 0
  {
    && (forall l :: 0 <= l < |s.calls| ==> FlightKnown(c, s, l))
    && (forall i :: 0 <= i < |s.states| ==> s.states[i].bucket <= Bucket(s.store.now, c.window))
  }

  lemma TimeKeepsBuckets(now: nat, ms: nat, window: nat)
    requires window > 0
    ensures Bucket(now, window) <= Bucket(now + ms, window)
  {
    BucketBounds(now, window);
    BucketBounds(now + ms, window);
    var gap := Bucket(now + ms, window) + 1 - Bucket(now, window);
    assert gap * window == (Bucket(now + ms, window) + 1) * window - Bucket(now, window) * window;
  }

  lemma TurnKeepsSingle(c: Config, s: World, i: nat, askedAt: nat, limit: nat, w: nat, t: Turn)
    requires c.window > 0 && Single(c, s) && i < |s.states|
    requires TurnFits(s.states[i], Bucket(askedAt, c.window), |s.calls|, t)
    requires s.states[i].bucket <= t.local.bucket <= Bucket(s.store.now, c.window)
    requires t.started && t.local.bucket == s.states[i].bucket ==> s.states[i].inFlight.None?
    ensures Single(c, TakeTurn(c, s, i, askedAt, limit, w, t))
  {
    hide Bucket;
    var u := TakeTurn(c, s, i, askedAt, limit, w, t);
    forall l | 0 <= l < |u.calls|
      ensures FlightKnown(c, u, l)
    {
      if l < |s.calls| {
        assert FlightKnown(c, s, l);
      }
    }
  }

  lemma TurnsKeepSingle(c: Config, s: World, step: Step)
    requires c.window > 0 && Linked(c, s) && Single(c, s) && Enabled(c, s, step) && (step.Check? || step.Continue?)
    ensures Single(c, Apply(c, s, step))
  {
    var i := if step.Check? then step.i else s.waiters[step.w].owner;
    NotInFlightYet(c, s, i);
    hide Linked, TakeTurn, Bucket, CalculateTokenBatchSize;
    if step.Check? {
      var bucket, batch := Bucket(s.store.now, c.window), CalculateTokenBatchSize(step.limit, c.maxBatch);
      BeginExactly(s.states[i], bucket, batch, |s.calls|);
      TurnKeepsSingle(c, s, i, s.store.now, step.limit, step.w, Begin(s.states[i], bucket, batch, |s.calls|));
    } else {
      var x := s.waiters[step.w];
      var bucket, granted := Bucket(x.askedAt, c.window), s.calls[x.lease].phase.value;
      ResumeExactly(s.states[i], bucket, granted, |s.calls|);
      TurnKeepsSingle(c, s, i, x.askedAt, x.limit, step.w, Resume(s.states[i], bucket, granted, |s.calls|));
    }
  }

  lemma ConcludeKeepsSingle(c: Config, s: World, l: nat, credit: nat, phase: Phase)
    requires c.window > 0 && Single(c, s) && l < |s.calls| && s.calls[l].owner < |s.states| && phase.Done?
    ensures Single(c, Conclude(c, s, l, credit, phase))
  {
    hide Bucket;
    var t := Conclude(c, s, l, credit, phase);
    forall k | 0 <= k < |t.calls|
      ensures FlightKnown(c, t, k)
    {
      assert FlightKnown(c, s, k);
    }
  }

  /** Nothing changes but the clock, which goes on, the store, the ledger, and what the script answered. */
  lemma QuietKeepsSingle(c: Config, s: World, t: World)
    requires c.window > 0 && Single(c, s) && t.states == s.states && |t.calls| == |s.calls| && s.store.now <= t.store.now
    requires forall l :: 0 <= l < |s.calls| ==>
      t.calls[l] == s.calls[l].(phase := t.calls[l].phase) && (s.calls[l].phase.Done? ==> t.calls[l].phase.Done?)
    ensures Single(c, t)
  {
    TimeKeepsBuckets(s.store.now, t.store.now - s.store.now, c.window);
    hide Bucket;
    forall l | 0 <= l < |t.calls|
      ensures FlightKnown(c, t, l)
    {
      assert FlightKnown(c, s, l);
    }
  }

  lemma NewStateKeepsSingle(c: Config, s: World, limit: nat)
    requires c.window > 0 && Single(c, s) && Enabled(c, s, NewState(limit))
    ensures Single(c, Apply(c, s, NewState(limit)))
  {
    hide Bucket;
    var t := Apply(c, s, NewState(limit));
    forall l | 0 <= l < |t.calls|
      ensures FlightKnown(c, t, l)
    {
      assert FlightKnown(c, s, l);
    }
  }

  lemma StepKeepsSingle(c: Config, s: World, step: Step)
    requires c.window > 0 && Linked(c, s) && Single(c, s) && Enabled(c, s, step)
    ensures Single(c, Apply(c, s, step))
  {
    hide Linked, Single, Executes, Conclude, Begin, Resume;
    match step
    case NewState(limit) => NewStateKeepsSingle(c, s, limit);
    case Check(_, _, _) => TurnsKeepSingle(c, s, step);
    case Continue(_) => TurnsKeepSingle(c, s, step);
    case Deliver(l) => ConcludeKeepsSingle(c, s, l, s.calls[l].phase.granted, Done(s.calls[l].phase.granted, false));
    case Break(l) =>
      var call := s.calls[l];
      var failed := Conclude(c, s, l, call.requested, Done(call.requested, call.phase.Asked?));
      ConcludeKeepsSingle(c, s, l, call.requested, Done(call.requested, call.phase.Asked?));
      QuietKeepsSingle(c, failed, Apply(c, s, step));
    case _ => QuietKeepsSingle(c, s, Apply(c, s, step));
  }

  lemma {:induction false} RunKeepsSingle(c: Config, s: World, steps: seq<Step>)
    requires c.window > 0 && Inv(c, s) && Linked(c, s) && Single(c, s) && IsRun(c, s, steps)
    ensures Linked(c, After(c, s, steps)) && Single(c, After(c, s, steps))
    decreases |steps|
  {
    if steps != [] {
      InvHasWired(c, s);
      hide Inv, Linked, Single, Apply, Enabled, Wired;
      StepKeepsLinked(c, s, steps[0]);
      StepKeepsSingle(c, s, steps[0]);
      TokenConservation.StepKeepsInv(c, s, steps[0]);
      RunKeepsSingle(c, Apply(c, s, steps[0]), steps[1..]);
    }
  }

  /** In every run, of the leases that a state has asked for and that have not resolved, at most one is for its present
    * bucket: the one in flight, on which all its requests wait. */
  lemma OneLeaseAtATime(c: Config, now: nat, steps: seq<Step>, l: nat)
    requires c.window > 0 && IsRun(c, Init(now), steps)
    requires var s := After(c, Init(now), steps); l < |s.calls| && !s.calls[l].phase.Done?
    ensures var s := After(c, Init(now), steps); var call := s.calls[l];
      && call.owner < |s.states|
      && (s.states[call.owner].inFlight == Some(l) <==> s.states[call.owner].bucket == Bucket(call.askedAt, c.window))
  {
    RunKeepsSingle(c, Init(now), steps);
    var s := After(c, Init(now), steps);
    assert FlightKnown(c, s, l) && FlightOk(c, s, s.calls[l].owner);
  }
}
