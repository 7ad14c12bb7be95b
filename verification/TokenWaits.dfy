/** What a request of the token limiter waits for, and when it is refused (src/rate-limiter/api-rate-limiter.ts:94-169):
  * never while its lease may still answer, and never while there is room. */
module TokenWaits {
  import opened ApiRateLimiter
  import opened LeaseScript
  import opened TokenConservation
  import opened Wrappers

  // ---------------------------------------------------------------- leases in flight

  /** A state's lease in flight is its own, of its present bucket, and has not resolved. */
  ghost predicate FlightOk(c: Config, s: World, i: nat)
    requires c.window > 0 && i < |s.states|
  {
    s.states[i].inFlight.Some? ==>
      var l := s.states[i].inFlight.value;
      && l < |s.calls| && s.calls[l].owner == i && !s.calls[l].phase.Done?
      && Bucket(s.calls[l].askedAt, c.window) == s.states[i].bucket
  }

  /** A request waits on a lease of its own state and bucket. */
  ghost predicate WaiterOk(c: Config, s: World, x: Waiter)
    requires c.window > 0
  {
    && x.lease < |s.calls| && x.owner < |s.states| && s.calls[x.lease].owner == x.owner
    && Bucket(s.calls[x.lease].askedAt, c.window) == Bucket(x.askedAt, c.window)
  }

  ghost predicate CallOk(c: Config, s: World, call: Call) {
    && call.owner < |s.states| && call.limit > 0
    && (c.maxBatch > 0 ==> call.requested > 0)
  }

  ghost predicate Linked(c: Config, s: World)
    requires c.window > 0
  {
    && (forall i :: 0 <= i < |s.states| ==> FlightOk(c, s, i) && (c.maxBatch > 0 ==> s.states[i].batch > 0))
    && (forall w :: w in s.waiters ==> WaiterOk(c, s, s.waiters[w]))
    && (forall l :: 0 <= l < |s.calls| ==> CallOk(c, s, s.calls[l]))
  }

  /** The turn of state `i` for a request of `bucket`: it stays or becomes a state of that bucket unless the request is
    * refused, and a lease it starts is the next one. */
  ghost predicate TurnFits(before: Local, bucket: nat, next: nat, t: Turn) {
    && (t.answer != Refuse ==> t.local.bucket == bucket)
    && (t.answer == Refuse ==> t.local == before && !t.started)
    && t.local.inFlight == (if t.started then Some(next) else before.inFlight)
    && (t.answer.Await? ==> t.local.inFlight == Some(t.answer.lease))
    && (t.local.bucket != before.bucket ==> t.started)
  }

  lemma TurnKeepsLinked(c: Config, s: World, i: nat, askedAt: nat, limit: nat, w: nat, t: Turn)
    requires c.window > 0 && Linked(c, s) && i < |s.states| && limit > 0
    requires TurnFits(s.states[i], Bucket(askedAt, c.window), |s.calls|, t)
    requires c.maxBatch > 0 ==> t.local.batch > 0
    ensures Linked(c, TakeTurn(c, s, i, askedAt, limit, w, t))
    ensures t.answer.Await? ==>
              var u := TakeTurn(c, s, i, askedAt, limit, w, t);
              t.answer.lease < |u.calls| && !u.calls[t.answer.lease].phase.Done?
  {
    hide Bucket;
    var u := TakeTurn(c, s, i, askedAt, limit, w, t);
    assert FlightOk(c, s, i);
    forall j | 0 <= j < |u.states|
      ensures FlightOk(c, u, j) && (c.maxBatch > 0 ==> u.states[j].batch > 0)
    {
      assert FlightOk(c, s, j);
    }
    forall v | v in u.waiters
      ensures WaiterOk(c, u, u.waiters[v])
    {
      if !(v == w && t.answer.Await?) {
        assert WaiterOk(c, s, s.waiters[v]);
      }
    }
    forall l | 0 <= l < |u.calls|
      ensures CallOk(c, u, u.calls[l])
    {
      if l < |s.calls| {
        assert CallOk(c, s, s.calls[l]);
      }
    }
  }

  lemma NotInFlightYet(c: Config, s: World, i: nat)
    requires c.window > 0 && Linked(c, s) && i < |s.states|
    ensures s.states[i].inFlight != Some(|s.calls|)
  {
    assert FlightOk(c, s, i);
  }

  lemma CheckKeepsLinked(c: Config, s: World, i: nat, limit: nat, w: nat)
    requires c.window > 0 && Linked(c, s) && Enabled(c, s, Check(i, limit, w))
    ensures Linked(c, Apply(c, s, Check(i, limit, w)))
    ensures AwaitsUnresolved(c, s, Check(i, limit, w))
  {
    NotInFlightYet(c, s, i);
    hide Linked, TakeTurn, Bucket;
    var bucket, batch := Bucket(s.store.now, c.window), CalculateTokenBatchSize(limit, c.maxBatch);
    BeginExactly(s.states[i], bucket, batch, |s.calls|);
    if c.maxBatch > 0 {
      BatchesArePositive(c, s, i, limit);
    }
    TurnKeepsLinked(c, s, i, s.store.now, limit, w, Begin(s.states[i], bucket, batch, |s.calls|));
  }

  lemma BatchesArePositive(c: Config, s: World, i: nat, limit: nat)
    requires c.window > 0 && Linked(c, s) && i < |s.states| && limit > 0 && c.maxBatch > 0
    ensures s.states[i].batch > 0 && CalculateTokenBatchSize(limit, c.maxBatch) > 0
  {
  }

  lemma ContinueKeepsLinked(c: Config, s: World, w: nat)
    requires c.window > 0 && Wired(c, s) && Linked(c, s) && Enabled(c, s, Continue(w))
    ensures Linked(c, Apply(c, s, Continue(w)))
    ensures AwaitsUnresolved(c, s, Continue(w))
  {
    var x := s.waiters[w];
    NotInFlightYet(c, s, x.owner);
    hide Linked, TakeTurn, Bucket;
    var bucket, granted := Bucket(x.askedAt, c.window), s.calls[x.lease].phase.value;
    ResumeExactly(s.states[x.owner], bucket, granted, |s.calls|);
    if c.maxBatch > 0 {
      BatchesArePositive(c, s, x.owner, x.limit);
    }
    TurnKeepsLinked(c, s, x.owner, x.askedAt, x.limit, w, Resume(s.states[x.owner], bucket, granted, |s.calls|));
  }

  /** A request that goes on to wait does so on a lease that has still to resolve. */
  ghost predicate AwaitsUnresolved(c: Config, s: World, step: Step)
    requires c.window > 0 && Enabled(c, s, step) && (step.Check? || step.Continue?)
  {
    var t := Apply(c, s, step);
    step.w in t.waiters ==> t.waiters[step.w].lease < |t.calls| && !t.calls[t.waiters[step.w].lease].phase.Done?
  }

  lemma ConcludeKeepsLinked(c: Config, s: World, l: nat, credit: nat, phase: Phase)
    requires c.window > 0 && Linked(c, s) && l < |s.calls| && s.calls[l].owner < |s.states| && phase.Done?
    ensures Linked(c, Conclude(c, s, l, credit, phase))
  {
    hide Bucket;
    var t := Conclude(c, s, l, credit, phase);
    forall i | 0 <= i < |t.states|
      ensures FlightOk(c, t, i) && (c.maxBatch > 0 ==> t.states[i].batch > 0)
    {
      assert FlightOk(c, s, i);
    }
    forall w | w in t.waiters
      ensures WaiterOk(c, t, t.waiters[w])
    {
      assert WaiterOk(c, s, s.waiters[w]);
    }
    forall k | 0 <= k < |t.calls|
      ensures CallOk(c, t, t.calls[k])
    {
      assert CallOk(c, s, s.calls[k]);
    }
  }

  /** Only a call's phase changes, and it is no more resolved than before. */
  lemma PhaseKeepsLinked(c: Config, s: World, t: World, l: nat, phase: Phase)
    requires c.window > 0 && Linked(c, s) && l < |s.calls| && t.states == s.states && t.waiters == s.waiters
    requires t.calls == s.calls[l := s.calls[l].(phase := phase)] && (phase.Done? ==> s.calls[l].phase.Done?)
    ensures Linked(c, t)
  {
    hide Bucket;
    forall i | 0 <= i < |t.states|
      ensures FlightOk(c, t, i)
    {
      assert FlightOk(c, s, i);
    }
    forall w | w in t.waiters
      ensures WaiterOk(c, t, t.waiters[w])
    {
      assert WaiterOk(c, s, s.waiters[w]);
    }
    forall k | 0 <= k < |t.calls|
      ensures CallOk(c, t, t.calls[k])
    {
      assert CallOk(c, s, s.calls[k]);
    }
  }

  lemma NewStateKeepsLinked(c: Config, s: World, limit: nat)
    requires c.window > 0 && Linked(c, s) && Enabled(c, s, NewState(limit))
    ensures Linked(c, Apply(c, s, NewState(limit)))
  {
    hide Bucket;
    var t := Apply(c, s, NewState(limit));
    forall i | 0 <= i < |t.states|
      ensures FlightOk(c, t, i) && (c.maxBatch > 0 ==> t.states[i].batch > 0)
    {
      if i < |s.states| {
        assert FlightOk(c, s, i);
      }
    }
    forall w | w in t.waiters
      ensures WaiterOk(c, t, t.waiters[w])
    {
      assert WaiterOk(c, s, s.waiters[w]);
    }
    forall k | 0 <= k < |t.calls|
      ensures CallOk(c, t, t.calls[k])
    {
      assert CallOk(c, s, s.calls[k]);
    }
  }

  lemma QuietKeepsLinked(c: Config, s: World, t: World)
    requires c.window > 0 && Linked(c, s) && t.states == s.states && t.waiters == s.waiters && t.calls == s.calls
    ensures Linked(c, t)
  {
    hide Bucket;
    forall i | 0 <= i < |t.states|
      ensures FlightOk(c, t, i)
    {
      assert FlightOk(c, s, i);
    }
    forall w | w in t.waiters
      ensures WaiterOk(c, t, t.waiters[w])
    {
      assert WaiterOk(c, s, s.waiters[w]);
    }
  }

  lemma FailOpenKeepsLinked(c: Config, s: World, l: nat)
    requires c.window > 0 && Linked(c, s) && Enabled(c, s, Break(l))
    ensures Linked(c, FailOpen(c, s, l))
  {
    var call := s.calls[l];
    ConcludeKeepsLinked(c, s, l, call.requested, Done(call.requested, call.phase.Asked?));
    hide Linked, Bucket, Conclude;
    QuietKeepsLinked(c, Conclude(c, s, l, call.requested, Done(call.requested, call.phase.Asked?)), FailOpen(c, s, l));
  }

  lemma StepKeepsLinked(c: Config, s: World, step: Step)
    requires c.window > 0 && Wired(c, s) && Linked(c, s) && Enabled(c, s, step)
    ensures Linked(c, Apply(c, s, step))
  {
    hide Linked, Wired, Executes, Executed, Conclude, TakeTurn, FailOpen, Begin, Resume;
    match step
    case Tick(_) => QuietKeepsLinked(c, s, Apply(c, s, step));
    case NewState(limit) => NewStateKeepsLinked(c, s, limit);
    case Check(i, limit, w) => CheckKeepsLinked(c, s, i, limit, w);
    case Continue(w) => ContinueKeepsLinked(c, s, w);
    case Answer(l, _) => PhaseKeepsLinked(c, s, Apply(c, s, step), l, Apply(c, s, step).calls[l].phase);
    case Deliver(l) => ConcludeKeepsLinked(c, s, l, s.calls[l].phase.granted, Done(s.calls[l].phase.granted, false));
    case Break(l) => FailOpenKeepsLinked(c, s, l);
    case Late(l, _) => PhaseKeepsLinked(c, s, Apply(c, s, step), l, Apply(c, s, step).calls[l].phase);
  }

  lemma {:induction false} RunKeepsLinked(c: Config, s: World, steps: seq<Step>)
    requires c.window > 0 && Inv(c, s) && Linked(c, s) && IsRun(c, s, steps)
    ensures Linked(c, After(c, s, steps))
    decreases |steps|
  {
    if steps != [] {
      InvHasWired(c, s);
      hide Inv, Linked, Apply, Enabled, Wired;
      StepKeepsLinked(c, s, steps[0]);
      TokenConservation.StepKeepsInv(c, s, steps[0]);
      RunKeepsLinked(c, Apply(c, s, steps[0]), steps[1..]);
    }
  }

  lemma InvHasWired(c: Config, s: World)
    requires c.window > 0 && Inv(c, s)
    ensures Wired(c, s)
  {
  }

  /** No request ever waits on a lease that has resolved already, and a request that can go on waits on a lease of its own
    * state and its own bucket. */
  lemma NobodyWaitsInVain(c: Config, now: nat, steps: seq<Step>, step: Step)
    requires c.window > 0 && IsRun(c, Init(now), steps) && Enabled(c, After(c, Init(now), steps), step)
    ensures var s := After(c, Init(now), steps);
      && (step.Check? || step.Continue? ==> AwaitsUnresolved(c, s, step))
      && (forall w :: w in s.waiters ==> WaiterOk(c, s, s.waiters[w]))
  {
    RunKeepsInv(c, Init(now), steps);
    RunKeepsLinked(c, Init(now), steps);
    var s := After(c, Init(now), steps);
    InvHasWired(c, s);
    if step.Check? {
      CheckKeepsLinked(c, s, step.i, step.limit, step.w);
    } else if step.Continue? {
      ContinueKeepsLinked(c, s, step.w);
    }
  }

  // ---------------------------------------------------------------- when a request is refused

  /** The lease has been given nothing. */
  predicate Empty(call: Call) {
    (call.phase.Answered? && call.phase.granted == 0) || (call.phase.Done? && call.phase.value == 0)
  }

  /** In the course of `steps` the script ran for lease `l` and found the limit reached. */
  ghost predicate FoundSpent(c: Config, s: World, steps: seq<Step>, l: nat)
    requires c.window > 0 && IsRun(c, s, steps)
    decreases |steps|
  {
    steps != [] &&
    ((steps[0].Answer? && steps[0].l == l && steps[0].estimated >= s.calls[l].limit)
     || FoundSpent(c, Apply(c, s, steps[0]), steps[1..], l))
  }

  lemma EmptiedByTheScript(c: Config, s: World, step: Step, l: nat)
    requires c.window > 0 && Inv(c, s) && Enabled(c, s, step) && l < |Apply(c, s, step).calls|
    requires Empty(Apply(c, s, step).calls[l]) && Apply(c, s, step).calls[l].requested > 0
    ensures l < |s.calls|
    ensures (Empty(s.calls[l]) && s.calls[l].requested > 0) ||
            (step.Answer? && step.l == l && step.estimated >= s.calls[l].limit)
  {
    if step.Answer? && step.l == l {
      AnswersWhatTheScriptGrants(c, s, l, step.estimated);
      hide Inv, Executed, Executes;
    } else {
      hide Inv, Executed, Executes, Begin, Resume, Bucket, Settle;
    }
  }

  lemma AnswersWhatTheScriptGrants(c: Config, s: World, l: nat, estimated: int)
    requires c.window > 0 && Inv(c, s) && Enabled(c, s, Answer(l, estimated)) && s.calls[l].requested > 0
    ensures Executed(c, s, l, estimated).granted <= 0 <==> estimated >= s.calls[l].limit
  {
    var call := s.calls[l];
    hide Bucket, Faithful, WithinLimit, GrantedIn, LeaseScript.Lease, EstimateOf, BatchCap, Balanced;
    LeaseIsBounded(s.store, call.askedAt, c.window, call.limit, call.requested, estimated);
  }

  lemma {:induction false} EmptyMeansSpent(c: Config, s: World, steps: seq<Step>, l: nat)
    requires c.window > 0 && Inv(c, s) && IsRun(c, s, steps) && l < |After(c, s, steps).calls|
    requires Empty(After(c, s, steps).calls[l]) && After(c, s, steps).calls[l].requested > 0
    ensures FoundSpent(c, s, steps, l) || (l < |s.calls| && Empty(s.calls[l]) && s.calls[l].requested > 0)
    decreases |steps|
  {
    if steps != [] {
      hide Inv, Apply, Enabled, Empty;
      TokenConservation.StepKeepsInv(c, s, steps[0]);
      EmptyMeansSpent(c, Apply(c, s, steps[0]), steps[1..], l);
      if !FoundSpent(c, Apply(c, s, steps[0]), steps[1..], l) {
        EmptiedByTheScript(c, s, steps[0], l);
      }
    }
  }

  /** How a request that has waited is answered. */
  function AnswerTo(c: Config, s: World, w: nat): (a: ApiRateLimiter.Answer)
    requires c.window > 0 && Enabled(c, s, Continue(w))
  {
    var x := s.waiters[w];
    Resume(s.states[x.owner], Bucket(x.askedAt, c.window), s.calls[x.lease].phase.value, |s.calls|).answer
  }

  /** In every run, a request that has waited is refused exactly if its window is over for its state, or its lease was given
    * nothing and no token is there. In the second case the script has run for that very lease and found the limit reached,
    * unless leases of nothing are asked for: never because a batch ran out, a lease failed, or someone else was faster. */
  lemma RefusedOnlyWhenSpent(c: Config, now: nat, steps: seq<Step>, w: nat)
    requires c.window > 0 && IsRun(c, Init(now), steps) && Enabled(c, After(c, Init(now), steps), Continue(w))
    ensures var s := After(c, Init(now), steps);
      var x := s.waiters[w];
      var moved := s.states[x.owner].bucket != Bucket(x.askedAt, c.window);
      && (AnswerTo(c, s, w) == Refuse <==>
            moved || (s.states[x.owner].tokens == 0 && s.calls[x.lease].phase.value == 0))
      && (AnswerTo(c, s, w) == Refuse && !moved && c.maxBatch > 0 ==> FoundSpent(c, Init(now), steps, x.lease))
      && (AnswerTo(c, s, w) == Admit <==> !moved && s.states[x.owner].tokens > 0)
  {
    RunKeepsInv(c, Init(now), steps);
    RunKeepsLinked(c, Init(now), steps);
    var s := After(c, Init(now), steps);
    var x := s.waiters[w];
    NotInFlightYet(c, s, x.owner);
    assert CallOk(c, s, s.calls[x.lease]);
    hide Inv, Linked, Bucket, IsRun, After;
    ResumeExactly(s.states[x.owner], Bucket(x.askedAt, c.window), s.calls[x.lease].phase.value, |s.calls|);
    if s.calls[x.lease].phase.value == 0 && c.maxBatch > 0 {
      EmptyMeansSpent(c, Init(now), steps, x.lease);
    }
  }

  /** A request that waits while there is room is admitted: once the script has run below the limit and its answer is
    * delivered in the same bucket, there is a token for it. */
  lemma RoomMeansAdmission(c: Config, now: nat, steps: seq<Step>, w: nat, estimated: int)
    requires c.window > 0 && c.maxBatch > 0 && IsRun(c, Init(now), steps)
    requires var s := After(c, Init(now), steps);
      && w in s.waiters && var x := s.waiters[w];
      && WaiterOk(c, s, x) && s.states[x.owner].bucket == Bucket(x.askedAt, c.window)
      && Enabled(c, s, Answer(x.lease, estimated)) && estimated < s.calls[x.lease].limit
    ensures var s := After(c, Init(now), steps); var l := s.waiters[w].lease;
      var answered := Apply(c, s, Answer(l, estimated));
      && Enabled(c, answered, Deliver(l))
      && var delivered := Apply(c, answered, Deliver(l));
      && Enabled(c, delivered, Continue(w)) && AnswerTo(c, delivered, w) == Admit
  {
    RunKeepsInv(c, Init(now), steps);
    RunKeepsLinked(c, Init(now), steps);
    var s := After(c, Init(now), steps);
    var l := s.waiters[w].lease;
    assert CallOk(c, s, s.calls[l]);
    AnswersWhatTheScriptGrants(c, s, l, estimated);
    hide Inv, Linked, Bucket, IsRun, After, Executes, Executed;
  }
}
