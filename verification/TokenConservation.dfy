/** Any number of processes lease tokens of one project from one Redis (src/rate-limiter/api-rate-limiter.ts against
  * src/redis/index.ts): where every token of a bucket is, in whatever order leases resolve around a window rollover.
  *
  * A state that its limiter no longer keeps stays in the list: requests and leases may still hold it. A process that dies
  * is one whose states take no further step. */
module TokenConservation {
  import opened ApiRateLimiter
  import opened Doubles
  import opened LeaseScript
  import opened Wrappers

  /** `Done(value, owed)`: the promise has resolved to `value`; `owed` when the caller gave up on a command that Redis may
    * still run. */
  datatype Phase = Asked | Answered(granted: nat) | Done(value: nat, owed: bool)

  datatype Call = Call(owner: nat, askedAt: nat, limit: nat, requested: nat, phase: Phase)

  /** A request waiting on a lease. */
  datatype Waiter = Waiter(owner: nat, askedAt: nat, limit: nat, lease: nat)

  /** What has become of the tokens of the bucket under observation. */
  datatype Ledger = Ledger(admitted: nat, discarded: nat, lost: nat, failOpen: nat, failures: nat)

  datatype World = World(store: Store, states: seq<Local>, calls: seq<Call>, waiters: map<nat, Waiter>, ledger: Ledger)

  /** `bucket` is the bucket under observation, any at all. */
  datatype Config = Config(window: nat, limit: nat, maxBatch: nat, bucket: nat)

  datatype Step =
    | Tick(ms: nat)
    | NewState(limit: nat)
    | Check(i: nat, limit: nat, w: nat)
    | Continue(w: nat)
    | Answer(l: nat, estimated: int)
    | Deliver(l: nat)
    | Break(l: nat)
    | Late(l: nat, estimated: int)

  predicate Enabled(c: Config, s: World, step: Step)
    requires c.window > 0
  {
    match step
    case Tick(_) => true
    case NewState(limit) => 0 < limit <= c.limit
    case Check(i, limit, w) => i < |s.states| && 0 < limit <= c.limit && w !in s.waiters
    case Continue(w) => Waits(s, w) && s.calls[s.waiters[w].lease].phase.Done?
    case Answer(l, estimated) => l < |s.calls| && s.calls[l].phase.Asked? && Executes(c, s, l, estimated)
    case Deliver(l) => l < |s.calls| && s.calls[l].phase.Answered? && s.calls[l].owner < |s.states|
    case Break(l) => l < |s.calls| && !s.calls[l].phase.Done? && s.calls[l].owner < |s.states|
    case Late(l, estimated) =>
      l < |s.calls| && s.calls[l].phase.Done? && s.calls[l].phase.owed && Executes(c, s, l, estimated)
  }

  /** The command reaches Redis, and its arithmetic gives `estimated`. */
  predicate Executes(c: Config, s: World, l: nat, estimated: int)
    requires c.window > 0 && l < |s.calls|
  {
    Timely(s.store, s.calls[l].askedAt) && EstimateOf(s.store, s.calls[l].askedAt, c.window, estimated)
  }

  predicate Waits(s: World, w: nat) {
    w in s.waiters && s.waiters[w].owner < |s.states| && s.waiters[w].lease < |s.calls|
  }

  /** A stretch of `check` by state `i`, on behalf of a request that read the clock at `askedAt`. */
  function TakeTurn(c: Config, s: World, i: nat, askedAt: nat, limit: nat, w: nat, t: Turn): (s': World)
    requires c.window > 0 && i < |s.states|
  {
    var inBucket := Bucket(askedAt, c.window) == c.bucket;
    World(
      s.store,
      s.states[i := t.local],
      if t.started then s.calls + [Call(i, askedAt, limit, t.local.batch, Asked)] else s.calls,
      if t.answer.Await? then s.waiters[w := Waiter(i, askedAt, limit, t.answer.lease)] else s.waiters - {w},
      s.ledger.(admitted := s.ledger.admitted + if t.answer == Admit && inBucket then 1 else 0,
                discarded := s.ledger.discarded +
                  if s.states[i].bucket == c.bucket != t.local.bucket then s.states[i].tokens else 0))
  }

  /** The end of a lease: its credit goes to the state, or is thrown away if the state has moved on. */
  function Conclude(c: Config, s: World, l: nat, credit: nat, phase: Phase): (s': World)
    requires c.window > 0 && l < |s.calls| && s.calls[l].owner < |s.states|
  {
    var call := s.calls[l];
    var bucket := Bucket(call.askedAt, c.window);
    var local := s.states[call.owner];
    s.(states := s.states[call.owner := Settle(local, l, bucket, credit)],
       calls := s.calls[l := call.(phase := phase)],
       ledger := s.ledger.(discarded := s.ledger.discarded +
                             if bucket == c.bucket && local.bucket != bucket then credit else 0))
  }

  function Executed(c: Config, s: World, l: nat, estimated: int): (r: Reply)
    requires c.window > 0 && l < |s.calls|
  {
    Lease(s.store, s.calls[l].askedAt, c.window, s.calls[l].limit, s.calls[l].requested, estimated)
  }

  /** Failing open: the batch that was asked for is credited, and whatever Redis granted for it is lost. */
  function FailOpen(c: Config, s: World, l: nat): (s': World)
    requires c.window > 0 && l < |s.calls| && s.calls[l].owner < |s.states|
  {
    var call := s.calls[l];
    var failed := Conclude(c, s, l, call.requested, Done(call.requested, call.phase.Asked?));
    if Bucket(call.askedAt, c.window) != c.bucket then failed
    else failed.(ledger := failed.ledger.(
                   failOpen := s.ledger.failOpen + call.requested,
                   failures := s.ledger.failures + 1,
                   lost := s.ledger.lost + if call.phase.Answered? then call.phase.granted else 0))
  }

  /** A command whose caller gave up runs after all: what it is granted is lost. */
  function RunLate(c: Config, s: World, l: nat, estimated: int): (s': World)
    requires c.window > 0 && l < |s.calls| && s.calls[l].phase.Done?
  {
    var r := Executed(c, s, l, estimated);
    s.(store := r.store, calls := s.calls[l := s.calls[l].(phase := Done(s.calls[l].phase.value, false))],
       ledger := s.ledger.(lost := s.ledger.lost +
                             if Bucket(s.calls[l].askedAt, c.window) == c.bucket && r.granted > 0 then r.granted else 0))
  }

  function Apply(c: Config, s: World, step: Step): (s': World)
    requires c.window > 0 && Enabled(c, s, step)
  {
    match step
    case Tick(ms) => s.(store := s.store.(now := s.store.now + ms))
    case NewState(limit) =>
      s.(states := s.states + [Local(Bucket(s.store.now, c.window), 0, CalculateTokenBatchSize(limit, c.maxBatch), None)])
    case Check(i, limit, w) =>
      var t := Begin(s.states[i], Bucket(s.store.now, c.window), CalculateTokenBatchSize(limit, c.maxBatch), |s.calls|);
      TakeTurn(c, s, i, s.store.now, limit, w, t)
    case Continue(w) =>
      var x := s.waiters[w];
      var t := Resume(s.states[x.owner], Bucket(x.askedAt, c.window), s.calls[x.lease].phase.value, |s.calls|);
      TakeTurn(c, s, x.owner, x.askedAt, x.limit, w, t)
    case Answer(l, estimated) =>
      var r := Executed(c, s, l, estimated);
      s.(store := r.store,
         calls := s.calls[l := s.calls[l].(phase := Answered(if r.granted > 0 then r.granted else 0))])
    case Deliver(l) => Conclude(c, s, l, s.calls[l].phase.granted, Done(s.calls[l].phase.granted, false))
    case Break(l) => FailOpen(c, s, l)
    case Late(l, estimated) => RunLate(c, s, l, estimated)
  }

  function Init(now: nat): (s: World) {
    World(Store(now, map[], map[]), [], [], map[], Ledger(0, 0, 0, 0, 0))
  }

  predicate IsRun(c: Config, s: World, steps: seq<Step>)
    requires c.window > 0
    decreases |steps|
  {
    steps == [] || (Enabled(c, s, steps[0]) && IsRun(c, Apply(c, s, steps[0]), steps[1..]))
  }

  function After(c: Config, s: World, steps: seq<Step>): (s': World)
    requires c.window > 0 && IsRun(c, s, steps)
    decreases |steps|
  {
    if steps == [] then s else After(c, Apply(c, s, steps[0]), steps[1..])
  }

  // ---------------------------------------------------------------- tokens held and in transit

  function Own(l: Local, bucket: nat): nat {
    if l.bucket == bucket then l.tokens else 0
  }

  function Held(states: seq<Local>, bucket: nat): nat {
    if states == [] then 0 else Held(states[..|states| - 1], bucket) + Own(states[|states| - 1], bucket)
  }

  function Carried(c: Config, call: Call): nat
    requires c.window > 0
  {
    if call.phase.Answered? && Bucket(call.askedAt, c.window) == c.bucket then call.phase.granted else 0
  }

  /** Granted by Redis, not yet told to the caller. */
  function InTransit(c: Config, calls: seq<Call>): nat
    requires c.window > 0
  {
    if calls == [] then 0 else InTransit(c, calls[..|calls| - 1]) + Carried(c, calls[|calls| - 1])
  }

  lemma {:induction false} HeldUpdated(states: seq<Local>, i: nat, l: Local, bucket: nat)
    requires i < |states|
    ensures Held(states[i := l], bucket) == Held(states, bucket) - Own(states[i], bucket) + Own(l, bucket)
  {
    var n := |states| - 1;
    if i < n {
      HeldUpdated(states[..n], i, l, bucket);
      assert states[i := l][..n] == states[..n][i := l];
    } else {
      assert states[i := l][..n] == states[..n];
    }
  }

  lemma {:induction false} InTransitUpdated(c: Config, calls: seq<Call>, i: nat, call: Call)
    requires c.window > 0 && i < |calls|
    ensures InTransit(c, calls[i := call]) == InTransit(c, calls) - Carried(c, calls[i]) + Carried(c, call)
  {
    var n := |calls| - 1;
    if i < n {
      InTransitUpdated(c, calls[..n], i, call);
      assert calls[i := call][..n] == calls[..n][i := call];
    } else {
      assert calls[i := call][..n] == calls[..n];
    }
  }

  lemma Appended(c: Config, states: seq<Local>, l: Local, calls: seq<Call>, call: Call)
    requires c.window > 0
    ensures Held(states + [l], c.bucket) == Held(states, c.bucket) + Own(l, c.bucket)
    ensures InTransit(c, calls + [call]) == InTransit(c, calls) + Carried(c, call)
  {
    assert (states + [l])[..|states|] == states && (calls + [call])[..|calls|] == calls;
  }

  // ---------------------------------------------------------------- the invariant

  predicate Wired(c: Config, s: World) {
    && (forall i :: 0 <= i < |s.states| ==> s.states[i].batch <= BatchCap(c.maxBatch))
    && (forall l :: 0 <= l < |s.calls| ==>
          s.calls[l].owner < |s.states| && 0 < s.calls[l].limit <= c.limit && s.calls[l].requested <= BatchCap(c.maxBatch))
    && (forall w :: w in s.waiters ==> s.waiters[w].owner < |s.states| && 0 < s.waiters[w].limit <= c.limit)
  }

  /** Every token of the bucket is somewhere, once. */
  predicate Balanced(c: Config, s: World)
    requires c.window > 0
  {
    s.ledger.admitted + Held(s.states, c.bucket) + s.ledger.discarded + InTransit(c, s.calls) + s.ledger.lost ==
    GrantedIn(s.store, c.bucket) + s.ledger.failOpen
  }

  predicate CreditBounded(c: Config, s: World) {
    s.ledger.failOpen <= s.ledger.failures * BatchCap(c.maxBatch)
  }

  ghost predicate Inv(c: Config, s: World)
    requires c.window > 0
  {
    && Wired(c, s) && Balanced(c, s) && CreditBounded(c, s)
    && Faithful(s.store, c.window) && WithinLimit(s.store, c.limit)
  }

  // ---------------------------------------------------------------- each step

  /** A turn moves the tokens it takes from the state to the admitted, and those it rolls over to the discarded. */
  lemma TurnMovesTokens(l: Local, bucket: int, batch: nat, granted: int, next: nat, observed: nat)
    ensures var t := Begin(l, bucket, batch, next);
      Own(t.local, observed) + (if t.answer == Admit && bucket == observed then 1 else 0)
        + (if l.bucket == observed != t.local.bucket then l.tokens else 0) == Own(l, observed)
    ensures var t := Resume(l, bucket, granted, next);
      Own(t.local, observed) + (if t.answer == Admit && bucket == observed then 1 else 0)
        + (if l.bucket == observed != t.local.bucket then l.tokens else 0) == Own(l, observed)
  {
  }

  lemma TurnBatch(l: Local, bucket: int, batch: nat, granted: int, next: nat, cap: nat)
    requires l.batch <= cap && batch <= cap
    ensures Begin(l, bucket, batch, next).local.batch <= cap && Resume(l, bucket, granted, next).local.batch <= cap
  {
  }

  lemma TurnKeepsInv(c: Config, s: World, i: nat, askedAt: nat, limit: nat, w: nat, t: Turn)
    requires c.window > 0 && Inv(c, s) && i < |s.states| && 0 < limit <= c.limit
    requires t.local.batch <= BatchCap(c.maxBatch)
    requires Own(t.local, c.bucket) + (if t.answer == Admit && Bucket(askedAt, c.window) == c.bucket then 1 else 0)
             + (if s.states[i].bucket == c.bucket != t.local.bucket then s.states[i].tokens else 0) ==
             Own(s.states[i], c.bucket)
    ensures Inv(c, TakeTurn(c, s, i, askedAt, limit, w, t))
  {
    hide Own, Held, InTransit, Bucket, BatchCap, Faithful, WithinLimit, GrantedIn;
    HeldUpdated(s.states, i, t.local, c.bucket);
    var call := Call(i, askedAt, limit, t.local.batch, Asked);
    Appended(c, s.states, t.local, s.calls, call);
    assert Carried(c, call) == 0;
  }

  lemma CheckKeepsInv(c: Config, s: World, i: nat, limit: nat, w: nat)
    requires c.window > 0 && Inv(c, s) && Enabled(c, s, Check(i, limit, w))
    ensures Inv(c, Apply(c, s, Check(i, limit, w)))
  {
    hide Own, Begin, Resume, Bucket, Balanced, CreditBounded, Faithful, WithinLimit, TakeTurn, CalculateTokenBatchSize;
    var bucket, batch, next := Bucket(s.store.now, c.window), CalculateTokenBatchSize(limit, c.maxBatch), |s.calls|;
    var t := Begin(s.states[i], bucket, batch, next);
    TurnMovesTokens(s.states[i], bucket, batch, 0, next, c.bucket);
    TurnBatch(s.states[i], bucket, batch, 0, next, BatchCap(c.maxBatch));
    TurnKeepsInv(c, s, i, s.store.now, limit, w, t);
  }

  lemma ContinueKeepsInv(c: Config, s: World, w: nat)
    requires c.window > 0 && Inv(c, s) && Enabled(c, s, Continue(w))
    ensures Inv(c, Apply(c, s, Continue(w)))
  {
    hide Own, Begin, Resume, Bucket, Balanced, CreditBounded, Faithful, WithinLimit, TakeTurn;
    var x, next := s.waiters[w], |s.calls|;
    var bucket, granted := Bucket(x.askedAt, c.window), s.calls[x.lease].phase.value;
    var t := Resume(s.states[x.owner], bucket, granted, next);
    TurnMovesTokens(s.states[x.owner], bucket, 0, granted, next, c.bucket);
    TurnBatch(s.states[x.owner], bucket, 0, granted, next, BatchCap(c.maxBatch));
    TurnKeepsInv(c, s, x.owner, x.askedAt, x.limit, w, t);
  }

  lemma SettleMovesTokens(l: Local, lease: nat, bucket: nat, credit: nat, observed: nat)
    ensures Own(Settle(l, lease, bucket, credit), observed)
            + (if bucket == observed && l.bucket != bucket then credit else 0) ==
            Own(l, observed) + (if bucket == observed then credit else 0)
    ensures Settle(l, lease, bucket, credit).batch == l.batch
  {
  }

  /** Ending a lease with some credit: the left-hand side of the balance gains the credit and loses what was in transit. */
  lemma ConcludeMoves(c: Config, s: World, l: nat, credit: nat, phase: Phase)
    requires c.window > 0 && Wired(c, s) && l < |s.calls| && phase.Done?
    ensures var t, inBucket := Conclude(c, s, l, credit, phase), Bucket(s.calls[l].askedAt, c.window) == c.bucket;
      && Wired(c, t)
      && Held(t.states, c.bucket) + t.ledger.discarded + InTransit(c, t.calls) ==
         Held(s.states, c.bucket) + s.ledger.discarded + InTransit(c, s.calls)
         + (if inBucket then credit else 0) - Carried(c, s.calls[l])
      && Carried(c, s.calls[l]) == (if inBucket && s.calls[l].phase.Answered? then s.calls[l].phase.granted else 0)
      && t.ledger == s.ledger.(discarded := t.ledger.discarded) && t.store == s.store
  {
    hide Own, Held, InTransit, Bucket, BatchCap, Settle;
    var call := s.calls[l];
    var bucket := Bucket(call.askedAt, c.window);
    var local := s.states[call.owner];
    SettleMovesTokens(local, l, bucket, credit, c.bucket);
    HeldUpdated(s.states, call.owner, Settle(local, l, bucket, credit), c.bucket);
    InTransitUpdated(c, s.calls, l, call.(phase := phase));
  }

  lemma DeliverKeepsInv(c: Config, s: World, l: nat)
    requires c.window > 0 && Inv(c, s) && Enabled(c, s, Deliver(l))
    ensures Inv(c, Apply(c, s, Deliver(l)))
  {
    hide Wired, Held, InTransit, Bucket, Faithful, WithinLimit, GrantedIn, Conclude, Carried;
    ConcludeMoves(c, s, l, s.calls[l].phase.granted, Done(s.calls[l].phase.granted, false));
  }

  lemma CreditStaysBounded(c: Config, s: World, t: World, requested: nat)
    requires CreditBounded(c, s) && requested <= BatchCap(c.maxBatch)
    requires (t.ledger.failOpen == s.ledger.failOpen && t.ledger.failures == s.ledger.failures)
             || (t.ledger.failOpen == s.ledger.failOpen + requested && t.ledger.failures == s.ledger.failures + 1)
    ensures CreditBounded(c, t)
  {
    hide BatchCap;
    var failures, cap := s.ledger.failures, BatchCap(c.maxBatch);
    assert (failures + 1) * cap == failures * cap + cap;
  }

  lemma BreakKeepsInv(c: Config, s: World, l: nat)
    requires c.window > 0 && Inv(c, s) && Enabled(c, s, Break(l))
    ensures Inv(c, Apply(c, s, Break(l)))
  {
    var call := s.calls[l];
    assert call.requested <= BatchCap(c.maxBatch);
    hide Held, InTransit, Bucket, Faithful, WithinLimit, GrantedIn, Conclude, Carried, BatchCap, CreditBounded, Wired;
    ConcludeMoves(c, s, l, call.requested, Done(call.requested, call.phase.Asked?));
    CreditStaysBounded(c, s, Apply(c, s, Break(l)), call.requested);
  }

  /** What running a call's script does to the store: it grants, in the call's own bucket only, what it answers. */
  lemma ExecutedMoves(c: Config, s: World, l: nat, estimated: int)
    requires c.window > 0 && Inv(c, s) && l < |s.calls| && Executes(c, s, l, estimated)
    ensures var r := Executed(c, s, l, estimated);
      && r.granted >= 0
      && GrantedIn(r.store, c.bucket) ==
         GrantedIn(s.store, c.bucket) + (if Bucket(s.calls[l].askedAt, c.window) == c.bucket then r.granted else 0)
      && Faithful(r.store, c.window) && WithinLimit(r.store, c.limit)
  {
    hide Held, InTransit, Bucket, Faithful, WithinLimit, GrantedIn, LeaseScript.Lease, EstimateOf, BatchCap, Balanced;
    var call := s.calls[l];
    LeaseIsBounded(s.store, call.askedAt, c.window, call.limit, call.requested, estimated);
    LeaseKeepsFaithful(s.store, call.askedAt, c.window, call.limit, call.requested, estimated, c.limit);
  }

  lemma AnswerKeepsWired(c: Config, s: World, l: nat, estimated: int)
    requires c.window > 0 && Wired(c, s) && Enabled(c, s, Answer(l, estimated))
    ensures Wired(c, Apply(c, s, Answer(l, estimated)))
  {
    hide BatchCap, Executed, Executes;
  }

  lemma AnswerKeepsInv(c: Config, s: World, l: nat, estimated: int)
    requires c.window > 0 && Inv(c, s) && Enabled(c, s, Answer(l, estimated))
    ensures Inv(c, Apply(c, s, Answer(l, estimated)))
  {
    ExecutedMoves(c, s, l, estimated);
    AnswerKeepsWired(c, s, l, estimated);
    hide Wired, Held, InTransit, Bucket, Faithful, WithinLimit, GrantedIn, Executed, Executes, BatchCap;
    InTransitUpdated(c, s.calls, l, Apply(c, s, Answer(l, estimated)).calls[l]);
  }

  lemma LateKeepsWired(c: Config, s: World, l: nat, estimated: int)
    requires c.window > 0 && Wired(c, s) && Enabled(c, s, Late(l, estimated))
    ensures Wired(c, Apply(c, s, Late(l, estimated)))
  {
    hide BatchCap, Executed, Executes;
  }

  lemma LateKeepsInv(c: Config, s: World, l: nat, estimated: int)
    requires c.window > 0 && Inv(c, s) && Enabled(c, s, Late(l, estimated))
    ensures Inv(c, Apply(c, s, Late(l, estimated)))
  {
    ExecutedMoves(c, s, l, estimated);
    LateKeepsWired(c, s, l, estimated);
    hide Wired, Held, InTransit, Bucket, Faithful, WithinLimit, GrantedIn, Executed, Executes, BatchCap;
    InTransitUpdated(c, s.calls, l, Apply(c, s, Late(l, estimated)).calls[l]);
  }

  lemma TickKeepsInv(c: Config, s: World, ms: nat)
    requires c.window > 0 && Inv(c, s)
    ensures Inv(c, Apply(c, s, Tick(ms)))
  {
    hide Faithful, BatchCap, Held, InTransit;
    TimeKeepsFaithful(s.store, c.window, ms);
  }

  lemma NewStateKeepsInv(c: Config, s: World, limit: nat)
    requires c.window > 0 && Inv(c, s) && Enabled(c, s, NewState(limit))
    ensures Inv(c, Apply(c, s, NewState(limit)))
  {
    hide Faithful, BatchCap, Held, InTransit, CalculateTokenBatchSize, Bucket, WithinLimit, GrantedIn;
    var l := Local(Bucket(s.store.now, c.window), 0, CalculateTokenBatchSize(limit, c.maxBatch), None);
    Appended(c, s.states, l, s.calls, Call(0, 0, 0, 0, Asked));
  }

  lemma StepKeepsInv(c: Config, s: World, step: Step)
    requires c.window > 0 && Inv(c, s) && Enabled(c, s, step)
    ensures Inv(c, Apply(c, s, step))
  {
    hide Inv, Apply, Enabled;
    match step
    case Tick(ms) => TickKeepsInv(c, s, ms);
    case NewState(limit) => NewStateKeepsInv(c, s, limit);
    case Check(i, limit, w) => CheckKeepsInv(c, s, i, limit, w);
    case Continue(w) => ContinueKeepsInv(c, s, w);
    case Answer(l, estimated) => AnswerKeepsInv(c, s, l, estimated);
    case Deliver(l) => DeliverKeepsInv(c, s, l);
    case Break(l) => BreakKeepsInv(c, s, l);
    case Late(l, estimated) => LateKeepsInv(c, s, l, estimated);
  }

  lemma {:induction false} RunKeepsInv(c: Config, s: World, steps: seq<Step>)
    requires c.window > 0 && Inv(c, s) && IsRun(c, s, steps)
    ensures Inv(c, After(c, s, steps))
    decreases |steps|
  {
    hide Inv, Apply, Enabled;
    if steps != [] {
      StepKeepsInv(c, s, steps[0]);
      RunKeepsInv(c, Apply(c, s, steps[0]), steps[1..]);
    }
  }

  // ---------------------------------------------------------------- main results

  /** Token conservation, in any bucket, at every moment of every run: admitted requests, local tokens, discarded credits,
    * grants in transit and grants lost with a failed call add up to what Redis granted plus the fail-open credit. Redis
    * never grants more than the limit, and the credit is at most one batch per failed lease: without a failure no more
    * requests are admitted in a bucket than the limit, however many processes there are. */
  lemma TokensAreConserved(c: Config, now: nat, steps: seq<Step>)
    requires c.window > 0 && IsRun(c, Init(now), steps)
    ensures var s := After(c, Init(now), steps);
      && s.ledger.admitted + Held(s.states, c.bucket) + s.ledger.discarded + InTransit(c, s.calls) + s.ledger.lost ==
         GrantedIn(s.store, c.bucket) + s.ledger.failOpen
      && GrantedIn(s.store, c.bucket) <= c.limit
      && s.ledger.failOpen <= s.ledger.failures * BatchCap(c.maxBatch)
      && s.ledger.admitted <= c.limit + s.ledger.failures * BatchCap(c.maxBatch)
      && (s.ledger.failures == 0 ==> s.ledger.admitted <= c.limit)
  {
    RunKeepsInv(c, Init(now), steps);
    hide BatchCap;
    var s := After(c, Init(now), steps);
    assert s.ledger.failures == 0 ==> s.ledger.failures * BatchCap(c.maxBatch) == 0;
  }

  /** The step runs the script of some call, whether or not its caller still waits for the answer. */
  predicate RunsScript(step: Step) {
    step.Answer? || step.Late?
  }

  lemma ScriptRuns(c: Config, s: World, step: Step)
    requires c.window > 0 && Enabled(c, s, step) && RunsScript(step)
    ensures step.l < |s.calls| && Executes(c, s, step.l, step.estimated)
    ensures Apply(c, s, step).store == Executed(c, s, step.l, step.estimated).store
  {
  }

  /** The sliding window, at every grant of every run, to a caller or after it gave up: at offset `t` into its window the
    * previous and the current bucket together hold at most `limit + ceil(previous * t / window)`, or one more when the
    * double estimate came out one too low and the request took all it was offered. */
  lemma SlidingWindowHolds(c: Config, now: nat, steps: seq<Step>, step: Step)
    requires c.window > 0 && IsRun(c, Init(now), steps) && Enabled(c, After(c, Init(now), steps), step) && RunsScript(step)
    ensures var s := After(c, Init(now), steps);
      step.l < |s.calls| && var t, call := Apply(c, s, step), s.calls[step.l];
      var b, offset := Bucket(call.askedAt, c.window), Offset(call.askedAt, c.window);
      var prev, exact := GrantedIn(s.store, b - 1), ExactEstimate(GrantedIn(s.store, b - 1), GrantedIn(s.store, b), offset, c.window);
      var held := GrantedIn(t.store, b - 1) + GrantedIn(t.store, b);
      GrantedIn(t.store, b) > GrantedIn(s.store, b) ==>
        && held <= c.limit + Elapsed(prev, offset, c.window) + 1
        && (held <= call.limit + Elapsed(prev, offset, c.window) <==>
            step.estimated == exact || call.requested <= call.limit - exact)
  {
    RunKeepsInv(c, Init(now), steps);
    var s := After(c, Init(now), steps);
    ScriptRuns(c, s, step);
    var call := s.calls[step.l];
    hide ExactEstimate, EstimateOf, Elapsed, Bucket, Offset, Faithful, WithinLimit, GrantedIn, LeaseScript.Lease, BatchCap, Balanced,
         After, IsRun, Apply, Enabled;
    LeaseIsBounded(s.store, call.askedAt, c.window, call.limit, call.requested, step.estimated);
  }

  /** Every estimate that doubles compute in a run is one of the model's, for limits and windows of any practical size. */
  lemma ComputedEstimatesAreSteps(c: Config, now: nat, steps: seq<Step>, l: nat, estimated: int)
    requires c.window > 0 && 2 * c.limit * c.window <= 1_125_899_906_842_624 && IsRun(c, Init(now), steps)
    requires var s := After(c, Init(now), steps);
      && l < |s.calls| && s.calls[l].phase.Asked? && Timely(s.store, s.calls[l].askedAt)
      && var b := Bucket(s.calls[l].askedAt, c.window);
         Computes(Count(s.store, b - 1), Count(s.store, b), Offset(s.calls[l].askedAt, c.window), c.window, estimated)
    ensures Enabled(c, After(c, Init(now), steps), Answer(l, estimated))
  {
    RunKeepsInv(c, Init(now), steps);
    var s := After(c, Init(now), steps);
    ComputedIsEstimate(c, s.store, s.calls[l].askedAt, estimated);
  }

  lemma ComputedIsEstimate(c: Config, s: Store, askedAt: nat, estimated: int)
    requires c.window > 0 && 2 * c.limit * c.window <= 1_125_899_906_842_624
    requires Faithful(s, c.window) && WithinLimit(s, c.limit) && Timely(s, askedAt)
    requires var b := Bucket(askedAt, c.window);
      Computes(Count(s, b - 1), Count(s, b), Offset(askedAt, c.window), c.window, estimated)
    ensures EstimateOf(s, askedAt, c.window, estimated)
  {
    var b: int := Bucket(askedAt, c.window);
    hide Computes, Estimates, Bucket, Offset, Count, LastRead, Faithful;
    FaithfulReads(s, c.window, askedAt);
    TotalIsSmall(Count(s, b - 1) + Count(s, b), 2 * c.limit, c.window);
    DoublesEstimate(Count(s, b - 1), Count(s, b), Offset(askedAt, c.window), c.window, estimated);
  }

  lemma TotalIsSmall(total: nat, most: nat, window: nat)
    requires total <= most
    ensures total * window <= most * window
  {
  }
}
