/** The lease on one task id: `IdempotencyGuard` (src/idempotency/index.ts) as `DeliveryWorker.process` uses it
  * (src/services/delivery/main.ts), among any number of workers holding duplicates of the task. Each Redis command is one
  * step; workers may die between any two, and `markProcessed`, which nobody awaits, lands whenever it likes. */
module TaskLease {
  import opened Counting
  import opened Delivery
  import opened Wrappers

  type WorkerId = nat

  datatype Value = InProgress | Processed

  datatype Marker = Marker(value: Value, expiresAt: nat)

  /** Where a worker is in `acquireLease` and after it: about to SET, about to GET, about to SET again, told `locked` or
    * `completed`, or holding. `lease` numbers the leases in the order they were taken. */
  datatype Worker =
    | Asking
    | Refused
    | Vanished
    | Told(answer: LeaseResult)
    | Holding(lease: nat, acquiredAt: nat, dispatched: bool)

  /** The provider calls made under one lease. */
  datatype Dispatched = Dispatched(lease: nat, acquiredAt: nat, log: seq<Call>)

  /** `inTime` is the assumption that a holder leaves `process` within the lease's TTL, so never unmarks later. */
  datatype Config = Config(lockTtlMs: nat, fullTtlMs: nat, inTime: bool)

  datatype World = World(
    now: nat,
    key: Option<Marker>,
    workers: map<WorkerId, Worker>,
    leases: nat,
    dispatches: seq<Dispatched>,
    marks: nat)

  datatype Step =
    | Tick(ms: nat)
    | Arrive(w: WorkerId)
    | SetFirst(w: WorkerId)
    | Get(w: WorkerId)
    | SetAgain(w: WorkerId)
    | Send(w: WorkerId, log: seq<Call>, startAt: nat, providers: nat)
    | Unmark(w: WorkerId)
    | IssueMark(w: WorkerId)
    | MarkLands
    | Die(w: WorkerId)

  predicate ValidConfig(c: Config) {
    c.lockTtlMs >= MAX_DISPATCH_BUDGET_MS && c.fullTtlMs >= c.lockTtlMs
  }

  /** Redis expires a key once its time has passed. */
  predicate KeyLives(s: World) {
    s.key.Some? && s.now <= s.key.value.expiresAt
  }

  predicate Holds(s: World, w: WorkerId) {
    w in s.workers && s.workers[w].Holding?
  }

  /** A holder whose lease has not run out. */
  predicate HoldsInTime(c: Config, s: World, w: WorkerId) {
    Holds(s, w) && s.now <= s.workers[w].acquiredAt + c.lockTtlMs
  }

  predicate Ended(d: Dispatched, end: nat) {
    forall k :: 0 <= k < |d.log| ==> d.log[k].end <= end
  }

  /** `process` has awaited the calls of the lease. */
  predicate CallsDone(s: World, lease: nat) {
    forall i :: 0 <= i < |s.dispatches| && s.dispatches[i].lease == lease ==> Ended(s.dispatches[i], s.now)
  }

  /** The dispatch budget starts right after the lease: at most the rest of its TTL may pass in between. */
  ghost predicate Enabled(c: Config, s: World, step: Step) {
    match step
    case Tick(_) => true
    case Arrive(w) => w !in s.workers
    case SetFirst(w) => w in s.workers && s.workers[w].Asking?
    case Get(w) => w in s.workers && s.workers[w].Refused?
    case SetAgain(w) => w in s.workers && s.workers[w].Vanished?
    case Send(w, log, startAt, providers) =>
      && Holds(s, w) && !s.workers[w].dispatched
      && LogWithinBudget(log, s.now, startAt, providers)
      && s.now + MAX_DISPATCH_BUDGET_MS <= s.workers[w].acquiredAt + c.lockTtlMs
    case Unmark(w) => Holds(s, w) && CallsDone(s, s.workers[w].lease) && (c.inTime ==> HoldsInTime(c, s, w))
    case IssueMark(w) => Holds(s, w) && CallsDone(s, s.workers[w].lease)
    case MarkLands => s.marks > 0
    case Die(w) => w in s.workers
  }

  /** SET NX EX: takes the key, or moves the worker on to `otherwise`. */
  function SetNx(c: Config, s: World, w: WorkerId, otherwise: Worker): (s': World) {
    if !KeyLives(s) then
      s.(key := Some(Marker(InProgress, s.now + c.lockTtlMs)),
         workers := s.workers[w := Holding(s.leases, s.now, false)], leases := s.leases + 1)
    else s.(workers := s.workers[w := otherwise])
  }

  /** GET: the value says locked or completed; none means the key has just expired. */
  function Got(s: World): (w: Worker) {
    if !KeyLives(s) then Vanished
    else if s.key.value.value.Processed? then Told(Completed)
    else Told(Locked)
  }

  function Apply(c: Config, s: World, step: Step): (s': World) {
    match step
    case Tick(ms) => s.(now := s.now + ms)
    case Arrive(w) => s.(workers := s.workers[w := Asking])
    case SetFirst(w) => SetNx(c, s, w, Refused)
    case Get(w) => s.(workers := s.workers[w := Got(s)])
    case SetAgain(w) => SetNx(c, s, w, Told(Locked))
    case Send(w, log, _, _) =>
      if !Holds(s, w) then s
      else s.(workers := s.workers[w := s.workers[w].(dispatched := true)],
              dispatches := s.dispatches + [Dispatched(s.workers[w].lease, s.workers[w].acquiredAt, log)])
    // DEL, whoever's lease it is
    case Unmark(w) => s.(key := None, workers := s.workers - {w})
    case IssueMark(w) => s.(marks := s.marks + 1, workers := s.workers - {w})
    case MarkLands => s.(key := Some(Marker(Processed, s.now + c.fullTtlMs)), marks := if s.marks > 0 then s.marks - 1 else 0)
    case Die(w) => s.(workers := s.workers - {w})
  }

  function Init(): (s: World) {
    World(0, None, map[], 0, [], 0)
  }

  ghost predicate IsRun(c: Config, s: World, steps: seq<Step>)
    decreases |steps|
  {
    steps == [] || (Enabled(c, s, steps[0]) && IsRun(c, Apply(c, s, steps[0]), steps[1..]))
  }

  function After(c: Config, s: World, steps: seq<Step>): (s': World)
    decreases |steps|
  {
    if steps == [] then s else After(c, Apply(c, s, steps[0]), steps[1..])
  }

  // ---------------------------------------------------------------- what the lease is for

  predicate Before(a: Dispatched, b: Dispatched) {
    forall j, k :: 0 <= j < |a.log| && 0 <= k < |b.log| ==> a.log[j].end <= b.log[k].start
  }

  /** The calls of an earlier lease have ended when those of a later one begin. */
  ghost predicate Apart(s: World) {
    forall i, j :: 0 <= i < j < |s.dispatches| ==> Before(s.dispatches[i], s.dispatches[j])
  }

  ghost predicate Exclusive(c: Config, s: World) {
    (forall v, w :: HoldsInTime(c, s, v) && HoldsInTime(c, s, w) ==> v == w) && Apart(s)
  }

  /** However the workers go on from `s`, as long as they leave in time. */
  ghost predicate StaysExclusive(c: Config, s: World) {
    forall steps :: IsRun(c.(inTime := true), s, steps) ==> Exclusive(c, After(c, s, steps))
  }

  /** No lease in time but `w`'s, and no provider call under way. */
  ghost predicate NobodyElse(c: Config, s: World, w: WorkerId) {
    && (forall v :: HoldsInTime(c, s, v) ==> v == w)
    && (forall i :: 0 <= i < |s.dispatches| ==> Ended(s.dispatches[i], s.now))
  }

  // ---------------------------------------------------------------- the invariant

  /** The key outlives every lease held in time and every call still to end. */
  ghost predicate KeyServes(c: Config, s: World) {
    && (forall w :: HoldsInTime(c, s, w) ==>
          s.key.Some? && s.key.value.expiresAt >= s.workers[w].acquiredAt + c.lockTtlMs)
    && (forall i :: 0 <= i < |s.dispatches| ==>
          Ended(s.dispatches[i], s.now) || (s.key.Some? && Ended(s.dispatches[i], s.key.value.expiresAt)))
  }

  /** Whoever holds in time is alone, and began after everybody else's calls ended. */
  ghost predicate Alone(c: Config, s: World) {
    && (forall v, w :: HoldsInTime(c, s, v) && HoldsInTime(c, s, w) ==> v == w)
    && (forall i, w :: 0 <= i < |s.dispatches| && HoldsInTime(c, s, w) && s.dispatches[i].lease != s.workers[w].lease ==>
          Ended(s.dispatches[i], s.workers[w].acquiredAt))
  }

  /** Leases are numbered as they are taken, dispatch once, and all their calls lie within their TTL. */
  ghost predicate Numbered(c: Config, s: World) {
    && (forall w :: Holds(s, w) ==> s.workers[w].acquiredAt <= s.now && s.workers[w].lease < s.leases)
    && (forall v, w :: Holds(s, v) && Holds(s, w) && s.workers[v].lease == s.workers[w].lease ==> v == w)
    && (forall i :: 0 <= i < |s.dispatches| ==>
          && s.dispatches[i].lease < s.leases && s.dispatches[i].acquiredAt <= s.now
          && Ended(s.dispatches[i], s.dispatches[i].acquiredAt + c.lockTtlMs))
    && (forall i, w :: 0 <= i < |s.dispatches| && Holds(s, w) && s.dispatches[i].lease == s.workers[w].lease ==>
          s.workers[w].dispatched)
  }

  ghost predicate Inv(c: Config, s: World) {
    KeyServes(c, s) && Alone(c, s) && Numbered(c, s) && Apart(s)
  }

  // ---------------------------------------------------------------- each step

  /** Nobody new holds, and nothing is dispatched. */
  ghost predicate Fewer(s: World, t: World) {
    && s.now <= t.now && t.leases == s.leases && t.dispatches == s.dispatches
    && (forall w :: Holds(t, w) ==> Holds(s, w) && t.workers[w] == s.workers[w])
  }

  lemma FewerKeepsInv(c: Config, s: World, t: World)
    requires Inv(c, s) && Fewer(s, t) && KeyServes(c, t)
    ensures Inv(c, t)
  {
    hide KeyServes;
    assert forall w :: HoldsInTime(c, t, w) ==> HoldsInTime(c, s, w);
  }

  lemma SameKeyServes(c: Config, s: World, t: World)
    requires KeyServes(c, s) && Fewer(s, t) && t.key == s.key
    ensures KeyServes(c, t)
  {
    assert forall w :: HoldsInTime(c, t, w) ==> HoldsInTime(c, s, w);
    forall i | 0 <= i < |t.dispatches|
      ensures Ended(t.dispatches[i], t.now) || (t.key.Some? && Ended(t.dispatches[i], t.key.value.expiresAt))
    {
      assert t.dispatches[i] == s.dispatches[i];
    }
  }

  lemma NothingPendingWithoutKey(c: Config, s: World)
    requires KeyServes(c, s) && !KeyLives(s)
    ensures forall i :: 0 <= i < |s.dispatches| ==> Ended(s.dispatches[i], s.now)
    ensures forall w :: !HoldsInTime(c, s, w)
  {
  }

  lemma TakingTheKey(c: Config, s: World, w: WorkerId, otherwise: Worker)
    requires ValidConfig(c) && Inv(c, s) && w in s.workers && !s.workers[w].Holding? && !KeyLives(s)
    ensures Inv(c, SetNx(c, s, w, otherwise))
  {
    var t := SetNx(c, s, w, otherwise);
    NothingPendingWithoutKey(c, s);
    hide KeyLives;
    assert forall v :: v != w ==> (Holds(t, v) <==> Holds(s, v));
    assert forall v :: v != w ==> !HoldsInTime(c, t, v) by {
      assert forall v :: v != w && HoldsInTime(c, t, v) ==> HoldsInTime(c, s, v);
    }
  }

  lemma SetNxKeepsInv(c: Config, s: World, w: WorkerId, otherwise: Worker)
    requires ValidConfig(c) && Inv(c, s) && w in s.workers && !s.workers[w].Holding?
    requires !otherwise.Holding?
    ensures Inv(c, SetNx(c, s, w, otherwise))
  {
    if !KeyLives(s) {
      TakingTheKey(c, s, w, otherwise);
    } else {
      hide KeyServes;
      SameKeyServes(c, s, SetNx(c, s, w, otherwise));
      FewerKeepsInv(c, s, SetNx(c, s, w, otherwise));
    }
  }

  /** What a dispatch leaves as it was. */
  ghost predicate Sends(s: World, t: World, w: WorkerId, d: Dispatched) {
    && t.dispatches == s.dispatches + [d] && t.key == s.key && t.now == s.now && t.leases == s.leases
    && Holds(s, w) && d.lease == s.workers[w].lease && d.acquiredAt == s.workers[w].acquiredAt
    && t.workers == s.workers[w := s.workers[w].(dispatched := true)]
  }

  lemma SendServes(c: Config, s: World, t: World, w: WorkerId, d: Dispatched)
    requires KeyServes(c, s) && Sends(s, t, w, d) && s.key.Some? && Ended(d, s.key.value.expiresAt)
    ensures KeyServes(c, t)
  {
    hide Ended;
    assert forall v :: HoldsInTime(c, t, v) ==> HoldsInTime(c, s, v) && t.workers[v].acquiredAt == s.workers[v].acquiredAt;
    forall i | 0 <= i < |t.dispatches|
      ensures Ended(t.dispatches[i], t.now) || Ended(t.dispatches[i], t.key.value.expiresAt)
    {
      assert i < |s.dispatches| ==> t.dispatches[i] == s.dispatches[i];
    }
  }

  lemma SendLeavesAlone(c: Config, s: World, t: World, w: WorkerId, d: Dispatched)
    requires Alone(c, s) && Sends(s, t, w, d) && HoldsInTime(c, s, w)
    ensures Alone(c, t)
  {
    hide Ended;
    forall v | HoldsInTime(c, t, v)
      ensures HoldsInTime(c, s, v) && t.workers[v].acquiredAt == s.workers[v].acquiredAt && t.workers[v].lease == s.workers[v].lease
    {
    }
    assert forall i :: 0 <= i < |s.dispatches| ==> t.dispatches[i] == s.dispatches[i];
  }

  lemma SendNumbers(c: Config, s: World, t: World, w: WorkerId, d: Dispatched)
    requires Numbered(c, s) && Sends(s, t, w, d) && Ended(d, d.acquiredAt + c.lockTtlMs)
    ensures Numbered(c, t)
  {
    hide Ended;
    forall v | Holds(t, v)
      ensures Holds(s, v) && t.workers[v].acquiredAt == s.workers[v].acquiredAt && t.workers[v].lease == s.workers[v].lease
      ensures s.workers[v].dispatched ==> t.workers[v].dispatched
    {
    }
    assert forall i :: 0 <= i < |s.dispatches| ==> t.dispatches[i] == s.dispatches[i];
  }

  lemma SendKeepsApart(s: World, t: World, w: WorkerId, d: Dispatched)
    requires Apart(s) && Sends(s, t, w, d) && (forall i :: 0 <= i < |s.dispatches| ==> Before(s.dispatches[i], d))
    ensures Apart(t)
  {
    hide Before;
    forall i, j | 0 <= i < j < |t.dispatches|
      ensures Before(t.dispatches[i], t.dispatches[j])
    {
      assert t.dispatches[i] == s.dispatches[i];
      assert t.dispatches[j] == if j < |s.dispatches| then s.dispatches[j] else d;
    }
  }

  /** A lease's one dispatch: its calls lie within the lease and after the calls of every other. */
  lemma SendKeepsInv(c: Config, s: World, w: WorkerId, log: seq<Call>, startAt: nat, providers: nat)
    requires ValidConfig(c) && Inv(c, s) && Enabled(c, s, Send(w, log, startAt, providers))
    ensures Inv(c, Apply(c, s, Send(w, log, startAt, providers)))
  {
    var t := Apply(c, s, Send(w, log, startAt, providers));
    var d := Dispatched(s.workers[w].lease, s.workers[w].acquiredAt, log);
    SendIsCovered(c, s, w, d, startAt, providers);
    assert Sends(s, t, w, d);
    hide KeyServes, Alone, Numbered, Apart, Sends, Enabled, Apply, Ended, Before, HoldsInTime;
    SendServes(c, s, t, w, d);
    SendLeavesAlone(c, s, t, w, d);
    SendNumbers(c, s, t, w, d);
    SendKeepsApart(s, t, w, d);
  }

  lemma SendIsCovered(c: Config, s: World, w: WorkerId, d: Dispatched, startAt: nat, providers: nat)
    requires ValidConfig(c) && Inv(c, s) && Enabled(c, s, Send(w, d.log, startAt, providers))
    requires d.lease == s.workers[w].lease && d.acquiredAt == s.workers[w].acquiredAt
    ensures HoldsInTime(c, s, w) && s.key.Some? && Ended(d, s.key.value.expiresAt) && Ended(d, d.acquiredAt + c.lockTtlMs)
    ensures forall v :: HoldsInTime(c, s, v) ==> v == w
    ensures forall i :: 0 <= i < |s.dispatches| ==> Before(s.dispatches[i], d)
  {
    assert HoldsInTime(c, s, w);
    assert Ended(d, s.now + MAX_DISPATCH_BUDGET_MS);
    forall i | 0 <= i < |s.dispatches|
      ensures Before(s.dispatches[i], d)
    {
      assert Ended(s.dispatches[i], s.workers[w].acquiredAt);
    }
  }

  /** A holder in time is alone, and its own calls are over. */
  lemma InTimeUnmarkIsAlone(c: Config, s: World, w: WorkerId)
    requires HoldsInTime(c, s, w) && Inv(c, s) && Enabled(c, s, Unmark(w))
    ensures NobodyElse(c, s, w)
  {
    forall i | 0 <= i < |s.dispatches|
      ensures Ended(s.dispatches[i], s.now)
    {
      if s.dispatches[i].lease != s.workers[w].lease {
        assert Ended(s.dispatches[i], s.workers[w].acquiredAt);
      }
    }
  }

  /** An unmark does no harm to a key that nobody else needs. */
  lemma UnmarkKeepsInv(c: Config, s: World, w: WorkerId)
    requires Inv(c, s) && Enabled(c, s, Unmark(w)) && NobodyElse(c, s, w)
    ensures Inv(c, Apply(c, s, Unmark(w)))
  {
    var t := Apply(c, s, Unmark(w));
    hide Ended, Enabled;
    assert Fewer(s, t);
    assert forall v :: HoldsInTime(c, t, v) ==> HoldsInTime(c, s, v) && v != w;
    assert KeyServes(c, t);
    FewerKeepsInv(c, s, t);
  }

  lemma MarkKeepsInv(c: Config, s: World)
    requires ValidConfig(c) && Inv(c, s) && Enabled(c, s, MarkLands)
    ensures Inv(c, Apply(c, s, MarkLands))
  {
    var t := Apply(c, s, MarkLands);
    forall i | 0 <= i < |s.dispatches|
      ensures Ended(s.dispatches[i], t.key.value.expiresAt)
    {
      assert Ended(s.dispatches[i], s.dispatches[i].acquiredAt + c.lockTtlMs);
    }
    assert forall v :: HoldsInTime(c, t, v) ==> HoldsInTime(c, s, v);
    FewerKeepsInv(c, s, t);
  }

  lemma StepKeepsInv(c: Config, s: World, step: Step)
    requires ValidConfig(c) && c.inTime && Inv(c, s) && Enabled(c, s, step)
    ensures Inv(c, Apply(c, s, step))
  {
    if step.SetFirst? {
      SetNxKeepsInv(c, s, step.w, Refused);
    } else if step.SetAgain? {
      SetNxKeepsInv(c, s, step.w, Told(Locked));
    } else if step.Send? {
      SendKeepsInv(c, s, step.w, step.log, step.startAt, step.providers);
    } else if step.Unmark? {
      InTimeUnmarkIsAlone(c, s, step.w);
      UnmarkKeepsInv(c, s, step.w);
    } else if step.MarkLands? {
      MarkKeepsInv(c, s);
    } else {
      hide Inv, KeyServes, LogWithinBudget, CallsDone;
      assert KeyServes(c, s) by {
        InvServes(c, s);
      }
      assert Fewer(s, Apply(c, s, step));
      SameKeyServes(c, s, Apply(c, s, step));
      FewerKeepsInv(c, s, Apply(c, s, step));
    }
  }

  lemma InvServes(c: Config, s: World)
    requires Inv(c, s)
    ensures KeyServes(c, s)
  {
  }

  lemma {:induction false} RunKeepsInv(c: Config, s: World, steps: seq<Step>)
    requires ValidConfig(c) && c.inTime && Inv(c, s) && IsRun(c, s, steps)
    ensures Inv(c, After(c, s, steps))
    decreases |steps|
  {
    if steps != [] {
      hide Inv, Enabled, Apply;
      StepKeepsInv(c, s, steps[0]);
      RunKeepsInv(c, Apply(c, s, steps[0]), steps[1..]);
    }
  }

  // ---------------------------------------------------------------- main results

  /** Over every interleaving, expiry and late `markProcessed` included, at most one worker holds the task's lease in time. */
  lemma AtMostOneHolder(c: Config, steps: seq<Step>, v: WorkerId, w: WorkerId)
    requires ValidConfig(c) && c.inTime && IsRun(c, Init(), steps)
    requires HoldsInTime(c, After(c, Init(), steps), v) && HoldsInTime(c, After(c, Init(), steps), w)
    ensures v == w
  {
    RunKeepsInv(c, Init(), steps);
  }

  /** Provider calls made for one task under different leases never overlap: given that dispatching starts at least
    * `MAX_DISPATCH_BUDGET_MS` before the lease runs out, the calls of an earlier lease have all ended when a later one's
    * first begins. With the order inside one lease, which `Delivery.DispatchLoop` keeps, no two calls ever overlap. */
  lemma ProviderCallsNeverOverlap(c: Config, steps: seq<Step>, i: nat, j: nat, a: nat, b: nat)
    requires ValidConfig(c) && c.inTime && IsRun(c, Init(), steps)
    requires var all := After(c, Init(), steps).dispatches;
      i < j < |all| && a < |all[i].log| && b < |all[j].log|
    ensures var all := After(c, Init(), steps).dispatches;
      all[i].log[a].end <= all[j].log[b].start
  {
    RunKeepsInv(c, Init(), steps);
    var s := After(c, Init(), steps);
    assert Before(s.dispatches[i], s.dispatches[j]);
  }

  // ---------------------------------------------------------------- the unmark without an owner

  /** `unmark` carries no owner token. From any state that workers in time lead to, exclusion survives one, in time or late,
    * however the workers go on from there, exactly when nobody else holds in time and every provider call has ended. */
  lemma UnmarkIsSafeExactlyWhen(c: Config, s: World, w: WorkerId)
    requires ValidConfig(c) && Inv(c, s) && Enabled(c, s, Unmark(w))
    ensures StaysExclusive(c, Apply(c, s, Unmark(w))) <==> NobodyElse(c, s, w)
    ensures HoldsInTime(c, s, w) ==> NobodyElse(c, s, w)
  {
    var t := Apply(c, s, Unmark(w));
    if HoldsInTime(c, s, w) {
      InTimeUnmarkIsAlone(c, s, w);
    }
    if NobodyElse(c, s, w) {
      UnmarkKeepsInv(c, s, w);
      InvStaysExclusive(c, t);
    } else if v :| HoldsInTime(c, s, v) && v != w {
      assert HoldsInTime(c, t, v);
      AThirdWorkerHolds(c, t, v);
    } else {
      var i :| 0 <= i < |s.dispatches| && !Ended(s.dispatches[i], s.now);
      ACallOverlaps(c, t, i);
    }
  }

  lemma InvStaysExclusive(c: Config, s: World)
    requires ValidConfig(c) && Inv(c, s)
    ensures StaysExclusive(c, s)
  {
    var strict := c.(inTime := true);
    SameInv(c, strict, s);
    hide Inv;
    forall steps | IsRun(strict, s, steps)
      ensures Exclusive(c, After(c, s, steps))
    {
      RunKeepsInv(strict, s, steps);
      SameAfter(c, strict, s, steps);
      SameInv(strict, c, After(c, s, steps));
      InvIsExclusive(c, After(c, s, steps));
    }
  }

  lemma InvIsExclusive(c: Config, s: World)
    requires Inv(c, s)
    ensures Exclusive(c, s)
  {
  }

  lemma SameInv(c: Config, d: Config, s: World)
    requires Inv(c, s) && d == c.(inTime := d.inTime)
    ensures Inv(d, s)
  {
    hide Ended, Before;
    assert forall w :: HoldsInTime(d, s, w) <==> HoldsInTime(c, s, w);
  }

  lemma {:induction false} SameAfter(c: Config, d: Config, s: World, steps: seq<Step>)
    requires d == c.(inTime := d.inTime)
    ensures After(d, s, steps) == After(c, s, steps)
    decreases |steps|
  {
    if steps != [] {
      assert Apply(d, s, steps[0]) == Apply(c, s, steps[0]);
      hide Apply;
      SameAfter(c, d, Apply(c, s, steps[0]), steps[1..]);
    }
  }

  /** Where no key lives, a newcomer takes it. */
  lemma ANewcomerHolds(c: Config, s: World, x: WorkerId) returns (t: World)
    requires !KeyLives(s) && x !in s.workers
    ensures IsRun(c, s, [Arrive(x), SetFirst(x)]) && t == After(c, s, [Arrive(x), SetFirst(x)])
    ensures t == s.(key := Some(Marker(InProgress, s.now + c.lockTtlMs)),
                    workers := s.workers[x := Holding(s.leases, s.now, false)], leases := s.leases + 1)
  {
    var arrived := Apply(c, s, Arrive(x));
    t := Apply(c, arrived, SetFirst(x));
    assert s.workers[x := Asking][x := Holding(s.leases, s.now, false)] == s.workers[x := Holding(s.leases, s.now, false)];
    RunNil(c, t);
    RunCons(c, arrived, SetFirst(x), []);
    RunCons(c, s, Arrive(x), [SetFirst(x)]);
  }

  lemma AThirdWorkerHolds(c: Config, s: World, v: WorkerId)
    requires ValidConfig(c) && s.key.None? && HoldsInTime(c, s, v)
    ensures !StaysExclusive(c, s)
  {
    var strict := c.(inTime := true);
    var x := Unused(s.workers.Keys);
    var t := ANewcomerHolds(strict, s, x);
    SameAfter(c, strict, s, [Arrive(x), SetFirst(x)]);
    assert HoldsInTime(c, t, v) && HoldsInTime(c, t, x);
  }

  lemma ACallOverlaps(c: Config, s: World, i: nat)
    requires ValidConfig(c) && s.key.None? && i < |s.dispatches| && !Ended(s.dispatches[i], s.now)
    ensures !StaysExclusive(c, s)
  {
    var strict := c.(inTime := true);
    var x := Unused(s.workers.Keys);
    var t := ANewcomerHolds(strict, s, x);
    var log := [Call(0, s.now, s.now, Answer(true, false, None))];
    var u := Apply(strict, t, Send(x, log, 0, 1));
    SendIsEnabled(strict, t, x, log[0]);
    RunNil(strict, u);
    RunCons(strict, t, Send(x, log, 0, 1), []);
    RunsOn(strict, s, [Arrive(x), SetFirst(x)], [Send(x, log, 0, 1)]);
    SameAfter(c, strict, s, [Arrive(x), SetFirst(x)] + [Send(x, log, 0, 1)]);
    hide IsRun, Enabled;
    assert u.dispatches[i] == s.dispatches[i] && u.dispatches[|s.dispatches|].log == log;
    assert !Before(u.dispatches[i], u.dispatches[|s.dispatches|]);
    assert !Apart(u);
  }

  lemma SendIsEnabled(c: Config, s: World, x: WorkerId, call: Call)
    requires ValidConfig(c) && Holds(s, x) && s.workers[x] == Holding(s.workers[x].lease, s.now, false)
    requires call.provider == 0 && call.start == s.now == call.end
    ensures Enabled(c, s, Send(x, [call], 0, 1))
  {
  }

  lemma {:induction false} RunsOn(c: Config, s: World, first: seq<Step>, second: seq<Step>)
    requires IsRun(c, s, first) && IsRun(c, After(c, s, first), second)
    ensures IsRun(c, s, first + second) && After(c, s, first + second) == After(c, After(c, s, first), second)
    decreases |first|
  {
    hide Enabled, Apply;
    if first == [] {
      assert first + second == second;
    } else {
      RunsOn(c, Apply(c, s, first[0]), first[1..], second);
      assert (first + second)[1..] == first[1..] + second;
    }
  }

  /** Exclusion over all runs, whatever the TTLs, is exactly the assumption that holders leave in time. */
  lemma ExclusionIsExactlyInTime(c: Config)
    requires ValidConfig(c)
    ensures (forall steps :: IsRun(c, Init(), steps) ==> Exclusive(c, After(c, Init(), steps))) <==> c.inTime
  {
    if c.inTime {
      forall steps | IsRun(c, Init(), steps)
        ensures Exclusive(c, After(c, Init(), steps))
      {
        RunKeepsInv(c, Init(), steps);
      }
    } else {
      LateUnmarkLetsTwoHold(c);
    }
  }

  /** A holder that outlives its lease deletes its successor's, and a third worker then holds in time together with the
    * second. */
  lemma LateUnmarkLetsTwoHold(c: Config)
    requires !c.inTime
    ensures var steps := [Arrive(0), SetFirst(0), Tick(c.lockTtlMs + 1), Arrive(1), SetFirst(1), Unmark(0), Arrive(2), SetFirst(2)];
      && IsRun(c, Init(), steps)
      && var s := After(c, Init(), steps);
         HoldsInTime(c, s, 1) && HoldsInTime(c, s, 2)
  {
    var late := c.lockTtlMs + 1;
    var s2 := ANewcomerHolds(c, Init(), 0);
    var s3 := Apply(c, s2, Tick(late));
    var s5 := ANewcomerHolds(c, s3, 1);
    var s6 := Apply(c, s5, Unmark(0));
    assert s6 == World(late, None, map[1 := Holding(1, late, false)], 2, [], 0);
    var s8 := ANewcomerHolds(c, s6, 2);
    assert Enabled(c, s5, Unmark(0));
    hide IsRun, After, Enabled, Apply;
    RunCons(c, s5, Unmark(0), [Arrive(2), SetFirst(2)]);
    RunsOn(c, s3, [Arrive(1), SetFirst(1)], [Unmark(0)] + [Arrive(2), SetFirst(2)]);
    TickRuns(c, s2, late, [Arrive(1), SetFirst(1)] + ([Unmark(0)] + [Arrive(2), SetFirst(2)]));
    RunsOn(c, Init(), [Arrive(0), SetFirst(0)], [Tick(late)] + ([Arrive(1), SetFirst(1)] + ([Unmark(0)] + [Arrive(2), SetFirst(2)])));
    assert [Arrive(0), SetFirst(0)] + ([Tick(late)] + ([Arrive(1), SetFirst(1)] + ([Unmark(0)] + [Arrive(2), SetFirst(2)]))) ==
           [Arrive(0), SetFirst(0), Tick(late), Arrive(1), SetFirst(1), Unmark(0), Arrive(2), SetFirst(2)];
  }

  lemma TickRuns(c: Config, s: World, ms: nat, rest: seq<Step>)
    requires IsRun(c, Apply(c, s, Tick(ms)), rest)
    ensures IsRun(c, s, [Tick(ms)] + rest) && After(c, s, [Tick(ms)] + rest) == After(c, Apply(c, s, Tick(ms)), rest)
  {
    RunCons(c, s, Tick(ms), rest);
  }

  lemma RunNil(c: Config, s: World)
    ensures IsRun(c, s, []) && After(c, s, []) == s
  {
  }

  lemma RunCons(c: Config, s: World, step: Step, rest: seq<Step>)
    requires Enabled(c, s, step) && IsRun(c, Apply(c, s, step), rest)
    ensures IsRun(c, s, [step] + rest) && After(c, s, [step] + rest) == After(c, Apply(c, s, step), rest)
  {
    assert ([step] + rest)[1..] == rest;
  }
}
