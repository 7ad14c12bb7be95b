/** What `acquireLease` answers (src/idempotency/index.ts), and for how long a task marked processed stays closed to every
  * worker: results about the runs of TaskLease. */
module LeaseAnswers {
  import opened Delivery
  import opened TaskLease
  import opened Wrappers

  // ---------------------------------------------------------------- one call of acquireLease

  /** Undisturbed, `acquireLease` takes the lease exactly when no key lives; otherwise it says `completed` of a processed
    * task and `locked` of one in progress, and leaves the key alone. */
  lemma AcquireAnswers(c: Config, s: World, x: WorkerId)
    requires x !in s.workers
    ensures var steps := if KeyLives(s) then [Arrive(x), SetFirst(x), Get(x)] else [Arrive(x), SetFirst(x)];
      && IsRun(c, s, steps)
      && var t := After(c, s, steps);
         && x in t.workers && t.workers - {x} == s.workers && t.now == s.now && t.dispatches == s.dispatches && t.marks == s.marks
         && (t.workers[x].Holding? <==> s.key.None? || s.key.value.expiresAt < s.now)
         && (t.workers[x] == Told(Completed) <==>
               s.key.Some? && s.now <= s.key.value.expiresAt && s.key.value.value == Processed)
         && (t.workers[x] == Told(Locked) <==>
               s.key.Some? && s.now <= s.key.value.expiresAt && s.key.value.value == InProgress)
         && (if t.workers[x].Holding? then
               && t.workers[x] == Holding(s.leases, s.now, false) && t.leases == s.leases + 1
               && t.key == Some(Marker(InProgress, s.now + c.lockTtlMs))
             else t.leases == s.leases && t.key == s.key)
  {
    if KeyLives(s) {
      var arrived := Apply(c, s, Arrive(x));
      var refused := Apply(c, arrived, SetFirst(x));
      var told := Apply(c, refused, Get(x));
      RunNil(c, told);
      RunCons(c, refused, Get(x), []);
      RunCons(c, arrived, SetFirst(x), [Get(x)]);
      RunCons(c, s, Arrive(x), [SetFirst(x), Get(x)]);
    } else {
      var t := ANewcomerHolds(c, s, x);
    }
  }

  /** A worker refused because of a key that expires before it can look sets again: it takes the lease exactly when nobody
    * else has taken it meanwhile, and is told `locked` otherwise. */
  lemma SecondSetAnswers(c: Config, s: World, w: WorkerId, between: seq<Step>)
    requires w in s.workers && s.workers[w].Refused? && !KeyLives(s)
    requires IsRun(c, Apply(c, s, Get(w)), between)
    requires var u := After(c, Apply(c, s, Get(w)), between); w in u.workers && u.workers[w].Vanished?
    ensures var u := After(c, Apply(c, s, Get(w)), between);
      && IsRun(c, s, [Get(w)] + (between + [SetAgain(w)]))
      && var t := After(c, s, [Get(w)] + (between + [SetAgain(w)]));
         && t.workers.Keys == u.workers.Keys
         && (t.workers[w] == Holding(u.leases, u.now, false) <==> u.key.None? || u.key.value.expiresAt < u.now)
         && (t.workers[w] == Told(Locked) <==> u.key.Some? && u.now <= u.key.value.expiresAt)
         && t.leases == (if t.workers[w].Holding? then u.leases + 1 else u.leases)
         && t.key == (if t.workers[w].Holding? then Some(Marker(InProgress, u.now + c.lockTtlMs)) else u.key)
  {
    var u := After(c, Apply(c, s, Get(w)), between);
    var t := Apply(c, u, SetAgain(w));
    RunNil(c, t);
    RunCons(c, u, SetAgain(w), []);
    assert [SetAgain(w)] + [] == [SetAgain(w)];
    RunsOn(c, Apply(c, s, Get(w)), between, [SetAgain(w)]);
    RunCons(c, s, Get(w), between + [SetAgain(w)]);
  }

  // ---------------------------------------------------------------- answers are never made up

  ghost predicate NoUnmark(steps: seq<Step>) {
    forall k :: 0 <= k < |steps| ==> !steps[k].Unmark?
  }

  /** A processed key and a worker told `completed` both go back to a mark that landed. */
  ghost predicate CompletedHasCause(s: World, landed: bool) {
    && (s.key.Some? && s.key.value.value.Processed? ==> landed)
    && (forall w :: w in s.workers && s.workers[w] == Told(Completed) ==> landed)
    && (forall w :: w in s.workers && s.workers[w].Told? ==> s.workers[w].answer in {Locked, Completed})
  }

  lemma {:induction false} CompletedOnlyOnceMarked(c: Config, s: World, steps: seq<Step>, landed: bool)
    requires IsRun(c, s, steps) && CompletedHasCause(s, landed)
    ensures CompletedHasCause(After(c, s, steps), landed || exists k :: 0 <= k < |steps| && steps[k] == MarkLands)
    decreases |steps|
  {
    if steps != [] {
      hide LogWithinBudget, CallsDone;
      var t, now := Apply(c, s, steps[0]), landed || steps[0] == MarkLands;
      assert CompletedHasCause(t, now);
      hide Enabled, Apply, CompletedHasCause;
      CompletedOnlyOnceMarked(c, t, steps[1..], now);
      if k :| 0 <= k < |steps[1..]| && steps[1..][k] == MarkLands {
        assert steps[k + 1] == MarkLands;
      }
    }
  }

  /** Over every run: a worker leaves with `completed` only if the task was marked processed, and `acquireLease` answers
    * nothing else to those it refuses but `locked`. */
  lemma CompletedMeansProcessed(c: Config, steps: seq<Step>, w: WorkerId)
    requires IsRun(c, Init(), steps)
    requires w in After(c, Init(), steps).workers && After(c, Init(), steps).workers[w].Told?
    ensures After(c, Init(), steps).workers[w].answer in {Locked, Completed}
    ensures After(c, Init(), steps).workers[w].answer == Completed ==> MarkLands in steps
  {
    CompletedOnlyOnceMarked(c, Init(), steps, false);
  }

  // ---------------------------------------------------------------- how long a key keeps everybody out

  /** No key lives longer than the full TTL from now. */
  predicate KeyIsShort(c: Config, s: World) {
    s.key.Some? ==> s.key.value.expiresAt <= s.now + c.fullTtlMs
  }

  lemma {:induction false} KeysAreShort(c: Config, s: World, steps: seq<Step>)
    requires ValidConfig(c) && IsRun(c, s, steps) && KeyIsShort(c, s)
    ensures KeyIsShort(c, After(c, s, steps))
    decreases |steps|
  {
    if steps != [] {
      hide LogWithinBudget, CallsDone;
      KeysAreShort(c, Apply(c, s, steps[0]), steps[1..]);
    }
  }

  lemma {:induction false} TimeGoesOn(c: Config, s: World, steps: seq<Step>)
    requires IsRun(c, s, steps)
    ensures s.now <= After(c, s, steps).now && s.leases <= After(c, s, steps).leases
    decreases |steps|
  {
    if steps != [] {
      hide LogWithinBudget, CallsDone;
      TimeGoesOn(c, Apply(c, s, steps[0]), steps[1..]);
    }
  }

  /** What a key that lives until `end` at least, and holds `Processed` if `done`, keeps. */
  predicate Shut(s: World, end: nat, done: bool) {
    s.key.Some? && end <= s.key.value.expiresAt && (done ==> s.key.value.value.Processed?)
  }

  lemma {:induction false} StaysShut(c: Config, s: World, steps: seq<Step>, end: nat, done: bool)
    requires ValidConfig(c) && IsRun(c, s, steps) && NoUnmark(steps)
    requires Shut(s, end, done) && end <= s.now + c.fullTtlMs && After(c, s, steps).now <= end
    ensures Shut(After(c, s, steps), end, done) && After(c, s, steps).leases == s.leases
    decreases |steps|
  {
    if steps != [] {
      hide LogWithinBudget, CallsDone;
      TimeGoesOn(c, s, steps);
      TimeGoesOn(c, Apply(c, s, steps[0]), steps[1..]);
      assert NoUnmark(steps[1..]);
      assert !steps[0].Unmark?;
      StaysShut(c, Apply(c, s, steps[0]), steps[1..], end, done);
    }
  }

  /** In every run, whatever key lives keeps every worker out until it expires, unless somebody unmarks it: no lease is
    * taken, however many duplicates ask. */
  lemma NobodyPassesALivingKey(c: Config, first: seq<Step>, rest: seq<Step>)
    requires ValidConfig(c) && IsRun(c, Init(), first) && IsRun(c, After(c, Init(), first), rest) && NoUnmark(rest)
    requires var s := After(c, Init(), first); KeyLives(s) && After(c, s, rest).now <= s.key.value.expiresAt
    ensures var s := After(c, Init(), first); After(c, s, rest).leases == s.leases
  {
    var s := After(c, Init(), first);
    KeysAreShort(c, Init(), first);
    StaysShut(c, s, rest, s.key.value.expiresAt, false);
  }

  /** Once `markProcessed` has landed, nobody takes the lease, and everybody who asks finds the task completed, until its
    * full TTL is over or somebody unmarks it. */
  lemma ProcessedStaysProcessed(c: Config, first: seq<Step>, rest: seq<Step>)
    requires ValidConfig(c) && IsRun(c, Init(), first) && IsRun(c, After(c, Init(), first), [MarkLands] + rest) && NoUnmark(rest)
    requires var s := After(c, Init(), first); After(c, s, [MarkLands] + rest).now <= s.now + c.fullTtlMs
    ensures var s := After(c, Init(), first);
      var t := After(c, s, [MarkLands] + rest);
      t.leases == s.leases && KeyLives(t) && t.key.value.value == Processed
  {
    var s := After(c, Init(), first);
    assert ([MarkLands] + rest)[1..] == rest && ([MarkLands] + rest)[0] == MarkLands;
    StaysShut(c, Apply(c, s, MarkLands), rest, s.now + c.fullTtlMs, true);
  }

  lemma {:induction false} KeyIsLeftAlone(c: Config, s: World, steps: seq<Step>)
    requires IsRun(c, s, steps) && NoUnmark(steps) && MarkLands !in steps && After(c, s, steps).leases == s.leases
    ensures After(c, s, steps).key == s.key
    decreases |steps|
  {
    if steps != [] {
      hide LogWithinBudget, CallsDone;
      assert NoUnmark(steps[1..]);
      assert !steps[0].Unmark? && !steps[0].MarkLands? && MarkLands !in steps[1..];
      TimeGoesOn(c, Apply(c, s, steps[0]), steps[1..]);
      KeyIsLeftAlone(c, Apply(c, s, steps[0]), steps[1..]);
    }
  }

  /** And no longer: with no further mark, a millisecond after its TTL the next newcomer takes the lease, if none has. */
  lemma ProcessedForItsTtlOnly(c: Config, s: World, rest: seq<Step>, x: WorkerId)
    requires IsRun(c, s, [MarkLands] + rest) && NoUnmark(rest) && MarkLands !in rest
    requires var t := After(c, s, [MarkLands] + rest);
      t.leases == s.leases && t.now > s.now + c.fullTtlMs && x !in t.workers
    ensures var t := After(c, s, [MarkLands] + rest);
      IsRun(c, t, [Arrive(x), SetFirst(x)]) && Holds(After(c, t, [Arrive(x), SetFirst(x)]), x)
  {
    assert ([MarkLands] + rest)[1..] == rest && ([MarkLands] + rest)[0] == MarkLands;
    KeyIsLeftAlone(c, Apply(c, s, MarkLands), rest);
    var u := ANewcomerHolds(c, After(c, s, [MarkLands] + rest), x);
  }

  // ---------------------------------------------------------------- a lease always ends

  /** A holder whose calls are over can mark the task processed; the marker then lives for the full TTL, and only that one
    * mark was owed. */
  lemma AHolderCanFinish(c: Config, s: World, w: WorkerId)
    requires Holds(s, w) && CallsDone(s, s.workers[w].lease)
    ensures IsRun(c, s, [IssueMark(w), MarkLands])
    ensures After(c, s, [IssueMark(w), MarkLands]) ==
            s.(workers := s.workers - {w}, key := Some(Marker(Processed, s.now + c.fullTtlMs)))
  {
    var issued := Apply(c, s, IssueMark(w));
    var landed := Apply(c, issued, MarkLands);
    RunNil(c, landed);
    RunCons(c, issued, MarkLands, []);
    RunCons(c, s, IssueMark(w), [MarkLands]);
  }

  /** A holder in time whose calls are over can release the task instead, and the very next duplicate takes it. */
  lemma AReleasedTaskIsTakenUp(c: Config, s: World, w: WorkerId, x: WorkerId)
    requires HoldsInTime(c, s, w) && CallsDone(s, s.workers[w].lease) && x !in s.workers
    ensures IsRun(c, s, [Unmark(w)] + [Arrive(x), SetFirst(x)])
    ensures var t := After(c, s, [Unmark(w)] + [Arrive(x), SetFirst(x)]); Holds(t, x) && !Holds(t, w)
  {
    var freed := Apply(c, s, Unmark(w));
    var t := ANewcomerHolds(c, freed, x);
    RunCons(c, s, Unmark(w), [Arrive(x), SetFirst(x)]);
  }

  /** A task whose holder died is not stuck: once its key's time is over, the next duplicate takes the lease. */
  lemma ADeadHoldersTaskIsTakenUp(c: Config, s: World, w: WorkerId, x: WorkerId)
    requires w in s.workers && x !in s.workers && s.key.Some?
    ensures var ms := if KeyLives(s) then s.key.value.expiresAt - s.now + 1 else 0;
      var steps := [Die(w)] + ([Tick(ms)] + [Arrive(x), SetFirst(x)]);
      IsRun(c, s, steps) && Holds(After(c, s, steps), x) && !Holds(After(c, s, steps), w)
  {
    var ms := if KeyLives(s) then s.key.value.expiresAt - s.now + 1 else 0;
    var dead := Apply(c, s, Die(w));
    var later := Apply(c, dead, Tick(ms));
    var t := ANewcomerHolds(c, later, x);
    TickRuns(c, dead, ms, [Arrive(x), SetFirst(x)]);
    RunCons(c, s, Die(w), [Tick(ms)] + [Arrive(x), SetFirst(x)]);
  }

  function Marks(steps: seq<Step>): (n: int) {
    if steps == [] then 0
    else (if steps[0].IssueMark? then 1 else if steps[0].MarkLands? then -1 else 0) + Marks(steps[1..])
  }

  /** Every mark that lands was issued by a holder that left, once each. */
  lemma {:induction false} EveryMarkLandsOnce(c: Config, s: World, steps: seq<Step>)
    requires IsRun(c, s, steps)
    ensures After(c, s, steps).marks == s.marks + Marks(steps)
    decreases |steps|
  {
    if steps != [] {
      hide LogWithinBudget, CallsDone;
      EveryMarkLandsOnce(c, Apply(c, s, steps[0]), steps[1..]);
    }
  }
}
