/** The sliding-window lease script (src/redis/index.ts, LUA_LEASE_API_RATE_LIMIT) over the two counters of one project.
  * All workers share one clock, in milliseconds; the script runs at `Store.now` with the caller's own, earlier reading. */
module LeaseScript {
  import opened Arithmetic
  import opened Doubles

  datatype Counter = Counter(count: nat, expiresAt: nat)

  /** `granted` is what the script has ever handed out in each bucket: it never expires and the script never reads it. */
  datatype Store = Store(now: nat, counters: map<nat, Counter>, granted: map<nat, nat>)

  datatype Reply = Reply(store: Store, granted: int)

  function Bucket(time: nat, window: nat): (b: nat)
    requires window > 0
  {
    time / window
  }

  function Offset(time: nat, window: nat): (t: nat)
    requires window > 0
  {
    time % window
  }

  /** GET of a counter, zero once it has expired or when there is none. */
  function Count(s: Store, bucket: int): (n: nat) {
    if bucket >= 0 && bucket in s.counters && s.now <= s.counters[bucket].expiresAt then s.counters[bucket].count else 0
  }

  function GrantedIn(s: Store, bucket: int): (n: nat) {
    if bucket >= 0 && bucket in s.granted then s.granted[bucket] else 0
  }

  function TtlSeconds(window: nat): nat {
    (window * 2 + 999) / 1000 + 60
  }

  /** `estimated` is what the script's double arithmetic makes of the two counters (see `EstimateOf`). */
  function Lease(s: Store, now: nat, window: int, maxReqs: int, requested: nat, estimated: int): (r: Reply) {
    if window <= 0 then Reply(s, -1)
    else if maxReqs <= 0 then Reply(s, 0)
    else
      var bucket := Bucket(now, window);
      var current := Count(s, bucket);
      var available := maxReqs - estimated;
      if available <= 0 then Reply(s, 0)
      else
        var toGrant := if requested <= available then requested else available;
        // INCRBY, and EXPIRE when this was the counter's first grant
        var expiresAt := if current == 0 then s.now + TtlSeconds(window) * 1000 else s.counters[bucket].expiresAt;
        Reply(s.(counters := s.counters[bucket := Counter(current + toGrant, expiresAt)],
                 granted := s.granted[bucket := GrantedIn(s, bucket) + toGrant]),
              toGrant)
  }

  /** An estimate that double arithmetic can reach from the counters as they are. */
  predicate EstimateOf(s: Store, now: nat, window: nat, estimated: int)
    requires window > 0
  {
    var b := Bucket(now, window);
    Estimates(Count(s, b - 1), Count(s, b), Offset(now, window), window, estimated)
  }

  // ---------------------------------------------------------------- arithmetic

  function CeilDiv(a: nat, window: nat): nat
    requires window > 0
  {
    (a + window - 1) / window
  }

  function Elapsed(prev: nat, offset: nat, window: nat): nat
    requires window > 0
  {
    CeilDiv(prev * offset, window)
  }

  /** What rounding down the weighted part leaves is what rounding up the elapsed part takes. */
  lemma WeightsSplit(prev: nat, current: nat, offset: nat, window: nat)
    requires offset < window
    ensures ExactEstimate(prev, current, offset, window) + Elapsed(prev, offset, window) == prev + current
  {
    assert prev * (window - offset) == prev * window - prev * offset by {
      assert prev * (window - offset) + prev * offset == prev * window;
    }
    FloorOfRest(prev, prev * offset, window);
  }

  lemma FloorOfRest(p: nat, x: nat, window: nat)
    requires window > 0 && x <= p * window
    ensures (p * window - x) / window + CeilDiv(x, window) == p
  {
    var c := CeilDiv(x, window);
    DivideIs(x + window - 1, window, c);
    assert (p - c) * window == p * window - c * window;
    QuotientIs(p * window - x, window, p - c);
  }

  lemma BucketBounds(time: nat, window: nat)
    requires window > 0
    ensures Bucket(time, window) * window <= time < (Bucket(time, window) + 1) * window
  {
    DivideIs(time, window, time / window);
  }

  lemma TtlCoversTwoWindows(window: nat)
    ensures TtlSeconds(window) * 1000 >= 2 * window + 60000
  {
  }

  // ---------------------------------------------------------------- counters stay faithful

  /** A command reaches Redis at most this long after its caller read the clock. */
  const MAX_LAG := 60000

  /** The last instant at which some caller may still read bucket `b`, as its own or as the one before. */
  function LastRead(b: nat, window: nat): nat {
    (b + 2) * window + MAX_LAG
  }

  /** As long as some caller may read a bucket, its counter is live and holds exactly what was granted in it; nothing was
    * ever granted in a bucket without a counter. */
  ghost predicate Faithful(s: Store, window: nat) {
    && (forall b: nat :: b in s.granted ==>
          s.now < LastRead(b, window) ==>
            b in s.counters && s.counters[b].count == s.granted[b]
            && (s.counters[b].count > 0 ==> s.counters[b].expiresAt >= LastRead(b, window)))
    && (forall b: nat :: b in s.counters ==> b in s.granted)
  }

  ghost predicate WithinLimit(s: Store, limit: nat) {
    forall b: nat :: b in s.granted ==> s.granted[b] <= limit
  }

  predicate Timely(s: Store, now: nat) {
    now <= s.now <= now + MAX_LAG
  }

  lemma FaithfulReads(s: Store, window: nat, now: nat)
    requires window > 0 && Faithful(s, window) && Timely(s, now)
    ensures var b := Bucket(now, window);
      && Count(s, b) == GrantedIn(s, b) && Count(s, b - 1) == GrantedIn(s, b - 1)
      && s.now < LastRead(b, window)
  {
    var b := Bucket(now, window);
    BucketBounds(now, window);
    assert (b + 1) * window == b * window + window && (b + 2) * window == b * window + 2 * window;
    assert s.now < LastRead(b, window);
    if b > 0 {
      assert ((b - 1) + 2) * window == (b + 1) * window;
      assert s.now < LastRead(b - 1, window);
    }
  }

  lemma NewCounterLivesLongEnough(s: Store, window: nat, now: nat)
    requires window > 0 && Timely(s, now)
    ensures s.now + TtlSeconds(window) * 1000 >= LastRead(Bucket(now, window), window)
  {
    BucketBounds(now, window);
    TtlCoversTwoWindows(window);
    var b := Bucket(now, window);
    assert (b + 2) * window == b * window + 2 * window;
  }

  lemma OffsetBounds(time: nat, window: nat)
    requires window > 0
    ensures Offset(time, window) < window
  {
  }

  /** Even one too low, the estimate never falls below the current count. */
  lemma EstimateCoversCurrent(prev: nat, current: nat, offset: nat, window: nat, e: int)
    requires offset < window && Estimates(prev, current, offset, window, e)
    ensures e >= current
  {
    var n := prev * (window - offset);
    if e < ExactEstimate(prev, current, offset, window) {
      assert n > 0;
      DivideParts(n, window);
    }
  }

  /** The script grants what was asked, or else all the room that the estimate leaves, and never takes a bucket over the
    * limit. It refuses only when the estimate has reached the limit. After a grant at offset `t` into a window the previous
    * and the current bucket together hold at most `limit + ceil(previous * t / window) + 1`; they stay within the bound
    * without the 1 exactly when the estimate came out right or the request would have fitted under the right one. */
  lemma LeaseIsBounded(s: Store, now: nat, window: nat, maxReqs: nat, requested: nat, estimated: int)
    requires window > 0 && maxReqs > 0 && Faithful(s, window) && Timely(s, now) && EstimateOf(s, now, window, estimated)
    ensures var r, b, t := Lease(s, now, window, maxReqs, requested, estimated), Bucket(now, window), Offset(now, window);
      var prev, exact := GrantedIn(s, b - 1), ExactEstimate(GrantedIn(s, b - 1), GrantedIn(s, b), t, window);
      && 0 <= r.granted <= requested
      && GrantedIn(r.store, b) == GrantedIn(s, b) + r.granted
      && (forall other: int :: other != b ==> GrantedIn(r.store, other) == GrantedIn(s, other))
      && (requested > 0 ==> (r.granted == 0 <==> estimated >= maxReqs))
      && (r.granted < requested ==> r.granted == 0 || r.granted == maxReqs - estimated)
      && (r.granted > 0 ==>
            && GrantedIn(r.store, b) <= maxReqs
            && prev + GrantedIn(r.store, b) <= maxReqs + Elapsed(prev, t, window) + 1
            && (prev + GrantedIn(r.store, b) <= maxReqs + Elapsed(prev, t, window) <==>
                estimated == exact || requested <= maxReqs - exact))
  {
    hide ExactEstimate, Elapsed, Bucket, Offset, TtlSeconds, LastRead, CeilDiv;
    FaithfulReads(s, window, now);
    OffsetBounds(now, window);
    var b: int, t := Bucket(now, window), Offset(now, window);
    WeightsSplit(GrantedIn(s, b - 1), GrantedIn(s, b), t, window);
    EstimateCoversCurrent(GrantedIn(s, b - 1), GrantedIn(s, b), t, window, estimated);
  }

  /** What the script writes: nothing if it answers without a grant, and otherwise the caller's own counter, raised by the
    * grant. Its expiry is set by its first grant, to two windows and a minute in whole seconds, and never moved. */
  lemma LeaseWritesItsCounter(s: Store, now: nat, window: int, maxReqs: int, requested: nat, estimated: int)
    requires window <= 0 || estimated >= 0
    ensures var r := Lease(s, now, window, maxReqs, requested, estimated);
      if window <= 0 then r == Reply(s, -1)
      else if maxReqs <= 0 || estimated >= maxReqs then r == Reply(s, 0)
      else
        var b := now / window;
        && b in r.store.counters && r.store.counters - {b} == s.counters - {b} && r.store.now == s.now
        && r.store.counters[b].count == Count(s, b) + r.granted
        && (if Count(s, b) > 0 then r.store.counters[b].expiresAt == s.counters[b].expiresAt
            else
              && (r.store.counters[b].expiresAt - s.now) % 1000 == 0
              && 2 * window + 60_000 <= r.store.counters[b].expiresAt - s.now < 2 * window + 61_000)
  {
    if window > 0 && maxReqs > 0 && estimated < maxReqs {
      var seconds := TtlSeconds(window);
      assert seconds * 1000 % 1000 == 0;
    }
  }

  /** A bucket's count never exceeds the limit, and no counter expires while it can still be read, whatever leases arrive
    * at most `MAX_LAG` late. */
  lemma LeaseKeepsFaithful(s: Store, now: nat, window: nat, maxReqs: int, requested: nat, estimated: int, limit: nat)
    requires window > 0 && Faithful(s, window) && Timely(s, now) && EstimateOf(s, now, window, estimated)
    requires WithinLimit(s, limit) && maxReqs <= limit
    ensures var t := Lease(s, now, window, maxReqs, requested, estimated).store;
      Faithful(t, window) && WithinLimit(t, limit) && t.now == s.now
  {
    hide ExactEstimate, Estimates, Elapsed, Bucket, Offset, TtlSeconds, LastRead, CeilDiv;
    FaithfulReads(s, window, now);
    OffsetBounds(now, window);
    NewCounterLivesLongEnough(s, window, now);
    var b: int := Bucket(now, window);
    EstimateCoversCurrent(Count(s, b - 1), Count(s, b), Offset(now, window), window, estimated);
  }

  lemma TimeKeepsFaithful(s: Store, window: nat, ms: nat)
    requires Faithful(s, window)
    ensures Faithful(s.(now := s.now + ms), window)
  {
    hide LastRead;
  }

  // ---------------------------------------------------------------- a token over

  /** A limit of 555 a minute with batches of 47, after a minute that used all of it: 11.3 seconds into the next minute. */
  function FullMinute(): (s: Store) {
    Store(71_300, map[0 := Counter(555, 180_000)], map[0 := 555])
  }

  function ThreeLeases(): (s: Store) {
    var first := Lease(FullMinute(), 71_300, 60_000, 555, 47, 450).store;
    var second := Lease(first, 71_300, 60_000, 555, 47, 497).store;
    Lease(second, 71_300, 60_000, 555, 47, 544).store
  }

  /** No other estimate comes out of doubles for the three leases, and 511 for the fourth, 16 seconds into the minute: it
    * is granted 44 tokens, one more than `555 + ceil(555 * 16 / 60)` leaves. */
  lemma RoundingAdmitsOneMore()
    ensures Faithful(FullMinute(), 60_000)
    ensures forall e, current: nat :: current <= 555 && Computes(555, current, 11_300, 60_000, e) ==> e == 450 + current
    ensures Computes(555, 105, 16_000, 60_000, 511)
    ensures var later := ThreeLeases().(now := 76_000); var r := Lease(later, 76_000, 60_000, 555, 47, 511);
      && GrantedIn(later, 0) == 555 && GrantedIn(later, 1) == 105 && EstimateOf(later, 76_000, 60_000, 511)
      && r.granted == 44 && GrantedIn(r.store, 0) + GrantedIn(r.store, 1) == 704 && 555 + Elapsed(555, 16_000, 60_000) == 703
  {
    SixteenSecondsIn();
    hide Computes;
    forall e, current: nat | current <= 555 && Computes(555, current, 11_300, 60_000, e)
      ensures e == 450 + current
    {
      DoublesEstimate(555, current, 11_300, 60_000, e);
    }
  }
}
