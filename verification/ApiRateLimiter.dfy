/** The in-process token limiter (src/rate-limiter/api-rate-limiter.ts), cut at its awaits.
  *
  * A limiter keeps one lease state per project; a state that `maybePrune`, `invalidate` or `clear` drops lives on in the
  * requests still waiting on it. A lease is named by a number; its promise resolves to what it credited. */
module ApiRateLimiter {

  import opened Wrappers

  /** A lease state as a value. */
  datatype Local = Local(bucket: int, tokens: nat, batch: nat, inFlight: Option<nat>)

  /** How a stretch of `check` between two awaits ends. */
  datatype Answer = Admit | Refuse | Await(lease: nat)

  datatype Turn = Turn(local: Local, answer: Answer, started: bool)

  /** Five seconds' worth of a limit over 60 a minute, rounded up and at least 10, or as much of that as a batch may hold.
    * Never more than the limit itself, so one failed lease admits at most one limit's worth, and never zero while the limit
    * is positive. */
  function CalculateTokenBatchSize(limitRpm: int, maxBatchSize: nat): (n: nat)
    ensures n == 0 <==> limitRpm <= 0 || (limitRpm > 60 && maxBatchSize == 0)
    ensures limitRpm >= 0 ==> n <= limitRpm
    ensures n <= BatchCap(maxBatchSize)
    ensures 0 < limitRpm <= 10 ==> n == 1
    ensures 10 < limitRpm <= 60 ==> n == 5
    ensures limitRpm > 60 && n < maxBatchSize ==> n >= 10 && 12 * n >= limitRpm
    ensures limitRpm > 60 ==> n <= 10 || 12 * (n - 1) < limitRpm
    ensures limitRpm > 60 ==> n <= maxBatchSize
  {
    if limitRpm <= 0 then 0
    else if limitRpm <= 10 then 1
    else if limitRpm <= 60 then 5
    else
      var fiveSeconds := (limitRpm + 11) / 12;
      var atLeast := if fiveSeconds < 10 then 10 else fiveSeconds;
      if atLeast <= maxBatchSize then atLeast else maxBatchSize
  }

  function BatchCap(maxBatchSize: nat): nat {
    if maxBatchSize < 5 then 5 else maxBatchSize
  }

  // ---------------------------------------------------------------- the stretches of check and refill, on values

  function RefillThreshold(batch: nat): nat {
    if batch / 4 < 1 then 1 else batch / 4
  }

  /** `refill`, up to its first await: the lease that is in flight, or `next` if there is none. */
  function Refill(l: Local, next: nat): (l': Local) {
    if l.inFlight.Some? then l else l.(inFlight := Some(next))
  }

  function RollOver(l: Local, bucket: int, batch: nat, next: nat): (l': Local) {
    if l.bucket == bucket then l else Local(bucket, 0, batch, Some(next))
  }

  /** From the call to its first await or its answer. */
  function Begin(l: Local, bucket: int, batch: nat, next: nat): (t: Turn) {
    var l := RollOver(l, bucket, batch, next);
    if l.tokens > 0 then
      var taken := l.(tokens := l.tokens - 1);
      var refilled := if taken.tokens <= RefillThreshold(taken.batch) then Refill(taken, next) else taken;
      Turn(refilled, Admit, refilled.inFlight != taken.inFlight)
    else
      var refilled := Refill(l, next);
      Turn(refilled, Await(refilled.inFlight.value), refilled.inFlight == Some(next))
  }

  /** From the awaited lease to the next await or the answer. */
  function Resume(l: Local, bucket: int, granted: int, next: nat): (t: Turn) {
    if l.bucket != bucket then Turn(l, Refuse, false)
    else if l.tokens > 0 then Turn(l.(tokens := l.tokens - 1), Admit, false)
    else if granted <= 0 then Turn(l, Refuse, false)
    else
      var refilled := Refill(l, next);
      Turn(refilled, Await(refilled.inFlight.value), refilled.inFlight != l.inFlight)
  }

  /** The tail of `executeLease`: the credit counts only if the state has not moved to another bucket. */
  function Settle(l: Local, lease: nat, bucket: int, credit: nat): (l': Local) {
    Local(l.bucket, if l.bucket == bucket then l.tokens + credit else l.tokens, l.batch,
          if l.inFlight == Some(lease) then None else l.inFlight)
  }

  /** A new request is never refused at once: it takes a token of its own bucket if the state has one, and otherwise waits
    * for the lease in flight. A lease is started after a rollover, and when none is in flight and at most a quarter
    * of a batch, or a single token, is left. */
  lemma BeginExactly(l: Local, bucket: int, batch: nat, next: nat)
    requires l.inFlight != Some(next)
    ensures var t := Begin(l, bucket, batch, next);
      var have := if l.bucket == bucket then l.tokens else 0;
      var size := if l.bucket == bucket then l.batch else batch;
      && (t.answer == Admit <==> have > 0) && t.answer != Refuse
      && t.local == Local(bucket, if have > 0 then have - 1 else 0, size, if t.started then Some(next) else l.inFlight)
      && (t.answer.Await? ==> t.local.inFlight == Some(t.answer.lease))
      && (t.started <==> l.bucket != bucket || (l.inFlight.None? && (have <= 2 || 4 * (have - 1) <= size)))
  {
  }

  /** A request that has waited is refused exactly if its state has moved to another bucket, or the lease resolved to nothing
    * and left no token; it is admitted exactly if there is one, which it takes, and otherwise it waits again. */
  lemma ResumeExactly(l: Local, bucket: int, granted: int, next: nat)
    requires l.inFlight != Some(next)
    ensures var t := Resume(l, bucket, granted, next);
      && (t.answer == Refuse <==> l.bucket != bucket || (l.tokens == 0 && granted <= 0))
      && (t.answer == Admit <==> l.bucket == bucket && l.tokens > 0)
      && t.local == l.(tokens := if t.answer == Admit then l.tokens - 1 else l.tokens,
                       inFlight := if t.started then Some(next) else l.inFlight)
      && (t.answer.Await? ==> t.local.inFlight == Some(t.answer.lease))
      && (t.started <==> t.answer.Await? && l.inFlight.None?)
  {
  }

  /** A lease that ends leaves room for the next one if it is the one in flight, and touches no other. */
  lemma SettleFreesItsOwn(l: Local, lease: nat, bucket: int, credit: nat)
    ensures Settle(l, lease, bucket, credit).inFlight == None <==> l.inFlight == None || l.inFlight == Some(lease)
    ensures l.inFlight != Some(lease) ==> Settle(l, lease, bucket, credit).inFlight == l.inFlight
    ensures Settle(l, lease, bucket, credit).tokens - l.tokens == if l.bucket == bucket then credit else 0
    ensures Settle(l, lease, bucket, credit).bucket == l.bucket && Settle(l, lease, bucket, credit).batch == l.batch
  {
  }

  // ---------------------------------------------------------------- the same, in place

  class ProjectTokenLeaseState {
    var bucketIndex: int
    var tokens: nat
    var batchSize: nat
    var inFlightLease: Option<nat>

    function View(): Local
      reads this
    {
      Local(bucketIndex, tokens, batchSize, inFlightLease)
    }

    constructor (bucket: int, batch: nat)
      ensures View() == Local(bucket, 0, batch, None)
    {
      bucketIndex, tokens, batchSize, inFlightLease := bucket, 0, batch, None;
    }

    method StartRefill(next: nat) returns (started: bool)
      modifies this
      ensures View() == Refill(old(View()), next) && started == old(inFlightLease).None?
    {
      started := inFlightLease.None?;
      if started {
        inFlightLease := Some(next);
      }
    }

    method BeginCheck(currentBucket: int, batch: nat, next: nat) returns (answer: Answer, started: bool)
      requires inFlightLease != Some(next)
      modifies this
      ensures Turn(View(), answer, started) == Begin(old(View()), currentBucket, batch, next)
    {
      started := false;
      if bucketIndex != currentBucket {
        bucketIndex := currentBucket;
        tokens := 0;
        batchSize := batch;
        inFlightLease := None;
        started := StartRefill(next);
      }
      if tokens > 0 {
        tokens := tokens - 1;
        if tokens <= RefillThreshold(batchSize) && inFlightLease.None? {
          started := StartRefill(next);
        }
        answer := Admit;
      } else {
        if inFlightLease.None? {
          started := StartRefill(next);
        }
        answer := Await(inFlightLease.value);
      }
    }

    method ResumeCheck(currentBucket: int, granted: int, next: nat) returns (answer: Answer, started: bool)
      requires inFlightLease != Some(next)
      modifies this
      ensures Turn(View(), answer, started) == Resume(old(View()), currentBucket, granted, next)
      ensures answer == Refuse <==> old(bucketIndex) != currentBucket || (old(tokens) == 0 && granted <= 0)
      ensures answer == Admit <==> old(bucketIndex) == currentBucket && tokens == old(tokens) - 1
    {
      started := false;
      if bucketIndex != currentBucket {
        answer := Refuse;
      } else if tokens > 0 {
        tokens := tokens - 1;
        answer := Admit;
      } else if granted <= 0 {
        answer := Refuse;
      } else {
        if inFlightLease.None? {
          started := StartRefill(next);
        }
        answer := Await(inFlightLease.value);
      }
    }

    method SettleLease(lease: nat, bucket: int, credit: nat)
      modifies this
      ensures View() == Settle(old(View()), lease, bucket, credit)
    {
      if bucketIndex == bucket {
        tokens := tokens + credit;
      }
      if inFlightLease == Some(lease) {
        inFlightLease := None;
      }
    }
  }

  class Limiter {
    const windowMs: nat
    const maxBatchSize: nat
    var leases: map<string, ProjectTokenLeaseState>

    constructor (windowMs: nat, maxBatchSize: nat)
      requires windowMs > 0
      ensures this.windowMs == windowMs && this.maxBatchSize == maxBatchSize && leases == map[]
    {
      this.windowMs, this.maxBatchSize, leases := windowMs, maxBatchSize, map[];
    }

    /** `check` up to its first await. A project's first request creates its state, pruning the others only then; no state
      * but the project's own changes, whatever is dropped from the map. */
    method Check(projectId: string, limitRpm: int, nowMs: nat, next: nat)
      returns (answer: Answer, started: bool, state: Option<ProjectTokenLeaseState>)
      requires windowMs > 0
      requires forall p :: p in leases ==> leases[p].inFlightLease != Some(next)
      modifies this`leases, if projectId in leases then {leases[projectId]} else {}
      ensures limitRpm <= 0 ==> answer == Refuse && !started && state.None? && leases == old(leases)
      ensures limitRpm > 0 ==>
                && state.Some?
                && (if projectId in old(leases) then state.value == old(leases[projectId]) && leases == old(leases)
                    else fresh(state.value))
                && Turn(state.value.View(), answer, started) ==
                   Begin(if projectId in old(leases) then old(leases[projectId].View())
                         else Local(nowMs / windowMs, 0, CalculateTokenBatchSize(limitRpm, maxBatchSize), None),
                         nowMs / windowMs, CalculateTokenBatchSize(limitRpm, maxBatchSize), next)
      ensures limitRpm > 0 && projectId !in old(leases) ==>
                && projectId in leases && leases[projectId] == state.value
                && (forall p :: p in old(leases) && old(leases[p].bucketIndex) >= nowMs / windowMs - 1 ==> p in leases)
                && (forall p :: p in leases && p != projectId ==> p in old(leases) && leases[p] == old(leases[p]))
    {
      if limitRpm <= 0 {
        return Refuse, false, None;
      }
      var currentBucket: int := nowMs / windowMs;
      var batch := CalculateTokenBatchSize(limitRpm, maxBatchSize);
      if projectId !in leases {
        var created := new ProjectTokenLeaseState(currentBucket, batch);
        leases := leases[projectId := created];
        MaybePrune(currentBucket);
      }
      var s := leases[projectId];
      answer, started := s.BeginCheck(currentBucket, batch, next);
      state := Some(s);
    }

    /** Past 2000 projects, drops the states more than one bucket old, and only those. */
    method MaybePrune(currentBucket: int)
      modifies this`leases
      ensures |old(leases)| <= 2000 ==> leases == old(leases)
      ensures |old(leases)| > 2000 ==>
                leases == map p | p in old(leases) && currentBucket - old(leases)[p].bucketIndex <= 1 :: old(leases)[p]
    {
      if |leases| > 2000 {
        var todo := leases.Keys;
        ghost var all := leases;
        while todo != {}
          invariant todo <= all.Keys
          invariant leases == map p | p in all && (p in todo || currentBucket - all[p].bucketIndex <= 1) :: all[p]
          decreases |todo|
        {
          var id :| id in todo;
          if currentBucket - leases[id].bucketIndex > 1 {
            leases := leases - {id};
          }
          todo := todo - {id};
        }
      }
    }

    /** Drops the project's state; the object itself, and every lease and request that holds it, is untouched. */
    method Invalidate(projectId: string)
      modifies this`leases
      ensures leases == old(leases) - {projectId}
    {
      leases := leases - {projectId};
    }

    method Clear()
      modifies this`leases
      ensures leases == map[]
    {
      leases := map[];
    }
  }
}
