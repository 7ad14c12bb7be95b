/** The circuit breaker under overlapping calls (src/shared/circuit-breaker.ts). `execute` is cut at its one await: `Begin`
  * runs up to the action, `Finish` from its end on. Calls may begin and finish in any order. */
module CircuitBreaker {

  datatype State = Closed | Open | HalfOpen

  /** How one action ended, and when. */
  datatype Completion = Completion(ok: bool, at: int)

  /** How many of the latest completions failed in a row. */
  function FailingSuffix(log: seq<Completion>): (n: nat)
    ensures n <= |log|
  {
    if log == [] || log[|log| - 1].ok then 0 else 1 + FailingSuffix(log[..|log| - 1])
  }

  /** The count means what its name says: `n` failures in a row is the same as the last `n` completions all failing. */
  lemma {:induction false} SuffixMeansLastAllFailed(log: seq<Completion>, n: nat)
    requires n <= |log|
    ensures FailingSuffix(log) >= n <==> forall i :: |log| - n <= i < |log| ==> !log[i].ok
  {
    if n > 0 {
      var front := log[..|log| - 1];
      SuffixMeansLastAllFailed(front, n - 1);
      assert forall i :: 0 <= i < |front| ==> log[i] == front[i];
      if log[|log| - 1].ok {
        assert !(forall i :: |log| - n <= i < |log| ==> !log[i].ok);
      } else if FailingSuffix(log) >= n {
        forall i | |log| - n <= i < |log|
          ensures !log[i].ok
        {
          if i < |front| {
            assert !front[i].ok;
          }
        }
      } else {
        var i :| |front| - (n - 1) <= i < |front| && front[i].ok;
        assert log[i].ok;
      }
    }
  }

  /** The breaker is tripped once this many completions in a row have failed; a threshold below one acts as one. */
  predicate Tripped(log: seq<Completion>, threshold: int) {
    FailingSuffix(log) >= (if threshold < 1 then 1 else threshold)
  }

  /** A tripped breaker admits one probe at a time, and none until the timeout has passed since the last completion. */
  predicate Admits(log: seq<Completion>, threshold: int, timeout: int, probing: bool, now: int) {
    !Tripped(log, threshold) || (!probing && now > log[|log| - 1].at + timeout)
  }

  type CallId = nat

  ghost predicate Probing(running: map<CallId, bool>) {
    exists c :: c in running && running[c]
  }

  lemma ProbingChanges(running: map<CallId, bool>, call: CallId, isProbe: bool)
    ensures call !in running ==> (Probing(running[call := isProbe]) <==> isProbe || Probing(running))
    ensures call in running && !running[call] ==> (Probing(running - {call}) <==> Probing(running))
  {
    var added, removed := running[call := isProbe], running - {call};
    assert call in added && added[call] == isProbe;
    if Probing(running) {
      var c :| c in running && running[c];
      assert call != c ==> c in added && added[c] && c in removed && removed[c];
    }
  }

  class CircuitBreaker {
    const threshold: int
    const timeout: int
    var state: State
    var failures: nat
    var nextAttemptAt: int
    var probeInFlight: bool
    /** The calls whose action is running: each with whether it is a probe. */
    ghost var running: map<CallId, bool>
    ghost var log: seq<Completion>

    /** Closed or not, and until when, is determined by the completions alone; the probe flag is up exactly while one probe,
      * never more, is running; half open means it is. */
    ghost predicate Valid()
      reads this
    {
      && failures == FailingSuffix(log)
      && (state == Closed <==> !Tripped(log, threshold))
      && (state != Closed ==> nextAttemptAt == log[|log| - 1].at + timeout)
      && (probeInFlight <==> Probing(running))
      && (forall c, d :: c in running && d in running && running[c] && running[d] ==> c == d)
      && (state == HalfOpen ==> probeInFlight)
    }

    constructor (threshold: int, timeout: int)
      ensures Valid() && this.threshold == threshold && this.timeout == timeout && running == map[] && log == []
    {
      this.threshold, this.timeout := threshold, timeout;
      state, failures, nextAttemptAt, probeInFlight := Closed, 0, 0, false;
      running, log := map[], [];
    }

    /** Refused, or started, as a probe if the breaker has tripped. */
    method Begin(call: CallId, now: int) returns (started: bool, isProbe: bool)
      requires Valid() && call !in running
      modifies this
      ensures Valid() && log == old(log)
      ensures started <==> Admits(log, threshold, timeout, old(Probing(running)), now)
      ensures isProbe <==> started && Tripped(log, threshold)
      ensures running == if started then old(running)[call := isProbe] else old(running)
    {
      isProbe := false;
      if state == Open {
        if now > nextAttemptAt && !probeInFlight {
          state := HalfOpen;
          probeInFlight := true;
          isProbe := true;
        } else {
          return false, false;
        }
      } else if state == HalfOpen {
        if probeInFlight {
          return false, false;
        }
        // half open without a probe: the source would start one here, but it is never reached
        assert false;
      }
      ProbingChanges(running, call, isProbe);
      running := running[call := isProbe];
      started := true;
    }

    /** The action has ended: the count, the state and, for a probe, the flag follow. */
    method Finish(call: CallId, isProbe: bool, ok: bool, now: int)
      requires Valid() && call in running && running[call] == isProbe
      modifies this
      ensures Valid()
      ensures log == old(log) + [Completion(ok, now)] && running == old(running) - {call}
      ensures ok ==> state == Closed
    {
      assert (log + [Completion(ok, now)])[..|log|] == log;
      log := log + [Completion(ok, now)];
      if ok {
        OnSuccess();
      } else {
        OnFailure(now);
      }
      if isProbe {
        probeInFlight := false;
      }
      ProbingChanges(running, call, isProbe);
      running := running - {call};
    }

    method OnSuccess()
      modifies this`failures, this`state
      ensures failures == 0 && state == Closed
    {
      failures := 0;
      state := Closed;
    }

    method OnFailure(now: int)
      modifies this`failures, this`state, this`nextAttemptAt
      ensures failures == old(failures) + 1
      ensures state == (if failures >= threshold then Open else old(state))
      ensures nextAttemptAt == (if failures >= threshold then now + timeout else old(nextAttemptAt))
    {
      failures := failures + 1;
      if failures >= threshold {
        state := Open;
        nextAttemptAt := now + timeout;
      }
    }
  }
}
