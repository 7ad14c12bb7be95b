/** The decisions of one delivery attempt (src/services/delivery/main.ts): which provider may start, what the
  * provider loop is allowed to spend, and where a task goes when the attempt does not succeed. */
module Delivery {
  import opened Wrappers

  const MAX_THROTTLE_DEFERRALS: nat := 50
  const MAX_DISPATCH_BUDGET_MS: nat := 25_000
  const RETRY_BACKOFF_MS: seq<nat> := [30_000, 120_000, 600_000]

  type Channel = string

  datatype Priority = Critical | Normal | Low

  /** The part of a `notification.dispatched` payload that decides its fate. */
  datatype Task = Task(
    id: nat,
    priority: Priority,
    fallbackChain: seq<Channel>,
    hasRecipient: bool,
    maxAttempts: nat,
    deliveryAttempts: nat,
    throttleAttempts: nat)

  /** What the payload schema promises: `maxAttempts` is a positive integer. */
  predicate ValidTask(t: Task) {
    t.maxAttempts >= 1
  }

  function Min(a: int, b: int): (m: int) {
    if a <= b then a else b
  }

  function RetryDelayMs(priorFailures: nat): (ms: nat) {
    RETRY_BACKOFF_MS[Min(priorFailures, |RETRY_BACKOFF_MS| - 1)]
  }

  // ---------------------------------------------------------------- first provider with room

  datatype Gate = Gate(allowed: bool, retryAfterMs: nat, windowMs: nat)

  /** Walks the providers until one has room, remembering the shortest wait among the full ones.
    * `startAt == -1` means every provider is at its limit. */
  method FirstOpenProvider(gates: seq<Gate>) returns (startAt: int, retryAfterMs: Option<nat>)
    ensures -1 <= startAt < |gates|
    ensures startAt >= 0 ==> gates[startAt].allowed && forall j :: 0 <= j < startAt ==> !gates[j].allowed
    ensures startAt == -1 ==> forall j :: 0 <= j < |gates| ==> !gates[j].allowed
    ensures startAt == -1 && |gates| > 0 ==> retryAfterMs.Some?
    ensures startAt == -1 && |gates| > 0 ==> exists j :: 0 <= j < |gates| && gates[j].retryAfterMs == retryAfterMs.value
    ensures startAt == -1 && |gates| > 0 ==> forall j :: 0 <= j < |gates| ==> retryAfterMs.value <= gates[j].retryAfterMs
  {
    startAt, retryAfterMs := -1, None;
    var i := 0;
    while i < |gates|
      invariant 0 <= i <= |gates| && startAt == -1
      invariant forall j :: 0 <= j < i ==> !gates[j].allowed
      invariant retryAfterMs.Some? <==> i > 0
      invariant i > 0 ==> exists j :: 0 <= j < i && gates[j].retryAfterMs == retryAfterMs.value
      invariant i > 0 ==> forall j :: 0 <= j < i ==> retryAfterMs.value <= gates[j].retryAfterMs
    {
      if gates[i].allowed {
        startAt := i;
        return;
      }
      if retryAfterMs.None? || gates[i].retryAfterMs < retryAfterMs.value {
        retryAfterMs := Some(gates[i].retryAfterMs);
      }
      i := i + 1;
    }
  }

  // ---------------------------------------------------------------- the provider loop and its budget

  /** A provider's answer, or the failure thrown in its place. */
  datatype Answer = Answer(success: bool, invalidToken: bool, retryable: Option<bool>)

  /** What one provider does when its turn comes: whether its own rate limit has room and how long asking took,
    * whether its circuit breaker refuses the call, and when and how it answers. */
  datatype Provider = Provider(gateAllowed: bool, gateMs: nat, breakerOpen: bool, answerMs: nat, answer: Answer)

  /** One provider call: it starts at `start` and is abandoned or answered by `end`. */
  datatype Call = Call(provider: nat, start: nat, end: nat, result: Answer)

  predicate Settles(isPush: bool, a: Answer) {
    a.success || (isPush && a.invalidToken)
  }

  /** The value a call leaves in `result`: a refusal that may be retried is thrown, and the catch keeps only its
    * `retryable` flag; a timeout or an open breaker leaves it unset. */
  function ResultOf(isPush: bool, a: Answer, timedOut: bool): (r: Answer) {
    if timedOut then Answer(false, false, None)
    else if !a.success && !(isPush && a.invalidToken) && a.retryable != Some(false) then
      Answer(false, false, a.retryable)
    else a
  }

  /** No two calls of a log overlap, each provider is called at most once and in order, and every call lies inside
    * the budget that began at `t0`. */
  ghost predicate LogWithinBudget(log: seq<Call>, t0: nat, startAt: nat, limit: nat) {
    && (forall k :: 0 <= k < |log| ==>
         startAt <= log[k].provider < limit && t0 <= log[k].start <= log[k].end <= t0 + MAX_DISPATCH_BUDGET_MS &&
         log[k].start < t0 + MAX_DISPATCH_BUDGET_MS)
    && (forall j, k :: 0 <= j < k < |log| ==> log[j].provider < log[k].provider && log[j].end <= log[k].start)
  }

  lemma ExtendLog(log: seq<Call>, c: Call, t0: nat, startAt: nat, limit: nat)
    requires LogWithinBudget(log, t0, startAt, limit)
    requires |log| > 0 ==> log[|log| - 1].end <= c.start
    requires startAt <= limit == c.provider
    requires t0 <= c.start <= c.end <= t0 + MAX_DISPATCH_BUDGET_MS && c.start < t0 + MAX_DISPATCH_BUDGET_MS
    ensures LogWithinBudget(log + [c], t0, startAt, limit + 1)
  {
    forall j, k | 0 <= j < k < |log + [c]|
      ensures (log + [c])[j].provider < (log + [c])[k].provider && (log + [c])[j].end <= (log + [c])[k].start
    {
      if k == |log| && j < |log| - 1 {
        assert log[j].end <= log[|log| - 1].start;
      }
    }
  }

  /** One provider's turn, the budget not being spent: the call ends with the answer, or at the shorter of the task's
    * timeout and what is left of the budget. An open breaker makes no call. */
  method CallProvider(p: Provider, i: nat, isPush: bool, timeoutMs: nat, began: nat, now: nat)
    returns (result: Answer, calls: seq<Call>, later: nat)
    requires began <= now < began + MAX_DISPATCH_BUDGET_MS
    ensures p.breakerOpen ==> calls == [] && result == Answer(false, false, None) && later == now
    ensures !p.breakerOpen ==> calls == [Call(i, now, later, result)]
    ensures !p.breakerOpen ==> later == now + Min(p.answerMs, Min(timeoutMs, began + MAX_DISPATCH_BUDGET_MS - now))
    ensures !p.breakerOpen && later < now + p.answerMs ==> result == Answer(false, false, None)
    ensures !p.breakerOpen && later == now + p.answerMs ==>
              && result.success == p.answer.success && result.retryable == p.answer.retryable
              && (isPush ==> result.invalidToken == p.answer.invalidToken)
  {
    if p.breakerOpen {
      return Answer(false, false, None), [], now;
    }
    var remaining := MAX_DISPATCH_BUDGET_MS - (now - began);
    var limit := if timeoutMs <= remaining then timeoutMs else remaining;
    var timedOut := p.answerMs > limit;
    later := now + (if timedOut then limit else p.answerMs);
    result := ResultOf(isPush, p.answer, timedOut);
    calls := [Call(i, now, later, result)];
  }

  /** One run of the provider loop over `ps`, from `startAt` on. `began` is `tDispatchStart`; `clock` is the time when the
    * loop is entered, after rendering. */
  datatype Dispatch = Dispatch(ps: seq<Provider>, startAt: nat, isPush: bool, timeoutMs: nat, began: nat, clock: nat) {

    predicate Valid() {
      startAt < |ps| && began <= clock
    }

    /** The first provider's slot was taken beforehand; each later one spends its own. */
    predicate HasRoom(i: nat)
      requires i < |ps|
    {
      i == startAt || ps[i].gateAllowed
    }

    predicate Calls(i: nat)
      requires i < |ps|
    {
      HasRoom(i) && !ps[i].breakerOpen
    }

    /** What asking the providers from `lo` up to `hi` for room takes. */
    function Asking(lo: nat, hi: nat): (ms: nat)
      requires hi <= |ps|
    {
      if lo >= hi then 0 else Asking(lo, hi - 1) + (if hi - 1 == startAt then 0 else ps[hi - 1].gateMs)
    }

    function EndOf(log: seq<Call>): nat {
      if log == [] then clock else log[|log| - 1].end
    }

    function AfterLast(log: seq<Call>): nat {
      if log == [] then startAt else log[|log| - 1].provider + 1
    }

    /** A call lasts as long as the provider's answer, but no longer than the task's timeout or the rest of the budget; what
      * it leaves is the answer as far as the task is concerned, and a plain failure when it was cut off. */
    predicate CallFits(c: Call)
      requires c.provider < |ps|
    {
      var p, limit := ps[c.provider], Min(timeoutMs, began + MAX_DISPATCH_BUDGET_MS - c.start);
      && c.end - c.start == Min(p.answerMs, limit)
      && (p.answerMs > limit ==> c.result == Answer(false, false, None))
      && (p.answerMs <= limit ==>
            && c.result.success == p.answer.success && c.result.retryable == p.answer.retryable
            && (isPush ==> c.result.invalidToken == p.answer.invalidToken))
    }

    /** Every call is of a provider with room and a closed breaker, and starts at its turn. */
    ghost predicate Played(log: seq<Call>) {
      forall k :: 0 <= k < |log| ==>
        && startAt <= log[k].provider < |ps| && Calls(log[k].provider) && CallFits(log[k])
        && log[k].start == EndOf(log[..k]) + Asking(AfterLast(log[..k]), log[k].provider + 1)
    }

    /** No provider that can be called is passed over. */
    ghost predicate Covered(limit: nat, log: seq<Call>)
      requires limit <= |ps|
    {
      forall i :: startAt <= i < limit && Calls(i) ==> exists k :: 0 <= k < |log| && log[k].provider == i
    }

    /** What is left when the providers before `limit` have had their turn: the last call's result, unless a later provider
      * had room and an open breaker. */
    function Left(limit: nat, log: seq<Call>): (result: Answer)
      requires limit <= |ps|
    {
      if |log| > 0 && (forall i :: AfterLast(log) <= i < limit ==> !HasRoom(i)) then log[|log| - 1].result
      else Answer(false, false, None)
    }

    /** The providers before `limit` have had their turn, and none has settled the send but perhaps the last. */
    ghost predicate Turns(limit: nat, result: Answer, log: seq<Call>, now: nat) {
      && startAt <= limit <= |ps| && AfterLast(log) <= limit
      && LogWithinBudget(log, began, startAt, limit) && Played(log) && Covered(limit, log)
      && (forall k :: 0 <= k < |log| && Settles(isPush, log[k].result) ==> k == |log| - 1 && limit == AfterLast(log))
      && result == Left(limit, log)
      && now == EndOf(log) + Asking(AfterLast(log), limit)
    }

    /** The same, with the send still unsettled. */
    ghost predicate Goes(limit: nat, result: Answer, log: seq<Call>, now: nat) {
      && Turns(limit, result, log, now) && !Settles(isPush, result) && began <= now
      && forall k :: 0 <= k < |log| ==> !Settles(isPush, log[k].result)
    }

    /** The loop has gone through all providers, or the last call has settled the send, or the turn of a provider with room
      * has come when the budget was spent. */
    ghost predicate Promise(result: Answer, log: seq<Call>, now: nat) {
      || (exists limit: nat ::
            Turns(limit, result, log, now) && (limit == |ps| || (Settles(isPush, result) && limit == AfterLast(log))))
      || (exists limit: nat, before: nat ::
            Turns(limit, result, log, before) && limit < |ps| && HasRoom(limit) && !Settles(isPush, result)
            && now == before + Asking(limit, limit + 1) && now >= began + MAX_DISPATCH_BUDGET_MS)
    }

    lemma AskingOneMore(lo: nat, hi: nat)
      requires lo <= hi < |ps|
      ensures Asking(lo, hi + 1) == Asking(lo, hi) + Asking(hi, hi + 1)
      ensures hi != startAt ==> Asking(hi, hi + 1) == ps[hi].gateMs
    {
      assert Asking(hi, hi) == 0;
    }

    lemma Starts()
      requires Valid()
      ensures Goes(startAt, Answer(false, false, None), [], clock)
    {
    }

    lemma LogStays(log: seq<Call>, limit: nat)
      requires LogWithinBudget(log, began, startAt, limit)
      ensures LogWithinBudget(log, began, startAt, limit + 1)
    {
    }

    lemma CoversMore(limit: nat, log: seq<Call>)
      requires limit < |ps| && Covered(limit, log) && !Calls(limit)
      ensures Covered(limit + 1, log)
    {
    }

    lemma LeftMore(limit: nat, log: seq<Call>)
      requires AfterLast(log) <= limit < |ps|
      ensures HasRoom(limit) ==> Left(limit + 1, log) == Answer(false, false, None)
      ensures !HasRoom(limit) ==> Left(limit + 1, log) == Left(limit, log)
    {
    }

    lemma Skips(limit: nat, result: Answer, log: seq<Call>, now: nat)
      requires Valid() && Goes(limit, result, log, now) && limit < |ps| && !HasRoom(limit)
      ensures Goes(limit + 1, result, log, now + ps[limit].gateMs)
    {
      hide Played, LogWithinBudget, Asking, Covered, Left, EndOf;
      AskingOneMore(AfterLast(log), limit);
      LogStays(log, limit);
      CoversMore(limit, log);
      LeftMore(limit, log);
      hide AfterLast;
    }

    lemma Refuses(limit: nat, result: Answer, log: seq<Call>, now: nat)
      requires Valid() && Goes(limit, result, log, now) && limit < |ps| && HasRoom(limit) && ps[limit].breakerOpen
      ensures Goes(limit + 1, Answer(false, false, None), log, now + Asking(limit, limit + 1))
    {
      hide Played, LogWithinBudget, Asking, Covered, Left, EndOf;
      AskingOneMore(AfterLast(log), limit);
      LogStays(log, limit);
      CoversMore(limit, log);
      LeftMore(limit, log);
      hide AfterLast;
    }

    lemma PlaysOn(log: seq<Call>, c: Call)
      requires Played(log) && startAt <= c.provider < |ps| && Calls(c.provider) && CallFits(c)
      requires c.start == EndOf(log) + Asking(AfterLast(log), c.provider + 1)
      ensures Played(log + [c])
    {
      var log' := log + [c];
      assert log'[..|log|] == log;
      hide CallFits, Calls, Asking, EndOf, AfterLast;
      forall k | 0 <= k < |log'|
        ensures startAt <= log'[k].provider < |ps| && Calls(log'[k].provider) && CallFits(log'[k])
        ensures log'[k].start == EndOf(log'[..k]) + Asking(AfterLast(log'[..k]), log'[k].provider + 1)
      {
        if k < |log| {
          assert log'[k] == log[k] && log'[..k] == log[..k];
        }
      }
    }

    lemma CoversOn(limit: nat, log: seq<Call>, c: Call)
      requires limit < |ps| && Covered(limit, log) && c.provider == limit
      ensures Covered(limit + 1, log + [c])
    {
      hide Calls;
      var log' := log + [c];
      forall i | startAt <= i < limit + 1 && Calls(i)
        ensures exists k :: 0 <= k < |log'| && log'[k].provider == i
      {
        if i < limit {
          var k :| 0 <= k < |log| && log[k].provider == i;
          assert log'[k].provider == i;
        } else {
          assert log'[|log|].provider == i;
        }
      }
    }

    lemma LastCall(limit: nat, log: seq<Call>, c: Call)
      requires limit < |ps| && c.provider == limit
      ensures AfterLast(log + [c]) == limit + 1 && EndOf(log + [c]) == c.end && Left(limit + 1, log + [c]) == c.result
    {
    }

    lemma NoneSettled(log: seq<Call>, c: Call)
      requires forall k :: 0 <= k < |log| ==> !Settles(isPush, log[k].result)
      ensures forall k :: 0 <= k < |log + [c]| && Settles(isPush, (log + [c])[k].result) ==> k == |log|
    {
    }

    lemma IsCalled(limit: nat, result: Answer, log: seq<Call>, now: nat, c: Call)
      requires Valid() && Goes(limit, result, log, now) && limit < |ps| && Calls(limit)
      requires c.provider == limit && CallFits(c) && c.start == now + Asking(limit, limit + 1)
      requires c.start <= c.end <= began + MAX_DISPATCH_BUDGET_MS && began <= c.start < began + MAX_DISPATCH_BUDGET_MS
      ensures Turns(limit + 1, c.result, log + [c], c.end)
    {
      hide Played, LogWithinBudget, Covered, CallFits, Calls, HasRoom, Asking, Left, EndOf, AfterLast, Settles;
      AskingOneMore(AfterLast(log), limit);
      EndsBefore(limit, result, log, now);
      ExtendLog(log, c, began, startAt, limit);
      PlaysOn(log, c);
      CoversOn(limit, log, c);
      LastCall(limit, log, c);
      NoneSettled(log, c);
      NothingAsked(limit + 1);
    }

    lemma AskedAt(at: nat)
      requires at < |ps|
      ensures Asking(at, at + 1) == if at == startAt then 0 else ps[at].gateMs
    {
      assert Asking(at, at) == 0;
    }

    lemma NothingAsked(at: nat)
      requires at <= |ps|
      ensures Asking(at, at) == 0
    {
    }

    /** Before the turn of `limit` comes every call has ended. */
    lemma EndsBefore(limit: nat, result: Answer, log: seq<Call>, now: nat)
      requires Valid() && Turns(limit, result, log, now)
      ensures |log| > 0 ==> log[|log| - 1].end <= now
      ensures began <= now && startAt <= limit <= |ps|
    {
      hide Played, Covered, Left, Asking;
    }

    lemma Ends(result: Answer, log: seq<Call>, now: nat)
      requires Goes(|ps|, result, log, now)
      ensures Promise(result, log, now)
    {
      hide Turns;
    }

    lemma GoneThrough(limit: nat, result: Answer, log: seq<Call>, now: nat)
      requires Turns(limit, result, log, now) && Settles(isPush, result) && limit == AfterLast(log)
      ensures Promise(result, log, now)
    {
      hide Turns;
    }

    /** Kept promises: the calls lie in the budget, and the send is accepted exactly if the last call was. */
    lemma Kept(result: Answer, log: seq<Call>, now: nat)
      requires Valid() && Promise(result, log, now)
      ensures LogWithinBudget(log, began, startAt, |ps|)
      ensures Settles(isPush, result) <==> |log| > 0 && Settles(isPush, log[|log| - 1].result)
      ensures Settles(isPush, result) ==> result == log[|log| - 1].result
    {
      hide Played, Covered, Asking;
    }

    lemma BudgetSpent(limit: nat, result: Answer, log: seq<Call>, now: nat)
      requires Goes(limit, result, log, now) && limit < |ps| && HasRoom(limit)
      requires now + Asking(limit, limit + 1) >= began + MAX_DISPATCH_BUDGET_MS
      ensures Promise(result, log, now + Asking(limit, limit + 1))
    {
      hide Turns;
    }
  }

  /** The provider loop: `Dispatch.Promise` says all there is to say about its calls and what they leave. */
  method DispatchLoop(providers: seq<Provider>, startAt: nat, isPush: bool, timeoutMs: nat, began: nat, clock: nat)
    returns (result: Answer, log: seq<Call>, now: nat)
    requires startAt < |providers| && began <= clock
    ensures Dispatch(providers, startAt, isPush, timeoutMs, began, clock).Promise(result, log, now)
  {
    hide Dispatch.Goes, Dispatch.Promise;
    var d := Dispatch(providers, startAt, isPush, timeoutMs, began, clock);
    result, log, now := Answer(false, false, None), [], clock;
    d.Starts();
    var i := startAt;
    var done := false;
    while i < |providers| && !done
      invariant startAt <= i <= |providers|
      invariant if done then d.Promise(result, log, now) else d.Goes(i, result, log, now)
    {
      result, log, now, done := TakeTurn(d, i, result, log, now);
      i := i + 1;
    }
    if !done {
      d.Ends(result, log, now);
    }
  }

  /** The turn of provider `i`: it is passed over when it has no room, the loop ends when the budget is spent, and otherwise
    * the provider is called. */
  method TakeTurn(d: Dispatch, i: nat, result: Answer, log: seq<Call>, now: nat)
    returns (result': Answer, log': seq<Call>, now': nat, done: bool)
    requires d.Valid() && d.startAt <= i < |d.ps| && d.Goes(i, result, log, now)
    ensures if done then d.Promise(result', log', now') else d.Goes(i + 1, result', log', now')
  {
    hide Dispatch.Turns, Dispatch.Promise, Dispatch.Asking;
    d.AskedAt(i);
    result', log', now', done := result, log, if i > d.startAt then now + d.ps[i].gateMs else now, false;
    if i > d.startAt && !d.ps[i].gateAllowed {
      d.Skips(i, result, log, now);
    } else if now' - d.began >= MAX_DISPATCH_BUDGET_MS {
      d.BudgetSpent(i, result, log, now);
      done := true;
    } else {
      result', log', now', done := Try(d, i, now', result, log, now);
    }
  }

  /** The turn of a provider that may be called. */
  method Try(d: Dispatch, i: nat, asked: nat, ghost result: Answer, log: seq<Call>, ghost now: nat)
    returns (result': Answer, log': seq<Call>, now': nat, done: bool)
    requires d.Valid() && i < |d.ps| && d.Goes(i, result, log, now) && d.HasRoom(i)
    requires asked == now + d.Asking(i, i + 1) && d.began <= asked < d.began + MAX_DISPATCH_BUDGET_MS
    ensures if done then d.Promise(result', log', now') else d.Goes(i + 1, result', log', now')
  {
    hide Dispatch.Turns, Dispatch.Asking, Dispatch.Promise;
    var calls;
    result', calls, now' := CallProvider(d.ps[i], i, d.isPush, d.timeoutMs, d.began, asked);
    if d.ps[i].breakerOpen {
      d.Refuses(i, result, log, now);
      log' := log;
    } else {
      d.IsCalled(i, result, log, now, calls[0]);
      log' := log + calls;
      d.LastCall(i, log, calls[0]);
    }
    done := Settles(d.isPush, result');
    if done {
      d.GoneThrough(i + 1, result', log', now');
    }
  }

  // ---------------------------------------------------------------- where a task goes next

  /** `Unanswered` when asking for the lease throws. */
  datatype LeaseResult = Acquired | Locked | Completed | Unanswered

  /** A template that is gone cannot come back by retrying. */
  datatype Rendering = Rendered | TemplateMissing | RenderThrows

  /** Everything outside the task that one attempt reads. `lands` is false when the park, the publish or the update awaited
    * for the decision throws. */
  datatype Conditions = Conditions(attempt: nat, transports: nat, roomLeft: bool, lease: LeaseResult, rendering: Rendering,
                                   isPush: bool, result: Answer, lands: bool)

  /** How `process` ends for a valid task. `Thrown` leaves the entry pending, for another attempt. */
  datatype Outcome =
    | HandedOver(channel: Channel, rest: seq<Channel>)
    | FailurePublished
    | Parked(next: Task, delayMs: Option<nat>)
    | LeftPending
    | AlreadyCompleted
    | Delivered
    | DeadLettered
    | Thrown

  function FallbackOr(t: Task, otherwise: Outcome): (o: Outcome) {
    if |t.fallbackChain| > 0 && t.hasRecipient then HandedOver(t.fallbackChain[0], t.fallbackChain[1..]) else otherwise
  }

  function AttemptNo(t: Task, attempt: nat): (n: nat) {
    t.deliveryAttempts + attempt
  }

  predicate CanRetry(t: Task, attempt: nat, a: Answer) {
    a.retryable != Some(false) && AttemptNo(t, attempt) < t.maxAttempts
  }

  function RetryTask(t: Task, attempt: nat): (n: Task) {
    t.(deliveryAttempts := AttemptNo(t, attempt))
  }

  predicate CanDefer(t: Task) {
    t.throttleAttempts + 1 <= MAX_THROTTLE_DEFERRALS
  }

  function ThrottleTask(t: Task): (n: Task) {
    t.(throttleAttempts := t.throttleAttempts + 1)
  }

  /** A decision that takes an awaited command. */
  function Settled(c: Conditions, decision: Outcome): (o: Outcome) {
    if c.lands then decision else Thrown
  }

  /** The end of an attempt that has failed for good. */
  function GiveUp(t: Task, c: Conditions): (o: Outcome) {
    if FallbackOr(t, DeadLettered).HandedOver? then Settled(c, FallbackOr(t, DeadLettered)) else DeadLettered
  }

  /** The branches of `process`, in the order of the source. */
  function Decide(t: Task, c: Conditions): (o: Outcome) {
    if c.transports == 0 then Settled(c, FallbackOr(t, FailurePublished))
    else if !c.roomLeft then
      Settled(c, if CanDefer(t) then Parked(ThrottleTask(t), None) else FallbackOr(t, FailurePublished))
    else match c.lease
      case Unanswered => Thrown
      case Completed => AlreadyCompleted
      case Locked => LeftPending
      case Acquired =>
        if c.rendering.TemplateMissing? then DeadLettered
        else if c.rendering.RenderThrows? then Thrown
        // the token is deactivated first
        else if c.isPush && c.result.invalidToken then Settled(c, FallbackOr(t, DeadLettered))
        else if c.result.success then Delivered
        else if CanRetry(t, c.attempt, c.result) then
          Settled(c, Parked(RetryTask(t, c.attempt), Some(RetryDelayMs(t.deliveryAttempts))))
        else GiveUp(t, c)
  }

  /** The first gate with room. */
  predicate FirstOpen(gates: seq<Gate>, i: nat) {
    i < |gates| && gates[i].allowed && forall j :: 0 <= j < i ==> !gates[j].allowed
  }

  /** One run of `process` for a valid task, up to its decision. `lease` is what `acquireLease` answers if asked;
    * `began` and `clock` are the times just after the lease and after rendering; `now` is when the decision is taken. */
  method Process(t: Task, attempt: nat, gates: seq<Gate>, lease: LeaseResult, rendering: Rendering, providers: seq<Provider>,
                 isPush: bool, timeoutMs: nat, began: nat, clock: nat, lands: bool)
    returns (outcome: Outcome, result: Answer, log: seq<Call>, now: nat)
    requires |providers| == |gates| && began <= clock
    ensures outcome == Decide(t, Conditions(attempt, |gates|, exists j :: 0 <= j < |gates| && gates[j].allowed,
                                            lease, rendering, isPush, result, lands))
    // under an acquired lease and with rendered content the providers are tried, from the first with room on
    ensures lease.Acquired? && rendering.Rendered? ==>
              forall i: nat :: FirstOpen(gates, i) ==>
                Dispatch(providers, i, isPush, timeoutMs, began, clock).Promise(result, log, now)
    // otherwise, or when none has room, no provider is called
    ensures !lease.Acquired? || !rendering.Rendered? || (forall j :: 0 <= j < |gates| ==> !gates[j].allowed) ==>
              log == [] && result == Answer(false, false, None)
    ensures LogWithinBudget(log, began, 0, |providers|)
    // a task is reported delivered exactly if the last call made was accepted, a rejected push token apart
    ensures outcome.Delivered? <==> |log| > 0 && log[|log| - 1].result.success && !(isPush && result.invalidToken)
  {
    result, log, now := Answer(false, false, None), [], clock;
    var startAt, retryAfterMs := FirstOpenProvider(gates);
    var room := startAt >= 0;
    if room && lease.Acquired? && rendering.Rendered? {
      result, log, now := DispatchLoop(providers, startAt, isPush, timeoutMs, began, clock);
      OnlyFirstOpen(gates, startAt);
      Dispatch(providers, startAt, isPush, timeoutMs, began, clock).Kept(result, log, now);
    }
    var c := Conditions(attempt, |gates|, room, lease, rendering, isPush, result, lands);
    outcome := Decide(t, c);
    DeliveredExactlyWhen(t, c);
    hide Dispatch.Promise, Decide, LogWithinBudget;
  }

  lemma DeliveredExactlyWhen(t: Task, c: Conditions)
    ensures Decide(t, c).Delivered? <==>
            c.transports > 0 && c.roomLeft && c.lease.Acquired? && c.rendering.Rendered? && c.result.success
            && !(c.isPush && c.result.invalidToken)
  {
  }

  lemma OnlyFirstOpen(gates: seq<Gate>, i: nat)
    requires FirstOpen(gates, i)
    ensures forall j: nat :: FirstOpen(gates, j) ==> j == i
  {
    forall j: nat | FirstOpen(gates, j)
      ensures j == i
    {
      assert gates[j].allowed && gates[i].allowed;
    }
  }

  // ---------------------------------------------------------------- exactly when which

  /** A provider may be called: one is there, one has room, the lease is held and the content rendered. */
  predicate Sends(c: Conditions) {
    c.transports > 0 && c.roomLeft && c.lease.Acquired? && c.rendering.Rendered?
  }

  predicate TokenRejected(c: Conditions) {
    c.isPush && c.result.invalidToken
  }

  /** The send failed, for another reason than a rejected push token. */
  predicate Fails(c: Conditions) {
    Sends(c) && !c.result.success && !TokenRejected(c)
  }

  predicate HasFallback(t: Task) {
    |t.fallbackChain| > 0 && t.hasRecipient
  }

  /** A failed send is given up exactly if the provider called it permanent or the attempts have run out; otherwise the task
    * is parked, with this attempt counted. */
  lemma FailedSendIsParkedOrGivenUp(t: Task, c: Conditions)
    requires Fails(c) && c.lands
    ensures var o := Decide(t, c);
      && (o.HandedOver? || o.DeadLettered? <==>
            c.result.retryable == Some(false) || t.deliveryAttempts + c.attempt >= t.maxAttempts)
      && (o.Parked? <==> c.result.retryable != Some(false) && t.deliveryAttempts + c.attempt < t.maxAttempts)
      && (o.Parked? ==> o.next == t.(deliveryAttempts := t.deliveryAttempts + c.attempt) && o.delayMs.Some?)
      && (o.HandedOver? ==> HasFallback(t)) && (o.DeadLettered? ==> !HasFallback(t))
  {
  }

  /** Each outcome, and exactly when it is the one. */
  lemma OutcomeExactlyWhen(t: Task, c: Conditions)
    ensures var o := Decide(t, c);
      var spent := c.result.retryable == Some(false) || t.deliveryAttempts + c.attempt >= t.maxAttempts;
      var noRoom := c.transports > 0 && !c.roomLeft;
      var closed := c.transports == 0 || (noRoom && t.throttleAttempts >= 50);
      var reached := c.transports > 0 && c.roomLeft;
      && (o.Delivered? <==> Sends(c) && c.result.success && !TokenRejected(c))
      && (o.AlreadyCompleted? <==> reached && c.lease.Completed?)
      && (o.LeftPending? <==> reached && c.lease.Locked?)
      && (o.FailurePublished? <==> c.lands && closed && !HasFallback(t))
      && (o.HandedOver? <==>
            c.lands && HasFallback(t) && (closed || (Sends(c) && TokenRejected(c)) || (Fails(c) && spent)))
      && (o.DeadLettered? <==>
            || (reached && c.lease.Acquired? && c.rendering.TemplateMissing?)
            || (!HasFallback(t) && ((Sends(c) && TokenRejected(c) && c.lands) || (Fails(c) && spent))))
      && (o.Parked? <==> c.lands && ((noRoom && t.throttleAttempts < 50) || (Fails(c) && !spent)))
      && (o.Parked? ==> (o.delayMs.None? <==> noRoom))
  {
  }

  /** How often the task is parked in a row when its attempts meet `cs`, each on the task as it was last parked. */
  function ParksThrough(t: Task, cs: seq<Conditions>): (n: nat)
    decreases |cs|
  {
    if cs == [] then 0
    else match Decide(t, cs[0])
      case Parked(next, _) => 1 + ParksThrough(next, cs[1..])
      case _ => 0
  }

  function AttemptsIn(cs: seq<Conditions>): (n: nat) {
    if cs == [] then 0 else cs[0].attempt + AttemptsIn(cs[1..])
  }

  /** A task whose sends keep failing without being called permanent is parked for as long as its attempts last, and no
    * longer. */
  lemma {:induction false} RetriesAreOwed(t: Task, cs: seq<Conditions>, n: nat)
    requires forall c :: c in cs ==> Fails(c) && c.lands && c.result.retryable != Some(false)
    requires n <= |cs|
    ensures ParksThrough(t, cs) >= n <==> n == 0 || t.deliveryAttempts + AttemptsIn(cs[..n]) < t.maxAttempts
    decreases n
  {
    if n > 0 {
      assert cs[..n][1..] == cs[1..][..n - 1];
      if Decide(t, cs[0]).Parked? {
        RetriesAreOwed(Decide(t, cs[0]).next, cs[1..], n - 1);
      }
    }
  }

  lemma {:induction false} OneAttemptEach(cs: seq<Conditions>)
    requires forall c :: c in cs ==> c.attempt == 1
    ensures AttemptsIn(cs) == |cs|
  {
    if cs != [] {
      OneAttemptEach(cs[1..]);
    }
  }

  /** A fresh task that fails on the first delivery of each of its entries is parked exactly `maxAttempts - 1` times before
    * it is handed over or dead-lettered. */
  lemma EveryRetryIsTaken(t: Task, cs: seq<Conditions>)
    requires ValidTask(t) && t.deliveryAttempts == 0 && |cs| >= t.maxAttempts
    requires forall c :: c in cs ==> Fails(c) && c.lands && c.result.retryable != Some(false) && c.attempt == 1
    ensures ParksThrough(t, cs) == t.maxAttempts - 1
  {
    var k := t.maxAttempts - 1;
    RetriesAreOwed(t, cs, k);
    RetriesAreOwed(t, cs, k + 1);
    OneAttemptEach(cs[..k]);
    OneAttemptEach(cs[..k + 1]);
  }

  /** The waits between the attempts: half a minute, two minutes, then ten minutes each. */
  lemma BackoffGrows(t: Task, c: Conditions)
    requires Fails(c) && c.lands && Decide(t, c).Parked?
    ensures Decide(t, c).delayMs ==
            Some(if t.deliveryAttempts == 0 then 30_000 else if t.deliveryAttempts == 1 then 120_000 else 600_000)
  {
  }

  /** A task that never finds a provider with room is deferred until its fifty deferrals are used up, and no longer. */
  lemma {:induction false} DeferralsAreOwed(t: Task, cs: seq<Conditions>)
    requires forall c :: c in cs ==> c.transports > 0 && !c.roomLeft && c.lands
    ensures ParksThrough(t, cs) == if t.throttleAttempts >= 50 then 0 else Min(|cs|, 50 - t.throttleAttempts)
    decreases |cs|
  {
    if cs != [] && Decide(t, cs[0]).Parked? {
      DeferralsAreOwed(Decide(t, cs[0]).next, cs[1..]);
    }
  }

  // ---------------------------------------------------------------- every task ends

  datatype Hop =
    | RetryHop(attempt: nat)
    | ThrottleHop
    | FallbackHop(newMaxAttempts: nat, newHasRecipient: bool, newId: nat)

  /** A hop the code can take: a park needs room in its counter, a fallback needs a channel left. `attempt` is a
    * stream delivery count, so it is at least one. */
  predicate HopAllowed(t: Task, h: Hop) {
    match h
    case RetryHop(attempt) => attempt >= 1 && AttemptNo(t, attempt) < t.maxAttempts
    case ThrottleHop => CanDefer(t)
    case FallbackHop(newMax, _, _) => |t.fallbackChain| > 0 && t.hasRecipient && newMax >= 1
  }

  /** The task after the hop. A fallback is a new task of the engine on the next channel, with fresh counters. */
  function AfterHop(t: Task, h: Hop): (n: Task)
    requires HopAllowed(t, h)
  {
    match h
    case RetryHop(attempt) => RetryTask(t, attempt)
    case ThrottleHop => ThrottleTask(t)
    case FallbackHop(newMax, recipient, id) => Task(id, t.priority, t.fallbackChain[1..], recipient, newMax, 0, 0)
  }

  /** The parks a task still has before it on its present channel. */
  function ParksLeft(t: Task): (n: nat) {
    (if t.maxAttempts > t.deliveryAttempts then t.maxAttempts - 1 - t.deliveryAttempts else 0) +
    (if MAX_THROTTLE_DEFERRALS > t.throttleAttempts then MAX_THROTTLE_DEFERRALS - t.throttleAttempts else 0)
  }

  /** Whatever `process` decides, it either closes the task, leaves its entry alone, or takes an allowed hop; it throws only
    * when something it awaits has failed. */
  lemma DecisionClosesOrHops(t: Task, c: Conditions)
    requires ValidTask(t) && c.attempt >= 1
    ensures var o := Decide(t, c);
            match o
            case Parked(next, delay) =>
              (delay.None? && HopAllowed(t, ThrottleHop) && next == AfterHop(t, ThrottleHop)) ||
              (delay.Some? && HopAllowed(t, RetryHop(c.attempt)) && next == AfterHop(t, RetryHop(c.attempt)))
            case HandedOver(channel, rest) =>
              forall m, r, id :: m >= 1 ==>
                HopAllowed(t, FallbackHop(m, r, id)) && AfterHop(t, FallbackHop(m, r, id)).fallbackChain == rest &&
                [channel] + rest == t.fallbackChain
            case LeftPending => c.lease.Locked?
            case AlreadyCompleted => c.lease.Completed?
            case Delivered => c.result.success && c.lease.Acquired? && c.rendering.Rendered?
            case FailurePublished => c.transports == 0 || !c.roomLeft
            case DeadLettered => c.lease.Acquired? && (c.rendering.TemplateMissing? || !(|t.fallbackChain| > 0 && t.hasRecipient))
            case Thrown => !c.lands || c.lease.Unanswered? || (c.lease.Acquired? && c.rendering.RenderThrows?)
  {
  }

  /** The lexicographic measure (channels left, retries left, deferrals left) falls on every hop. */
  lemma HopDescends(t: Task, h: Hop)
    requires HopAllowed(t, h)
    ensures var n := AfterHop(t, h);
            || |n.fallbackChain| < |t.fallbackChain|
            || (n.(deliveryAttempts := t.deliveryAttempts) == t && t.deliveryAttempts < n.deliveryAttempts < t.maxAttempts)
            || (n.(throttleAttempts := t.throttleAttempts) == t &&
                t.throttleAttempts < n.throttleAttempts <= MAX_THROTTLE_DEFERRALS)
    ensures !h.FallbackHop? ==> ParksLeft(AfterHop(t, h)) < ParksLeft(t)
  {
  }

  /** A possible life of a task: each hop is allowed where it is taken. */
  ghost predicate Itinerary(t: Task, hops: seq<Hop>)
    decreases |hops|
  {
    hops == [] || (HopAllowed(t, hops[0]) && Itinerary(AfterHop(t, hops[0]), hops[1..]))
  }

  /** The task at the end of its life so far. */
  function AfterHops(t: Task, hops: seq<Hop>): (n: Task)
    requires Itinerary(t, hops)
    decreases |hops|
  {
    if hops == [] then t else AfterHops(AfterHop(t, hops[0]), hops[1..])
  }

  lemma {:induction false} ItineraryExtends(t: Task, hops: seq<Hop>, h: Hop)
    requires Itinerary(t, hops) && HopAllowed(AfterHops(t, hops), h)
    ensures Itinerary(t, hops + [h]) && AfterHops(t, hops + [h]) == AfterHop(AfterHops(t, hops), h)
    ensures CountFallbacks(hops + [h]) == CountFallbacks(hops) + (if h.FallbackHop? then 1 else 0)
    decreases |hops|
  {
    if hops == [] {
      assert hops + [h] == [h] && [h][1..] == [];
    } else {
      ItineraryExtends(AfterHop(t, hops[0]), hops[1..], h);
      assert (hops + [h])[1..] == hops[1..] + [h];
    }
  }

  function CountRetries(hops: seq<Hop>): (n: nat) {
    if hops == [] then 0 else (if hops[0].RetryHop? then 1 else 0) + CountRetries(hops[1..])
  }

  function CountThrottles(hops: seq<Hop>): (n: nat) {
    if hops == [] then 0 else (if hops[0].ThrottleHop? then 1 else 0) + CountThrottles(hops[1..])
  }

  function CountFallbacks(hops: seq<Hop>): (n: nat) {
    if hops == [] then 0 else (if hops[0].FallbackHop? then 1 else 0) + CountFallbacks(hops[1..])
  }

  /** On one channel: at most `maxAttempts - 1` retry parks and 50 throttle parks, in any order. */
  lemma {:induction false} ParksPerChannelBounded(t: Task, hops: seq<Hop>)
    requires Itinerary(t, hops) && CountFallbacks(hops) == 0
    ensures CountRetries(hops) > 0 ==> CountRetries(hops) + t.deliveryAttempts <= t.maxAttempts - 1
    ensures CountThrottles(hops) > 0 ==> CountThrottles(hops) + t.throttleAttempts <= MAX_THROTTLE_DEFERRALS
    ensures |hops| == CountRetries(hops) + CountThrottles(hops)
    decreases |hops|
  {
    if hops != [] {
      ParksPerChannelBounded(AfterHop(t, hops[0]), hops[1..]);
    }
  }

  /** Every attempt limit the task has or will be given is at most `k`. */
  ghost predicate AttemptsAtMost(t: Task, hops: seq<Hop>, k: nat) {
    && 1 <= t.maxAttempts <= k
    && forall i :: 0 <= i < |hops| && hops[i].FallbackHop? ==> hops[i].newMaxAttempts <= k
  }

  /** A budget that covers everything a task may still do: its parks here, and per channel left one handover
    * and a full set of parks. */
  function HopBudget(t: Task, k: nat): (n: nat)
    requires k >= 1
  {
    ParksLeft(t) + |t.fallbackChain| * (k + MAX_THROTTLE_DEFERRALS)
  }

  /** Every task ends: no sequence of retries, deferrals and fallbacks is longer than its budget, so a task fresh
    * on its first channel of `n + 1` makes at most `(n + 1) * (k + 50) - 1` hops. */
  lemma {:induction false} EveryTaskEnds(t: Task, hops: seq<Hop>, k: nat)
    requires Itinerary(t, hops) && AttemptsAtMost(t, hops, k)
    ensures |hops| <= HopBudget(t, k)
    ensures CountFallbacks(hops) <= |t.fallbackChain|
    decreases |hops|
  {
    if hops != [] {
      var h, rest := hops[0], hops[1..];
      var n := AfterHop(t, h);
      assert forall i :: 0 <= i < |rest| ==> rest[i] == hops[i + 1];
      HopDescends(t, h);
      EveryTaskEnds(n, rest, k);
      if h.FallbackHop? {
        assert h == hops[0] && h.newMaxAttempts <= k;
        FallbackPays(|n.fallbackChain|, |t.fallbackChain|, k + MAX_THROTTLE_DEFERRALS);
      }
    }
  }

  lemma FallbackPays(shorter: nat, longer: nat, cost: nat)
    requires shorter + 1 == longer
    ensures shorter * cost + cost == longer * cost
  {
  }
}
