/** The batch processor (src/shared/batch-processor.ts), cut where control returns to the event loop: `add`, the timer, a
  * turn of `flush`, a flush's answer, and the `finally` that gives its slot back some time after the answer.
  *
  * An item's ticket, its place in the order of `add` calls, stands for the promise that `add` returned. */
module BatchProcessor {
  import opened Wrappers

  datatype BatchItem<T> = BatchItem(item: T, ticket: nat)

  /** `Resolved(None)` when the flush returned fewer results than items. */
  datatype Outcome<R> = Resolved(result: Option<R>) | Rejected

  /** What one call of `flushFn` answered; `None` if it threw. */
  type Reply<R> = Option<seq<R>>

  function OutcomeAt<R>(reply: Reply<R>, i: nat): (o: Outcome<R>) {
    match reply
    case None => Rejected
    case Some(results) => Resolved(if i < |results| then Some(results[i]) else None)
  }

  function Flatten<T>(batches: seq<seq<BatchItem<T>>>): (all: seq<BatchItem<T>>) {
    if batches == [] then [] else Flatten(batches[..|batches| - 1]) + batches[|batches| - 1]
  }

  lemma FlattenPush<T>(batches: seq<seq<BatchItem<T>>>, batch: seq<BatchItem<T>>)
    ensures Flatten(batches + [batch]) == Flatten(batches) + batch
  {
    assert (batches + [batch])[..|batches|] == batches;
  }

  /** Where batch `k` begins among all flushed items. */
  function StartOf<T>(batches: seq<seq<BatchItem<T>>>, k: nat): (n: nat)
    requires k < |batches|
  {
    |Flatten(batches[..k])|
  }

  lemma StartOfPush<T>(batches: seq<seq<BatchItem<T>>>, batch: seq<BatchItem<T>>, k: nat)
    requires k <= |batches|
    ensures StartOf(batches + [batch], k) == if k < |batches| then StartOf(batches, k) else |Flatten(batches)|
  {
    assert (batches + [batch])[..k] == batches[..k];
    assert batches[..|batches|] == batches;
  }

  lemma {:induction false} BatchInside<T>(batches: seq<seq<BatchItem<T>>>, k: nat)
    requires k < |batches|
    ensures StartOf(batches, k) + |batches[k]| <= |Flatten(batches)|
    ensures forall i :: 0 <= i < |batches[k]| ==> Flatten(batches)[StartOf(batches, k) + i] == batches[k][i]
  {
    var n := |batches| - 1;
    if k < n {
      BatchInside(batches[..n], k);
      assert batches[..n][..k] == batches[..k];
    }
  }

  /** Two batches have no item in common. */
  lemma {:induction false} BatchesApart<T>(batches: seq<seq<BatchItem<T>>>, j: nat, k: nat)
    requires j < k < |batches|
    ensures StartOf(batches, j) + |batches[j]| <= StartOf(batches, k)
  {
    BatchInside(batches[..k], j);
    assert batches[..k][..j] == batches[..j];
  }

  /** Flushed and buffered items are, in this order, all items ever added: each exactly once, in add order. */
  ghost predicate InOrder<T>(added: seq<T>, batches: seq<seq<BatchItem<T>>>, buffer: seq<BatchItem<T>>) {
    && |Flatten(batches) + buffer| == |added|
    && forall i :: 0 <= i < |added| ==> (Flatten(batches) + buffer)[i] == BatchItem(added[i], i)
  }

  /** The promise at place `i` of a flush: rejected if the flush threw, else resolved with the result at its own place, or
    * with nothing if there are not that many. */
  ghost predicate SettledBy<R>(o: Outcome<R>, reply: Reply<R>, i: nat) {
    && (o.Rejected? <==> reply.None?)
    && (reply.Some? ==> (o.result.Some? <==> i < |reply.value|))
    && (reply.Some? && i < |reply.value| ==> o.result.value == reply.value[i])
  }

  ghost predicate TicketRight<T, R>(batches: seq<seq<BatchItem<T>>>, replies: map<nat, Reply<R>>, settled: map<nat, Outcome<R>>,
                              k: nat, i: nat)
    requires k < |batches|
  {
    var t := StartOf(batches, k) + i;
    (t in settled <==> k in replies) && (t in settled ==> SettledBy(settled[t], replies[k], i))
  }

  /** Each promise is settled exactly if its batch was answered, and from its own place in that answer. */
  ghost predicate SettledRight<T, R>(batches: seq<seq<BatchItem<T>>>, replies: map<nat, Reply<R>>,
                               settled: map<nat, Outcome<R>>) {
    && (forall k :: k in replies ==> k < |batches|)
    && (forall t :: t in settled ==> t < |Flatten(batches)|)
    && (forall k: nat, i: nat :: k < |batches| && i < |batches[k]| ==> TicketRight(batches, replies, settled, k, i))
  }

  /** A flush occupies its slot until after it has answered. */
  ghost predicate Slots<R>(inFlight: set<nat>, count: nat, replies: map<nat, Reply<R>>, maxConcurrent: nat) {
    && |inFlight| <= maxConcurrent
    && (forall k :: k in inFlight ==> k < count)
    && (forall k: nat :: k < count && k !in replies ==> k in inFlight)
  }

  lemma PushKeepsSettled<T, R>(batches: seq<seq<BatchItem<T>>>, batch: seq<BatchItem<T>>, replies: map<nat, Reply<R>>,
                               settled: map<nat, Outcome<R>>)
    requires SettledRight(batches, replies, settled)
    ensures SettledRight(batches + [batch], replies, settled)
  {
    FlattenPush(batches, batch);
    forall k: nat, i: nat | k < |batches + [batch]| && i < |(batches + [batch])[k]|
      ensures TicketRight(batches + [batch], replies, settled, k, i)
    {
      StartOfPush(batches, batch, k);
      if k < |batches| {
        assert TicketRight(batches, replies, settled, k, i);
      }
    }
  }

  lemma PushKeepsOrder<T>(added: seq<T>, batches: seq<seq<BatchItem<T>>>, buffer: seq<BatchItem<T>>)
    requires InOrder(added, batches, buffer)
    ensures InOrder(added, batches + [buffer], [])
  {
    FlattenPush(batches, buffer);
    assert Flatten(batches + [buffer]) + [] == Flatten(batches) + buffer;
  }

  lemma AddKeepsOrder<T>(added: seq<T>, batches: seq<seq<BatchItem<T>>>, buffer: seq<BatchItem<T>>, item: T)
    requires InOrder(added, batches, buffer)
    ensures InOrder(added + [item], batches, buffer + [BatchItem(item, |added|)])
  {
    assert Flatten(batches) + (buffer + [BatchItem(item, |added|)]) ==
           (Flatten(batches) + buffer) + [BatchItem(item, |added|)];
  }

  lemma OwnTickets<T>(added: seq<T>, batches: seq<seq<BatchItem<T>>>, buffer: seq<BatchItem<T>>, k: nat)
    requires InOrder(added, batches, buffer) && k < |batches|
    ensures forall i :: 0 <= i < |batches[k]| ==> batches[k][i].ticket == StartOf(batches, k) + i < |Flatten(batches)|
  {
    BatchInside(batches, k);
    forall i | 0 <= i < |batches[k]|
      ensures batches[k][i].ticket == StartOf(batches, k) + i
    {
      var t := StartOf(batches, k) + i;
      assert (Flatten(batches) + buffer)[t] == Flatten(batches)[t];
    }
  }

  /** `n` promises settled, the `i`-th of them, ticket `base + i`, from place `i` of the reply. */
  function Settling<R>(settled: map<nat, Outcome<R>>, base: nat, n: nat, reply: Reply<R>): (s: map<nat, Outcome<R>>) {
    if n == 0 then settled else Settling(settled, base, n - 1, reply)[base + n - 1 := OutcomeAt(reply, n - 1)]
  }

  lemma {:induction false} SettlingAt<R>(settled: map<nat, Outcome<R>>, base: nat, n: nat, reply: Reply<R>, t: nat)
    ensures var s := Settling(settled, base, n, reply);
      && (t in s <==> t in settled || base <= t < base + n)
      && (t in s ==> s[t] == if base <= t < base + n then OutcomeAt(reply, t - base) else settled[t])
  {
    if n > 0 {
      SettlingAt(settled, base, n - 1, reply, t);
    }
  }

  lemma AnswerKeepsSettled<T, R>(batches: seq<seq<BatchItem<T>>>, replies: map<nat, Reply<R>>, settled: map<nat, Outcome<R>>,
                                 k: nat, reply: Reply<R>)
    requires SettledRight(batches, replies, settled) && k < |batches| && k !in replies
    ensures SettledRight(batches, replies[k := reply], Settling(settled, StartOf(batches, k), |batches[k]|, reply))
    ensures forall t :: StartOf(batches, k) <= t < StartOf(batches, k) + |batches[k]| ==> t !in settled
  {
    var after, answered := Settling(settled, StartOf(batches, k), |batches[k]|, reply), replies[k := reply];
    BatchInside(batches, k);
    forall t | StartOf(batches, k) <= t < StartOf(batches, k) + |batches[k]|
      ensures t !in settled
    {
      assert TicketRight(batches, replies, settled, k, t - StartOf(batches, k));
    }
    forall t | t in after
      ensures t < |Flatten(batches)|
    {
      SettlingAt(settled, StartOf(batches, k), |batches[k]|, reply, t);
    }
    forall j: nat, i: nat | j < |batches| && i < |batches[j]|
      ensures TicketRight(batches, answered, after, j, i)
    {
      assert TicketRight(batches, replies, settled, j, i);
      SettlingAt(settled, StartOf(batches, k), |batches[k]|, reply, StartOf(batches, j) + i);
      if j < k {
        BatchesApart(batches, j, k);
      } else if k < j {
        BatchesApart(batches, k, j);
      }
    }
  }

  lemma SettlesOwn<T, R>(batch: seq<BatchItem<T>>, base: nat, settled: map<nat, Outcome<R>>, reply: Reply<R>)
    requires forall i :: 0 <= i < |batch| ==> batch[i].ticket == base + i
    requires forall t :: base <= t < base + |batch| ==> t !in settled
    ensures forall i :: 0 <= i < |batch| ==>
              && batch[i].ticket !in settled && batch[i].ticket in Settling(settled, base, |batch|, reply)
              && SettledBy(Settling(settled, base, |batch|, reply)[batch[i].ticket], reply, i)
    ensures forall t :: t in settled ==>
              t in Settling(settled, base, |batch|, reply) && Settling(settled, base, |batch|, reply)[t] == settled[t]
    ensures forall t :: t in Settling(settled, base, |batch|, reply) ==>
              t in settled || exists i :: 0 <= i < |batch| && batch[i].ticket == t
  {
    forall t: nat
      ensures t in settled ==>
                t in Settling(settled, base, |batch|, reply) && Settling(settled, base, |batch|, reply)[t] == settled[t]
      ensures t in Settling(settled, base, |batch|, reply) ==>
                t in settled || exists i :: 0 <= i < |batch| && batch[i].ticket == t
    {
      SettlingAt(settled, base, |batch|, reply, t);
      assert base <= t < base + |batch| ==> batch[t - base].ticket == t;
    }
    forall i | 0 <= i < |batch|
      ensures batch[i].ticket in Settling(settled, base, |batch|, reply)
      ensures SettledBy(Settling(settled, base, |batch|, reply)[batch[i].ticket], reply, i)
      ensures batch[i].ticket !in settled
    {
      SettlingAt(settled, base, |batch|, reply, base + i);
    }
  }

  /** Every flushed item lies in one of the batches. */
  lemma {:induction false} BatchOf<T>(batches: seq<seq<BatchItem<T>>>, t: nat) returns (k: nat)
    requires t < |Flatten(batches)|
    ensures k < |batches| && StartOf(batches, k) <= t < StartOf(batches, k) + |batches[k]|
  {
    var n := |batches| - 1;
    if t < |Flatten(batches[..n])| {
      k := BatchOf(batches[..n], t);
      assert batches[..n][..k] == batches[..k];
    } else {
      k := n;
    }
  }

  /** No promise is forgotten: once nothing is buffered and every flush has answered, every item ever added has its outcome,
    * from its own place in the flush that carried it, and nothing else has one. */
  lemma EveryAddIsSettled<T, R>(added: seq<T>, batches: seq<seq<BatchItem<T>>>, replies: map<nat, Reply<R>>,
                                settled: map<nat, Outcome<R>>, t: nat) returns (k: nat, i: nat)
    requires InOrder(added, batches, []) && SettledRight(batches, replies, settled) && t < |added|
    requires forall k: nat :: k < |batches| ==> k in replies
    ensures forall u :: u in settled ==> u < |added|
    ensures t in settled && k < |batches| && i < |batches[k]| && batches[k][i] == BatchItem(added[t], t)
    ensures SettledBy(settled[t], replies[k], i)
  {
    assert Flatten(batches) + [] == Flatten(batches);
    k := BatchOf(batches, t);
    i := t - StartOf(batches, k);
    BatchInside(batches, k);
    assert TicketRight(batches, replies, settled, k, i);
  }

  class BatchProcessor<T, R> {
    const maxSize: nat
    const maxConcurrent: nat
    var buffer: seq<BatchItem<T>>
    var timer: bool
    /** The flushes that occupy a slot. */
    var inFlight: set<nat>
    /** Every call of `flushFn`, in order, and what those that have answered answered. */
    var batches: seq<seq<BatchItem<T>>>
    var replies: map<nat, Reply<R>>
    /** How each promise was settled. */
    var settled: map<nat, Outcome<R>>
    /** Everything ever added, in order. */
    var added: seq<T>

    ghost predicate Sound()
      reads this
    {
      && InOrder(added, batches, buffer) && SettledRight(batches, replies, settled)
      && Slots(inFlight, |batches|, replies, maxConcurrent)
    }

    /** Nothing is stranded: buffered items have a timer, or every slot is busy and will be given back. */
    ghost predicate Valid()
      reads this
    {
      Sound() && (buffer != [] ==> timer || |inFlight| >= maxConcurrent)
    }

    constructor (maxSize: nat, maxConcurrent: nat)
      ensures Valid() && added == [] && batches == [] && this.maxSize == maxSize && this.maxConcurrent == maxConcurrent
    {
      this.maxSize, this.maxConcurrent := maxSize, maxConcurrent;
      buffer, timer, inFlight, batches, replies, settled, added := [], false, {}, [], map[], map[], [];
    }

    /** Starts a flush of the whole buffer, if there is anything to flush and a slot free. */
    method FlushOnce()
      requires Sound()
      modifies this`buffer, this`inFlight, this`batches
      ensures Sound()
      ensures if old(buffer) == [] || |old(inFlight)| >= maxConcurrent then
                buffer == old(buffer) && inFlight == old(inFlight) && batches == old(batches)
              else
                buffer == [] && batches == old(batches) + [old(buffer)] && inFlight == old(inFlight) + {|old(batches)|}
    {
      if buffer == [] || |inFlight| >= maxConcurrent {
        return;
      }
      PushKeepsOrder(added, batches, buffer);
      PushKeepsSettled(batches, buffer, replies, settled);
      hide InOrder, SettledRight;
      var batch := buffer;
      buffer := [];
      inFlight := inFlight + {|batches|};
      batches := batches + [batch];
    }

    /** Buffers the item under the next ticket, and flushes at once if that fills a batch and a slot is free. */
    method Add(item: T) returns (ticket: nat)
      requires Valid()
      modifies this`buffer, this`timer, this`inFlight, this`batches, this`added
      ensures Valid()
      ensures added == old(added) + [item] && ticket == |old(added)|
      ensures var all := old(buffer) + [BatchItem(item, ticket)];
        if |all| >= maxSize && |old(inFlight)| < maxConcurrent then
          buffer == [] && !timer && batches == old(batches) + [all] && inFlight == old(inFlight) + {|old(batches)|}
        else
          && buffer == all && batches == old(batches) && inFlight == old(inFlight)
          && (timer <==> old(timer) || |inFlight| < maxConcurrent)
    {
      AddKeepsOrder(added, batches, buffer, item);
      hide InOrder, SettledRight;
      ticket := |added|;
      added := added + [item];
      buffer := buffer + [BatchItem(item, ticket)];
      if |buffer| >= maxSize && |inFlight| < maxConcurrent {
        timer := false;
        FlushOnce();
      } else if !timer && |inFlight| < maxConcurrent {
        timer := true;
      }
    }

    /** What is buffered is flushed, less than a full batch or not, unless every slot is busy. */
    method TimerFires()
      requires Valid() && timer
      modifies this`buffer, this`timer, this`inFlight, this`batches
      ensures Valid() && !timer
      ensures if old(buffer) == [] || |old(inFlight)| >= maxConcurrent then
                buffer == old(buffer) && inFlight == old(inFlight) && batches == old(batches)
              else
                buffer == [] && batches == old(batches) + [old(buffer)] && inFlight == old(inFlight) + {|old(batches)|}
    {
      hide InOrder, SettledRight;
      timer := false;
      FlushOnce();
    }

    /** One turn of `flush`, which has waited for a slot: what is buffered is flushed. */
    method FlushTurn()
      requires Valid() && |inFlight| < maxConcurrent
      modifies this`buffer, this`timer, this`inFlight, this`batches
      ensures Valid() && buffer == [] && !timer
      ensures if old(buffer) == [] then batches == old(batches) && inFlight == old(inFlight)
              else batches == old(batches) + [old(buffer)] && inFlight == old(inFlight) + {|old(batches)|}
    {
      hide InOrder, SettledRight;
      timer := false;
      FlushOnce();
    }

    /** A flush answers: the promises of its own items, not settled before, are settled, each from its own index; no other
      * promise is touched. */
    method Answer(k: nat, reply: Reply<R>)
      requires Valid() && k < |batches| && k !in replies
      modifies this`replies, this`settled
      ensures Valid() && replies == old(replies)[k := reply]
      ensures forall i :: 0 <= i < |batches[k]| ==>
                && batches[k][i].ticket !in old(settled) && batches[k][i].ticket in settled
                && SettledBy(settled[batches[k][i].ticket], reply, i)
      ensures forall t :: t in old(settled) ==> t in settled && settled[t] == old(settled)[t]
      ensures forall t :: t in settled ==> t in old(settled) || exists i :: 0 <= i < |batches[k]| && batches[k][i].ticket == t
    {
      ghost var base := StartOf(batches, k);
      OwnTickets(added, batches, buffer, k);
      AnswerKeepsSettled(batches, replies, settled, k, reply);
      SettlesOwn(batches[k], base, settled, reply);
      hide InOrder, SettledRight, Flatten, StartOf;
      var i := 0;
      while i < |batches[k]|
        invariant 0 <= i <= |batches[k]|
        invariant settled == Settling(old(settled), base, i, reply) && replies == old(replies)
      {
        settled := settled[batches[k][i].ticket := OutcomeAt(reply, i)];
        i := i + 1;
      }
      replies := replies[k := reply];
    }

    /** The `finally`: the slot is free again, and goes to what was buffered meanwhile if that is a full batch. */
    method Release(k: nat)
      requires Valid() && k in inFlight && k in replies
      modifies this`buffer, this`timer, this`inFlight, this`batches
      ensures Valid()
      ensures if old(buffer) != [] && !old(timer) && |old(buffer)| >= maxSize then
                && buffer == [] && !timer && batches == old(batches) + [old(buffer)]
                && inFlight == old(inFlight) - {k} + {|old(batches)|}
              else
                && buffer == old(buffer) && batches == old(batches) && inFlight == old(inFlight) - {k}
                && (timer <==> old(timer) || buffer != [])
    {
      hide InOrder, SettledRight;
      inFlight := inFlight - {k};
      if buffer == [] || timer {
        return;
      }
      if |buffer| >= maxSize {
        FlushOnce();
      } else {
        timer := true;
      }
    }
  }
}
