/** Acknowledging: `StreamConsumer.ack`, its buffers, and `nack` (src/queue/index.ts). Whether a command to Redis lands is
  * a parameter; a method whose `ok` is false throws. */
module StreamConsumer {

  datatype Entry = Entry(stream: string, id: string)

  datatype DeadLetter = DeadLetter(entry: Entry, reason: string)

  /** Which commands of an ack land: XACK and XDEL go out in one round trip, and either may fail. */
  datatype Landing = Landing(xack: bool, xdel: bool)

  /** One consumer group's view of Redis. */
  class Streams {
    var entries: set<Entry>
    var pending: set<Entry>
    var deadLetters: seq<DeadLetter>

    constructor ()
      ensures entries == {} && pending == {} && deadLetters == []
    {
      entries, pending, deadLetters := {}, {}, [];
    }
  }

  function EntriesOf(stream: string, ids: seq<string>): (es: set<Entry>)
    ensures forall e :: e in es <==> e.stream == stream && e.id in ids
  {
    set id | id in ids :: Entry(stream, id)
  }

  predicate InBuffers(buffers: map<string, seq<string>>, e: Entry) {
    e.stream in buffers && e.id in buffers[e.stream]
  }

  ghost function AllBuffered(buffers: map<string, seq<string>>): (es: set<Entry>)
    ensures forall e :: e in es <==> InBuffers(buffers, e)
  {
    set s, id | s in buffers && id in buffers[s] :: Entry(s, id)
  }

  /** The entries of the buffers already flushed, for the streams whose command `landed`; `left` are those still to do. */
  ghost function Sent(buffers: map<string, seq<string>>, left: set<string>, landed: set<string>): (es: set<Entry>) {
    set e | e in AllBuffered(buffers) && e.stream !in left && e.stream in landed
  }

  lemma SentOneMore(buffers: map<string, seq<string>>, left: set<string>, landed: set<string>, s: string)
    requires s in left && s in buffers
    ensures Sent(buffers, left - {s}, landed) ==
            Sent(buffers, left, landed) + (if s in landed then EntriesOf(s, buffers[s]) else {})
  {
  }

  lemma TakenInTwo(all: set<Entry>, first: set<Entry>, second: set<Entry>)
    ensures all - first - second == all - (first + second)
  {
  }

  class Consumer {
    const redis: Streams
    const bufferAcks: bool
    const batchSize: nat
    const hasDlq: bool
    var ackBuffers: map<string, seq<string>>
    var timerArmed: bool

    constructor (redis: Streams, bufferAcks: bool, batchSize: nat, hasDlq: bool)
      requires batchSize > 0
      ensures this.redis == redis && this.bufferAcks == bufferAcks && this.batchSize == batchSize && this.hasDlq == hasDlq
      ensures ackBuffers == map[] && Valid()
    {
      this.redis, this.bufferAcks, this.batchSize, this.hasDlq := redis, bufferAcks, batchSize, hasDlq;
      ackBuffers, timerArmed := map[], false;
    }

    /** No ack is stranded: what is buffered is below a batch, and a timer will flush it. */
    ghost predicate Valid()
      reads this
    {
      && batchSize > 0
      && (forall s :: s in ackBuffers ==> |ackBuffers[s]| < batchSize && (ackBuffers[s] != [] ==> timerArmed))
    }

    method AckAndDelete(stream: string, ids: seq<string>, landing: Landing) returns (ok: bool)
      modifies redis`entries, redis`pending
      ensures redis.pending == old(redis.pending) - (if landing.xack then EntriesOf(stream, ids) else {})
      ensures redis.entries == old(redis.entries) - (if landing.xdel then EntriesOf(stream, ids) else {})
      ensures ok <==> landing.xack && landing.xdel
    {
      if landing.xack {
        redis.pending := redis.pending - EntriesOf(stream, ids);
      }
      if landing.xdel {
        redis.entries := redis.entries - EntriesOf(stream, ids);
      }
      ok := landing.xack && landing.xdel;
    }

    /** What an ack does: only the entries acked, now or by this stream's buffer, can leave; each is afterwards gone, still
      * buffered, or left behind by a command that did not land. Only an ack sent at once can throw. */
    twostate predicate Acked(ids: seq<string>, stream: string, landing: Landing, ok: bool)
      reads this, redis
    {
      var due := (if stream in old(ackBuffers) then old(ackBuffers[stream]) else []) + ids;
      var acked := if bufferAcks then due else ids;
      var sent := ids != [] && (!bufferAcks || |due| >= batchSize);
      && redis.pending == old(redis.pending) - (if sent && landing.xack then EntriesOf(stream, acked) else {})
      && redis.entries == old(redis.entries) - (if sent && landing.xdel then EntriesOf(stream, acked) else {})
      && ackBuffers == (if ids == [] || !bufferAcks then old(ackBuffers)
                        else old(ackBuffers)[stream := if |due| >= batchSize then [] else due])
      && (ok <==> ids == [] || bufferAcks || (landing.xack && landing.xdel))
    }

    /** Acks at once, or buffers and flushes at a full batch. */
    method Ack(ids: seq<string>, stream: string, landing: Landing) returns (ok: bool)
      requires Valid()
      modifies this`ackBuffers, this`timerArmed, redis`entries, redis`pending
      ensures Valid() && Acked(ids, stream, landing, ok)
    {
      if ids == [] {
        return true;
      }
      if !bufferAcks {
        ok := AckAndDelete(stream, ids, landing);
      } else {
        var buf := (if stream in ackBuffers then ackBuffers[stream] else []) + ids;
        ackBuffers := ackBuffers[stream := buf];
        if |buf| >= batchSize {
          FlushAcksForStream(stream, landing);
        } else {
          timerArmed := true;
        }
        ok := true;
      }
    }

    /** Empties the stream's buffer first: acks of a flush that fails are lost, and their entries stay behind. */
    method FlushAcksForStream(stream: string, landing: Landing)
      requires stream in ackBuffers
      modifies this`ackBuffers, redis`entries, redis`pending
      ensures ackBuffers == old(ackBuffers)[stream := []]
      ensures redis.pending == old(redis.pending) - (if landing.xack then EntriesOf(stream, old(ackBuffers[stream])) else {})
      ensures redis.entries == old(redis.entries) - (if landing.xdel then EntriesOf(stream, old(ackBuffers[stream])) else {})
    {
      var ids := ackBuffers[stream];
      ackBuffers := ackBuffers[stream := []];
      if ids != [] {
        var _ := AckAndDelete(stream, ids, landing);
      }
    }

    /** The timer, and `stop`: every buffered ack is sent, stream by stream, and nothing else is. `acks` and `deletes` are
      * the streams whose XACK and whose XDEL land. */
    method FlushAcks(acks: set<string>, deletes: set<string>)
      requires Valid()
      modifies this`ackBuffers, this`timerArmed, redis`entries, redis`pending
      ensures Valid() && AllBuffered(ackBuffers) == {} && !timerArmed
      ensures redis.pending == old(redis.pending) - Sent(old(ackBuffers), {}, acks)
      ensures redis.entries == old(redis.entries) - Sent(old(ackBuffers), {}, deletes)
    {
      timerArmed := false;
      ghost var buffers := ackBuffers;
      var streams := ackBuffers.Keys;
      assert Sent(buffers, streams, acks) == {} && Sent(buffers, streams, deletes) == {};
      while streams != {}
        invariant streams <= buffers.Keys == ackBuffers.Keys
        invariant forall s :: s in buffers ==> ackBuffers[s] == if s in streams then buffers[s] else []
        invariant !timerArmed
        invariant redis.pending == old(redis.pending) - Sent(buffers, streams, acks)
        invariant redis.entries == old(redis.entries) - Sent(buffers, streams, deletes)
        decreases streams
      {
        hide Sent, AllBuffered, EntriesOf;
        var s :| s in streams;
        ghost var batch := EntriesOf(s, buffers[s]);
        SentOneMore(buffers, streams, acks, s);
        SentOneMore(buffers, streams, deletes, s);
        TakenInTwo(old(redis.pending), Sent(buffers, streams, acks), if s in acks then batch else {});
        TakenInTwo(old(redis.entries), Sent(buffers, streams, deletes), if s in deletes then batch else {});
        FlushAcksForStream(s, Landing(s in acks, s in deletes));
        streams := streams - {s};
      }
    }

    /** With a dead-letter stream the write comes first: if it fails the call throws and the entry is untouched, so an entry
      * that leaves has its dead letter. Without one, a nack is an ack. */
    method Nack(entry: Entry, reason: string, dlqLands: bool, landing: Landing) returns (ok: bool)
      requires Valid()
      modifies this`ackBuffers, this`timerArmed, redis
      ensures Valid()
      ensures !hasDlq ==> Acked([entry.id], entry.stream, landing, ok)
      ensures redis.deadLetters == old(redis.deadLetters) + (if hasDlq && dlqLands then [DeadLetter(entry, reason)] else [])
      ensures hasDlq ==>
                && ackBuffers == old(ackBuffers)
                && (ok <==> dlqLands && landing.xack && landing.xdel)
                && redis.pending == old(redis.pending) - (if dlqLands && landing.xack then {entry} else {})
                && redis.entries == old(redis.entries) - (if dlqLands && landing.xdel then {entry} else {})
                && (old(entry in redis.entries) && entry !in redis.entries ==> DeadLetter(entry, reason) in redis.deadLetters)
    {
      if hasDlq {
        if !dlqLands {
          return false;
        }
        redis.deadLetters := redis.deadLetters + [DeadLetter(entry, reason)];
        assert EntriesOf(entry.stream, [entry.id]) == {entry};
        ok := AckAndDelete(entry.stream, [entry.id], landing);
      } else {
        ok := Ack([entry.id], entry.stream, landing);
      }
    }
  }
}
