/** The project settings cache with lookups in flight (src/rate-limiter/project-settings-cache.ts), cut where control
  * returns to the event loop: `get` up to its answer or the promise it joins, the `then` of a lookup, its `finally`.
  *
  * A lookup is named by the order in which it started. The ghost history records how many lookups had started when a
  * project was last invalidated: one with a smaller number may have read the settings before the change. */
module SettingsCache {
  import opened Wrappers

  datatype Settings = Settings(throttleLimit: Option<int>, throttleWindowHours: Option<int>)

  const NO_OVERRIDES := Settings(None, None)

  /** Running until the loader settles; Answered until the `finally` has run. */
  datatype Phase = Running | Answered | Gone

  datatype Lookup = Lookup(projectId: string, phase: Phase)

  /** `get` answers from the cache, or with the promise of a lookup. */
  datatype Answer = Cached(settings: Settings) | Pending(lookup: nat)

  /** When each project was last invalidated, and when everything last was, in lookups started. */
  datatype History = History(invalidated: map<string, nat>, cleared: nat) {

    /** No lookup below this number may have its answer seen by a `get` of the project. */
    function Barrier(projectId: string): (b: nat) {
      if projectId in invalidated && invalidated[projectId] > cleared then invalidated[projectId] else cleared
    }
  }

  predicate Current(lookups: seq<Lookup>, h: History, projectId: string, l: nat) {
    h.Barrier(projectId) <= l < |lookups| && lookups[l].projectId == projectId
  }

  /** What is cached, and from which lookup, is never older than the last invalidation. */
  ghost predicate CacheFresh(sources: map<string, nat>, lookups: seq<Lookup>, h: History) {
    forall p :: p in sources ==> Current(lookups, h, p, sources[p]) && !lookups[sources[p]].phase.Running?
  }

  /** Nor is the lookup a `get` would join; and a project's lookups that are still on their way and not out of date are at
    * most one, the one in flight. */
  ghost predicate FlightsFresh(inFlight: map<string, nat>, lookups: seq<Lookup>, h: History) {
    && (forall p :: p in inFlight ==> Current(lookups, h, p, inFlight[p]) && !lookups[inFlight[p]].phase.Gone?)
    && (forall l :: 0 <= l < |lookups| && h.Barrier(lookups[l].projectId) <= l && !lookups[l].phase.Gone? ==>
          lookups[l].projectId in inFlight && inFlight[lookups[l].projectId] == l)
  }

  ghost predicate InThePast(lookups: seq<Lookup>, h: History) {
    h.cleared <= |lookups| && forall p :: p in h.invalidated ==> h.invalidated[p] <= |lookups|
  }

  /** A lookup that has just been answered may be cached, if it is the one in flight. */
  lemma AnsweredKeepsFresh(sources: map<string, nat>, inFlight: map<string, nat>, lookups: seq<Lookup>, h: History, l: nat)
    requires CacheFresh(sources, lookups, h) && FlightsFresh(inFlight, lookups, h) && InThePast(lookups, h)
    requires l < |lookups| && lookups[l].phase.Running?
    ensures var p, after := lookups[l].projectId, lookups[l := lookups[l].(phase := Answered)];
      && CacheFresh(sources, after, h) && FlightsFresh(inFlight, after, h) && InThePast(after, h)
      && (p in inFlight && inFlight[p] == l ==> CacheFresh(sources[p := l], after, h))
      && (p in inFlight && inFlight[p] == l <==> h.Barrier(p) <= l)
  {
    var p, after := lookups[l].projectId, lookups[l := lookups[l].(phase := Answered)];
    assert forall i :: 0 <= i < |lookups| ==> after[i].projectId == lookups[i].projectId;
  }

  lemma GoneKeepsFresh(sources: map<string, nat>, inFlight: map<string, nat>, lookups: seq<Lookup>, h: History, l: nat)
    requires CacheFresh(sources, lookups, h) && FlightsFresh(inFlight, lookups, h) && InThePast(lookups, h)
    requires l < |lookups| && lookups[l].phase.Answered?
    ensures var p, after := lookups[l].projectId, lookups[l := lookups[l].(phase := Gone)];
      && CacheFresh(sources, after, h) && InThePast(after, h)
      && FlightsFresh(if p in inFlight && inFlight[p] == l then inFlight - {p} else inFlight, after, h)
      && (p in inFlight && inFlight[p] == l <==> h.Barrier(p) <= l)
  {
    var p, after := lookups[l].projectId, lookups[l := lookups[l].(phase := Gone)];
    assert forall i :: 0 <= i < |lookups| ==> after[i].projectId == lookups[i].projectId;
  }

  lemma InvalidateKeepsFresh(sources: map<string, nat>, inFlight: map<string, nat>, lookups: seq<Lookup>, h: History, p: string)
    requires CacheFresh(sources, lookups, h) && FlightsFresh(inFlight, lookups, h) && InThePast(lookups, h)
    ensures var after := h.(invalidated := h.invalidated[p := |lookups|]);
      CacheFresh(sources - {p}, lookups, after) && FlightsFresh(inFlight - {p}, lookups, after) && InThePast(lookups, after)
  {
    var after := h.(invalidated := h.invalidated[p := |lookups|]);
    assert forall q :: after.Barrier(q) == if q == p then |lookups| else h.Barrier(q);
  }

  lemma SameKeys(cache: map<string, Settings>, sources: map<string, nat>, p: string)
    requires cache.Keys == sources.Keys
    ensures (cache - {p}).Keys == (sources - {p}).Keys
  {
  }

  class ProjectSettingsCache {
    var cache: map<string, Settings>
    var inFlight: map<string, nat>
    var lookups: seq<Lookup>
    ghost var history: History
    /** Which lookup each cached value came from. */
    ghost var sources: map<string, nat>

    ghost predicate Valid()
      reads this
    {
      && cache.Keys == sources.Keys
      && CacheFresh(sources, lookups, history) && FlightsFresh(inFlight, lookups, history) && InThePast(lookups, history)
    }

    constructor ()
      ensures Valid() && cache == map[] && inFlight == map[] && lookups == [] && history == History(map[], 0)
    {
      cache, inFlight, lookups, history, sources := map[], map[], [], History(map[], 0), map[];
    }

    /** Never anything from a lookup started before the last `invalidate`: a cached value, the lookup in flight, or a new
      * one, of which there is at most one at a time per project. */
    method Get(projectId: string) returns (answer: Answer)
      requires Valid()
      modifies this
      ensures Valid() && history == old(history) && cache == old(cache) && sources == old(sources)
      ensures answer.Cached? <==> projectId in old(cache)
      ensures answer.Cached? ==> answer.settings == cache[projectId] && sources[projectId] >= history.Barrier(projectId)
      ensures answer.Pending? ==> Current(lookups, history, projectId, answer.lookup)
      ensures inFlight == if answer.Pending? then old(inFlight)[projectId := answer.lookup] else old(inFlight)
      ensures answer == Pending(|old(lookups)|) <==> projectId !in old(cache) && projectId !in old(inFlight)
      ensures lookups == if answer == Pending(|old(lookups)|) then old(lookups) + [Lookup(projectId, Running)] else old(lookups)
    {
      if projectId in cache {
        return Cached(cache[projectId]);
      }
      if projectId in inFlight {
        assert inFlight == inFlight[projectId := inFlight[projectId]];
        return Pending(inFlight[projectId]);
      }
      var pending := |lookups|;
      lookups := lookups + [Lookup(projectId, Running)];
      inFlight := inFlight[projectId := pending];
      answer := Pending(pending);
    }

    /** The loader has settled (`None`: it threw). The value is cached exactly if no `invalidate` has come since the lookup
      * started. */
    method Settle(l: nat, result: Option<Option<Settings>>)
      requires Valid() && l < |lookups| && lookups[l].phase.Running?
      modifies this
      ensures Valid() && history == old(history) && inFlight == old(inFlight)
      ensures lookups == old(lookups)[l := Lookup(old(lookups[l].projectId), Answered)]
      ensures var p := old(lookups[l].projectId);
        if result.Some? && l >= history.Barrier(p) then
          cache == old(cache)[p := result.value.UnwrapOr(NO_OVERRIDES)] && sources == old(sources)[p := l]
        else cache == old(cache) && sources == old(sources)
    {
      AnsweredKeepsFresh(sources, inFlight, lookups, history, l);
      hide CacheFresh, FlightsFresh, InThePast;
      var projectId := lookups[l].projectId;
      if result.Some? {
        var resolved := result.value.UnwrapOr(NO_OVERRIDES);
        if projectId in inFlight && inFlight[projectId] == l {
          cache := cache[projectId := resolved];
          sources := sources[projectId := l];
        }
      }
      lookups := lookups[l := Lookup(projectId, Answered)];
    }

    /** The `finally`, on success and on failure alike: the next `get` of an uncached project asks again. */
    method Finally(l: nat)
      requires Valid() && l < |lookups| && lookups[l].phase.Answered?
      modifies this
      ensures Valid() && history == old(history) && cache == old(cache) && sources == old(sources)
      ensures lookups == old(lookups)[l := Lookup(old(lookups[l].projectId), Gone)]
      ensures var p := old(lookups[l].projectId);
        inFlight == if l >= history.Barrier(p) then old(inFlight) - {p} else old(inFlight)
    {
      GoneKeepsFresh(sources, inFlight, lookups, history, l);
      hide CacheFresh, FlightsFresh, InThePast;
      var projectId := lookups[l].projectId;
      if projectId in inFlight && inFlight[projectId] == l {
        inFlight := inFlight - {projectId};
      }
      lookups := lookups[l := Lookup(projectId, Gone)];
    }

    method Invalidate(projectId: string)
      requires Valid()
      modifies this
      ensures Valid() && lookups == old(lookups)
      ensures history == old(history).(invalidated := old(history).invalidated[projectId := |lookups|])
      ensures cache == old(cache) - {projectId} && sources == old(sources) - {projectId}
      ensures inFlight == old(inFlight) - {projectId}
    {
      hide CacheFresh, FlightsFresh, InThePast;
      InvalidateKeepsFresh(sources, inFlight, lookups, history, projectId);
      SameKeys(cache, sources, projectId);
      cache := cache - {projectId};
      inFlight := inFlight - {projectId};
      sources, history :=
        sources - {projectId}, history.(invalidated := history.invalidated[projectId := |lookups|]);
    }

    method Clear()
      requires Valid()
      modifies this
      ensures Valid() && lookups == old(lookups) && cache == map[] && inFlight == map[]
      ensures history == old(history).(cleared := |lookups|)
    {
      cache, sources, inFlight := map[], map[], map[];
      history := history.(cleared := |lookups|);
    }

    /** Expiry, or eviction of the least recently used: any entry may go at any time. */
    method Evict(projectId: string)
      requires Valid()
      modifies this
      ensures Valid() && lookups == old(lookups) && inFlight == old(inFlight) && history == old(history)
      ensures cache == old(cache) - {projectId} && sources == old(sources) - {projectId}
    {
      cache := cache - {projectId};
      sources := sources - {projectId};
    }
  }
}
