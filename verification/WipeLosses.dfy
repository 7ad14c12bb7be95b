/** Exactly which tasks a wipe of Redis can lose, with engines, handlers and polls at work: the ones it makes the protocol
  * stop answering for. */
module WipeLosses {
  import opened ReleaseProtocol
  import opened ReleaseBacking
  import opened ReleaseInvariant
  import opened ReleaseRuns
  import opened ReleaseSafety

  // ---------------------------------------------------------------- what survives is safe

  lemma {:induction false} KnownStaysKnown(s: World, steps: seq<Step>, t: TaskId)
    requires Run(s, steps) && WipeFree(steps) && t in s.known
    ensures t in After(s, steps).known
    decreases |steps|
  {
    if steps != [] {
      StepFrame(s, steps[0]);
      hide Apply, Enabled;
      assert forall i :: 0 <= i < |steps[1..]| ==> steps[1..][i] == steps[i + 1];
      KnownStaysKnown(Apply(s, steps[0]), steps[1..], t);
    }
  }

  // ---------------------------------------------------------------- what does not, can be lost

  /** Nothing of `t` has come or gone from `s` to `u`, whatever poll `a` did for other tasks. */
  ghost predicate Aside(s: World, u: World, t: TaskId) {
    && u.now == s.now && u.rows == s.rows && u.scheduled == s.scheduled
    && (forall e :: e in u.outbound && u.outbound[e].id == t ==> e in s.outbound && s.outbound[e].id == t)
  }

  predicate SameEnding(s: World, u: World, t: TaskId) {
    Closed(u, t) <==> Closed(s, t)
  }

  lemma AsideTrans(s: World, u: World, v: World, t: TaskId)
    requires Aside(s, u, t) && Aside(u, v, t)
    ensures Aside(s, v, t)
  {
  }

  predicate OwnIds(p: Poll)
    requires p.Releasing?
  {
    forall v :: v in p.rows ==> p.rows[v].task.id == v
  }

  /** Poll `a` has published `ts` more; nothing else has happened. */
  ghost predicate HasPublished(s: World, u: World, a: ActorId, ts: set<TaskId>, t: TaskId) {
    && a in s.polls && s.polls[a].Releasing?
    && Aside(s, u, t) && SameEnding(s, u, t)
    && u.members == s.members && u.sentinel == s.sentinel && u.rebuilds == s.rebuilds
    && a in u.polls && u.polls[a] == s.polls[a].(published := s.polls[a].published + ts)
  }

  lemma HasPublishedTrans(s: World, s1: World, u: World, a: ActorId, v: TaskId, ts: set<TaskId>, t: TaskId)
    requires HasPublished(s, s1, a, {v}, t) && HasPublished(s1, u, a, ts, t) && v in ts
    ensures HasPublished(s, u, a, ts, t)
  {
    AsideTrans(s, s1, u, t);
    assert s.polls[a].published + {v} + ts == s.polls[a].published + ts;
  }

  lemma AsideRefl(s: World, t: TaskId)
    ensures Aside(s, s, t)
  {
  }

  /** A poll publishes what it still has to, none of it being `t`. */
  lemma {:induction false} Publishing(s: World, a: ActorId, t: TaskId) returns (steps: seq<Step>)
    requires a in s.polls && s.polls[a].Releasing? && OwnIds(s.polls[a]) && t !in ToPublish(s.polls[a]) - s.polls[a].published
    ensures Run(s, steps) && Background(steps) && HasPublished(s, After(s, steps), a, ToPublish(s.polls[a]), t)
    decreases ToPublish(s.polls[a]) - s.polls[a].published
  {
    var p := s.polls[a];
    var left := ToPublish(p) - p.published;
    AsideRefl(s, t);
    hide Aside;
    if left == {} {
      steps := [];
      assert forall v :: v in ToPublish(p) ==> v in p.published || v in left;
      assert p.published + ToPublish(p) == p.published;
    } else {
      var v :| v in left;
      var s1 := PollApply(s, PublishOne(a, v));
      PublishesOne(s, a, v, t);
      assert s1.polls[a].published == p.published + {v} && ToPublish(s1.polls[a]) == ToPublish(p);
      steps := Publishing(s1, a, t);
      HasPublishedTrans(s, s1, After(s1, steps), a, v, ToPublish(p), t);
      hide PollApply, HasPublished, ToPublish, OwnIds, AtRisk;
      RunCons(s, OfPoll(PublishOne(a, v)), s1, steps);
      steps := [OfPoll(PublishOne(a, v))] + steps;
    }
  }

  lemma PublishesOne(s: World, a: ActorId, v: TaskId, t: TaskId)
    requires PollEnabled(s, PublishOne(a, v)) && OwnIds(s.polls[a]) && v != t
    ensures HasPublished(s, PollApply(s, PublishOne(a, v)), a, {v}, t)
  {
  }

  /** The delete of a row whose published version the wipe has erased. */
  lemma DeleteLoses(s: World, a: ActorId, t: TaskId) returns (steps: seq<Step>)
    requires a in s.polls && s.polls[a].Releasing? && OwnIds(s.polls[a]) && t in s.polls[a].published
    requires t in TasksOf(s.polls[a].members) && t in s.polls[a].rows && s.polls[a].published !! s.polls[a].blocked
    requires t in s.rows && s.rows[t].sendAt == s.polls[a].rows[t].sendAt
    requires !Closed(s, t) && !PendingOnStream(s, t)
    ensures Run(s, steps) && Background(steps) && !NotLost(After(s, steps), t)
  {
    steps := Publishing(s, a, t);
    var u := After(s, steps);
    var v := PollApply(u, DeleteRows(a));
    RunNil(v);
    RunCons(u, OfPoll(DeleteRows(a)), v, []);
    RunConcat(s, steps, [OfPoll(DeleteRows(a))] + []);
    steps := steps + ([OfPoll(DeleteRows(a))] + []);
  }

  /** Rebuild 0 has restored all it had read; nothing else has happened. */
  ghost predicate HasRestored(s: World, u: World, t: TaskId) {
    && Aside(s, u, t) && SameEnding(s, u, t) && u.polls == s.polls && u.sentinel == s.sentinel
    && ((forall m :: m in s.members ==> m.tag.Rebuilt?) ==> forall m :: m in u.members ==> m.tag.Rebuilt?)
    && 0 in s.rebuilds && 0 in u.rebuilds
    && u.rebuilds[0].exhausted == s.rebuilds[0].exhausted
  }

  lemma HasRestoredTrans(s: World, s1: World, u: World, t: TaskId)
    requires HasRestored(s, s1, t) && HasRestored(s1, u, t)
    ensures HasRestored(s, u, t)
  {
    AsideTrans(s, s1, u, t);
  }

  /** Rebuild 0 restores everything it has read. */
  lemma {:induction false} Restoring(s: World, t: TaskId) returns (steps: seq<Step>)
    requires 0 in s.rebuilds
    ensures Run(s, steps) && Background(steps) && HasRestored(s, After(s, steps), t)
    ensures After(s, steps).rebuilds[0].pending == map[]
    decreases s.rebuilds[0].pending.Keys
  {
    var r := s.rebuilds[0];
    AsideRefl(s, t);
    hide Aside;
    if r.pending == map[] {
      steps := [];
    } else {
      var v :| v in r.pending;
      var s1 := RebuildApply(s, RestoreMember(0, v));
      RestoresOne(s, v, t);
      assert s1.rebuilds[0].pending == r.pending - {v};
      hide RebuildApply, AtRisk;
      SmallerPending(r.pending, v);
      steps := Restoring(s1, t);
      HasRestoredTrans(s, s1, After(s1, steps), t);
      hide HasRestored;
      RunCons(s, OfRebuild(RestoreMember(0, v)), s1, steps);
      steps := [OfRebuild(RestoreMember(0, v))] + steps;
    }
  }

  lemma SmallerPending(pending: map<TaskId, nat>, v: TaskId)
    requires v in pending
    ensures (pending - {v}).Keys < pending.Keys
  {
    assert (pending - {v}).Keys == pending.Keys - {v};
  }

  lemma RestoresOne(s: World, v: TaskId, t: TaskId)
    requires RebuildEnabled(s, RestoreMember(0, v))
    ensures HasRestored(s, RebuildApply(s, RestoreMember(0, v)), t)
  {
  }

  predicate Holds(s: World, a: ActorId, t: TaskId) {
    && a in s.polls && Member(t, Rebuilt) in s.polls[a].members
    && (s.polls[a].Cleaning?
        || (s.polls[a].Releasing? && t !in ToPublish(s.polls[a]) - s.polls[a].published
            && OwnIds(s.polls[a]) && s.polls[a].published !! s.polls[a].blocked))
  }

  /** The poll does not close the task by the way. */
  predicate LeavesOpen(s: World, a: ActorId, t: TaskId)
    requires Holds(s, a, t)
  {
    s.polls[a].Releasing? ==> t !in s.polls[a].rows || t in s.polls[a].published
  }

  /** Poll `a` gets on with its clean-up without deleting any row, and removes the rebuilt member of `t`. */
  lemma CleaningUp(s: World, a: ActorId, t: TaskId) returns (steps: seq<Step>)
    requires Holds(s, a, t)
    ensures Run(s, steps) && Background(steps)
    ensures var u := After(s, steps);
      && Aside(s, u, t) && (LeavesOpen(s, a, t) ==> SameEnding(s, u, t))
      && u.members == s.members - {Member(t, Rebuilt)} && u.sentinel == s.sentinel && u.rebuilds == s.rebuilds
  {
    if s.polls[a].Cleaning? {
      steps := Removing(s, a, t);
    } else {
      var publish := Publishing(s, a, t);
      var u := After(s, publish);
      var v := PollApply(u, DeleteRowsFails(a));
      FailingAside(u, a, t);
      assert Member(t, Rebuilt) in v.polls[a].members;
      hide PollApply, PollEnabled, Aside, ToPublish;
      var remove := Removing(v, a, t);
      AsideTrans(s, u, v, t);
      AsideTrans(s, v, After(v, remove), t);
      RunCons(u, OfPoll(DeleteRowsFails(a)), v, remove);
      steps := [OfPoll(DeleteRowsFails(a))] + remove;
      RunConcat(s, publish, steps);
      steps := publish + steps;
    }
  }

  lemma FailingAside(s: World, a: ActorId, t: TaskId)
    requires a in s.polls && s.polls[a].Releasing? && ToPublish(s.polls[a]) <= s.polls[a].published
    ensures PollEnabled(s, DeleteRowsFails(a)) && Aside(s, PollApply(s, DeleteRowsFails(a)), t)
    ensures t !in s.polls[a].rows || t !in s.polls[a].blocked ==> SameEnding(s, PollApply(s, DeleteRowsFails(a)), t)
    ensures var v := PollApply(s, DeleteRowsFails(a));
      && v.members == s.members && v.sentinel == s.sentinel && v.rebuilds == s.rebuilds
      && a in v.polls && v.polls[a] == Cleaning(s.polls[a].members, s.polls[a].mark)
  {
  }

  lemma Removing(s: World, a: ActorId, t: TaskId) returns (steps: seq<Step>)
    requires a in s.polls && s.polls[a].Cleaning? && Member(t, Rebuilt) in s.polls[a].members
    ensures Run(s, steps) && Background(steps)
    ensures var u := After(s, steps);
      && Aside(s, u, t) && SameEnding(s, u, t)
      && u.members == s.members - {Member(t, Rebuilt)} && u.sentinel == s.sentinel && u.rebuilds == s.rebuilds
  {
    var step := RemoveMember(a, Member(t, Rebuilt));
    RunNil(PollApply(s, step));
    RunCons(s, OfPoll(step), PollApply(s, step), []);
    steps := [OfPoll(step)] + [];
  }

  /** Redis is empty, and no rebuild has begun. */
  predicate Wiped(s: World) {
    s.members == map[] && s.scheduled == map[] && s.outbound == map[] && !s.sentinel && s.rebuilds == map[]
  }

  /** Rebuild 0 has read all of Postgres and restored it. */
  lemma Rebuilding(s: World, t: TaskId) returns (steps: seq<Step>)
    requires Wiped(s)
    ensures Run(s, steps) && Background(steps)
    ensures var u := After(s, steps);
      && Aside(s, u, t) && SameEnding(s, u, t) && u.polls == s.polls && (forall m :: m in u.members ==> m.tag.Rebuilt?)
      && RebuildEnabled(u, SetSentinel(0))
  {
    var s1 := RebuildApply(s, StartRebuild(0));
    var s2 := RebuildApply(s1, ReadPage(0, 0, true));
    assert Aside(s, s2, t) && s2.polls == s.polls && s2.members == map[];
    steps := Restoring(s2, t);
    AsideTrans(s, s2, After(s2, steps), t);
    assert RebuildEnabled(After(s2, steps), SetSentinel(0));
    var begin := RunTwo(s, OfRebuild(StartRebuild(0)), s1, OfRebuild(ReadPage(0, 0, true)), s2);
    hide RebuildApply, RebuildEnabled, Aside, Run, After, AtRisk;
    RunConcat(s, begin, steps);
    steps := begin + steps;
  }

  /** The removal of the only member that the rebuild has restored. */
  lemma RemovalLoses(s: World, a: ActorId, t: TaskId) returns (steps: seq<Step>)
    requires Wiped(s) && Holds(s, a, t) && LeavesOpen(s, a, t) && t in s.rows && !Closed(s, t)
    ensures Run(s, steps) && Background(steps) && !NotLost(After(s, steps), t)
  {
    var rebuild := Rebuilding(s, t);
    var u := After(s, rebuild);
    var clean := CleaningUp(u, a, t);
    var v := After(u, clean);
    var w := RebuildApply(v, SetSentinel(0));
    RunNil(w);
    RunCons(v, OfRebuild(SetSentinel(0)), w, []);
    RunConcat(u, clean, [OfRebuild(SetSentinel(0))] + []);
    RunConcat(s, rebuild, clean + ([OfRebuild(SetSentinel(0))] + []));
    steps := rebuild + (clean + ([OfRebuild(SetSentinel(0))] + []));
    NothingLeft(s, u, v, t);
  }

  lemma NothingLeft(s: World, u: World, v: World, t: TaskId)
    requires Wiped(s) && t in s.rows && !Closed(v, t) && Aside(s, u, t) && Aside(u, v, t)
    requires forall m :: m in u.members ==> m.tag.Rebuilt?
    requires v.members == u.members - {Member(t, Rebuilt)} && RebuildEnabled(v, SetSentinel(0))
    ensures !NotLost(RebuildApply(v, SetSentinel(0)), t)
  {
    assert forall m :: m in v.members ==> m in u.members && m != Member(t, Rebuilt);
  }

  lemma NotSurvivingIsLost(s: World, t: TaskId) returns (steps: seq<Step>)
    requires Inv(s) && s.rebuilds == map[] && t in s.known && !Survives(s, t)
    ensures Run(WipeRedis(s), steps) && Background(steps) && !NotLost(After(WipeRedis(s), steps), t)
  {
    var w := WipeRedis(s);
    if t !in s.rows {
      steps := [];
    } else {
      var a :| a in s.polls && Endangers(s, s.polls[a], t);
      var p := s.polls[a];
      assert PollConsistent(s, p);
      hide Inv, PollConsistent, HeldBefore, Released, Kept;
      if Member(t, Rebuilt) in p.members && (p.Cleaning? || (p.Releasing? && (t !in p.rows || t in p.published))) {
        steps := RemovalLoses(w, a, t);
      } else {
        steps := DeleteLoses(w, a, t);
      }
    }
  }

  lemma WipeLosesExactlyFrom(s: World, t: TaskId)
    requires Inv(s) && s.rebuilds == map[] && t in s.known
    ensures !Survives(s, t) <==>
            exists steps :: Run(WipeRedis(s), steps) && WipeFree(steps) && !NotLost(After(WipeRedis(s), steps), t)
  {
    if !Survives(s, t) {
      var steps := NotSurvivingIsLost(s, t);
    } else {
      WipeKeepsInv(s);
      assert t in s.origin by {
        HistoryOf(s);
      }
      hide Inv;
      forall steps | Run(WipeRedis(s), steps) && WipeFree(steps)
        ensures NotLost(After(WipeRedis(s), steps), t)
      {
        InvAlways(WipeRedis(s), steps);
        KnownStaysKnown(WipeRedis(s), steps, t);
        InvMeansNotLost(After(WipeRedis(s), steps), t);
      }
    }
  }

  /** A wipe leaves nothing in Redis, and Postgres and the processes as they are. */
  lemma WipeEmptiesRedis(s: World)
    ensures var t := WipeRedis(s);
      && t.members == map[] && t.scheduled == map[] && t.outbound == map[] && t.upstream == map[]
      && !t.sentinel && t.completed == {} && t.marked == {}
      && t.now == s.now && t.rows == s.rows && t.handlers == s.handlers && t.engines == s.engines
      && t.polls == s.polls && t.rebuilds == s.rebuilds && t.origin == s.origin
      && forall u :: u in s.origin ==> (u in t.known <==> Survives(s, u)) && (u in t.gone <==> !Survives(s, u))
  {
    hide Survives;
  }

  /** In any reachable state, a wipe while engines, handlers and polls are at work can lose a task the protocol answers for
    * exactly if it is neither closed nor parked, or if a poll endangers it: by the delete of the version it has published,
    * or by the removal of the member a rebuild restores. Every other task is safe in all that follows, short of a further
    * wipe. */
  lemma WipeLosesExactly(before: seq<Step>, t: TaskId)
    requires Run(Init(), before) && Enabled(After(Init(), before), Wipe) && t in After(Init(), before).known
    ensures var s := After(Init(), before);
      !Survives(s, t) <==>
      exists steps :: Run(WipeRedis(s), steps) && WipeFree(steps) && !NotLost(After(WipeRedis(s), steps), t)
  {
    Reachable(before);
    WipeLosesExactlyFrom(After(Init(), before), t);
  }
}
