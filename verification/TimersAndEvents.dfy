/** What one timer, one event and one refused resume do to a sleeping workflow instance (src/services/workflow/timers.ts,
  * src/services/events/main.ts, src/services/workflow/main.ts): results about the machine of Wakeups. */
module TimersAndEvents {
  import opened StepNotify
  import opened Workflow
  import opened Wakeups
  import opened Wrappers

  lemma {:induction false} RunsOn(c: Config, s: Wakeups.World, first: seq<Wakeups.Step>, second: seq<Wakeups.Step>)
    requires Wakeups.IsRun(c, s, first) && Wakeups.IsRun(c, Wakeups.After(c, s, first), second)
    ensures Wakeups.IsRun(c, s, first + second)
    ensures Wakeups.After(c, s, first + second) == Wakeups.After(c, Wakeups.After(c, s, first), second)
    decreases |first|
  {
    hide Wakeups.Enabled, Wakeups.Apply;
    if first == [] {
      assert first + second == second;
    } else {
      RunsOn(c, Wakeups.Apply(c, s, first[0]), first[1..], second);
      assert (first + second)[1..] == first[1..] + second;
    }
  }

  lemma TwoSteps(c: Config, s: Wakeups.World, first: Wakeups.Step, t: Wakeups.World, second: Wakeups.Step, u: Wakeups.World)
    requires Wakeups.Enabled(c, s, first) && t == Wakeups.Apply(c, s, first)
    requires Wakeups.Enabled(c, t, second) && u == Wakeups.Apply(c, t, second)
    ensures Wakeups.IsRun(c, s, [first, second]) && Wakeups.After(c, s, [first, second]) == u
  {
    hide Wakeups.Enabled, Wakeups.Apply;
    assert [second][1..] == [] && [first, second][1..] == [second];
    assert Wakeups.IsRun(c, u, []) && Wakeups.After(c, u, []) == u;
    assert Wakeups.IsRun(c, t, [second]) && Wakeups.After(c, t, [second]) == u;
  }

  lemma TwoPollSteps(c: Config, s: Wakeups.World, first: PollStep, t: Wakeups.World, second: PollStep, u: Wakeups.World)
    requires PollEnabled(c, s, first) && t == PollApply(c, s, first)
    requires PollEnabled(c, t, second) && u == PollApply(c, t, second)
    ensures Wakeups.IsRun(c, s, [OfPoll(first), OfPoll(second)])
    ensures Wakeups.After(c, s, [OfPoll(first), OfPoll(second)]) == u
  {
    hide PollEnabled, PollApply;
    TwoSteps(c, s, OfPoll(first), t, OfPoll(second), u);
  }

  lemma TwoMatchSteps(c: Config, s: Wakeups.World, first: MatchStep, t: Wakeups.World, second: MatchStep, u: Wakeups.World)
    requires MatchEnabled(c, s, first) && t == MatchApply(c, s, first)
    requires MatchEnabled(c, t, second) && u == MatchApply(c, t, second)
    ensures Wakeups.IsRun(c, s, [OfMatch(first), OfMatch(second)])
    ensures Wakeups.After(c, s, [OfMatch(first), OfMatch(second)]) == u
  {
    hide MatchEnabled, MatchApply;
    TwoSteps(c, s, OfMatch(first), t, OfMatch(second), u);
  }

  /** What the select of an unresolved wait for an event, and the update by its id, do to the engine's tables. */
  lemma Finding(c: Config, s: Workflow.World, f: RunId, i: nat)
    ensures Workflow.Enabled(c, s, FindUnfilled(f, i)) <==>
            f !in s.fillers && i in s.rows && s.rows[i].action == WaitForEvent && s.rows[i].output == Null
    ensures Workflow.Enabled(c, s, FindUnfilled(f, i)) ==>
            Workflow.Apply(c, s, FindUnfilled(f, i)) == s.(fillers := s.fillers[f := Filler(i)])
  {
  }

  lemma Filling(c: Config, s: Workflow.World, f: RunId, i: nat, output: Output)
    requires f in s.fillers && s.fillers[f] == Filler(i) && i in s.rows && (output.Received? || output.TimedOut?)
    ensures Workflow.Enabled(c, s, Fill(f, output))
    ensures Workflow.Apply(c, s, Fill(f, output)) ==
            s.(rows := s.rows[i := s.rows[i].(output := output)], fillers := s.fillers - {f})
  {
  }

  predicate Over(status: Status) {
    status == Absent || status == Completed || status == Failed || status == Canceled
  }

  // ---------------------------------------------------------------- a timer that is due

  /** A poll's member is dropped if its instance is gone or has ended, stays for later while the instance runs, and otherwise
    * is acted on, a timeout only after a look at its step. */
  lemma StatusDecides(c: Config, s: Wakeups.World, p: PollId)
    requires p in s.polls && s.polls[p].Claimed?
    ensures PollEnabled(c, s, ReadStatus(p))
    ensures var t, u := s.polls[p].timer, PollApply(c, s, ReadStatus(p));
      && u == s.(polls := u.polls) && u.polls - {p} == s.polls - {p}
      && (p !in u.polls <==> s.core.status == Running)
      && (p in u.polls && u.polls[p] == Removing(t) <==> Over(s.core.status))
      && (p in u.polls && u.polls[p] == Checking(t) <==> s.core.status == Pending && t.Timeout?)
      && (p in u.polls && u.polls[p] == Publishing(t) <==> s.core.status == Pending && !t.Timeout?)
  {
  }

  /** A timeout is stale, and is dropped without a trace, exactly if its step has no row or has its output. */
  lemma StaleTimeoutsAreDropped(c: Config, s: Wakeups.World, p: PollId)
    requires p in s.polls && s.polls[p].Checking? && s.polls[p].timer.Timeout?
    ensures PollEnabled(c, s, CheckStep(p))
    ensures var t, u := s.polls[p].timer, PollApply(c, s, CheckStep(p));
      && u == s.(polls := s.polls[p := u.polls[p]])
      && (u.polls[p] == Removing(t) <==> t.index !in s.core.rows || s.core.rows[t.index].output != Null)
      && (u.polls[p] == Deleting(t) <==> t.index in s.core.rows && s.core.rows[t.index].output == Null)
  {
  }

  /** The waiters that a timeout deletes are those of its event; if there are none, the event has come first. */
  lemma TimeoutTakesItsWaiters(c: Config, s: Wakeups.World, p: PollId)
    requires p in s.polls && s.polls[p].Deleting? && s.polls[p].timer.Timeout?
    ensures PollEnabled(c, s, DeleteWaiters(p))
    ensures var t, u := s.polls[p].timer, PollApply(c, s, DeleteWaiters(p));
      && u == s.(waiters := u.waiters, polls := s.polls[p := u.polls[p]])
      && (forall w :: w in u.waiters <==> w in s.waiters && s.waiters[w].event != t.event)
      && (forall w :: w in u.waiters ==> u.waiters[w] == s.waiters[w])
      && (u.polls[p] == Removing(t) <==> !exists w :: w in s.waiters && s.waiters[w].event == t.event)
      && (u.polls[p] == Selecting(t) <==> exists w :: w in s.waiters && s.waiters[w].event == t.event)
  {
    var t := s.polls[p].timer;
    if w :| w in s.waiters && s.waiters[w].event == t.event {
      assert w in WaitingFor(s, t.event);
    }
  }

  /** The poll publishes the resume, with the input of the instance or of the deferred resume, and then drops the member. */
  lemma Resumes(c: Config, s: Wakeups.World, p: PollId) returns (u: Wakeups.World)
    requires p in s.polls && s.polls[p].Publishing?
    ensures Wakeups.IsRun(c, s, [OfPoll(PublishResume(p)), OfPoll(RemoveTimer(p))])
    ensures u == Wakeups.After(c, s, [OfPoll(PublishResume(p)), OfPoll(RemoveTimer(p))])
    ensures u == s.(entries := s.entries[s.next := match s.polls[p].timer case Deferred(input) => input case _ => s.core.input],
                    timers := s.timers - {s.polls[p].timer}, polls := s.polls - {p}, next := s.next + 1)
  {
    hide Workflow.Enabled, Workflow.Apply, Wakeups.Enabled, Wakeups.Apply, Wakeups.IsRun, Wakeups.After;
    var published := PollApply(c, s, PublishResume(p));
    u := PollApply(c, published, RemoveTimer(p));
    assert published.polls - {p} == s.polls - {p};
    TwoPollSteps(c, s, PublishResume(p), published, RemoveTimer(p), u);
  }

  lemma Claims(c: Config, s: Wakeups.World, p: PollId, t: Timer) returns (u: Wakeups.World)
    requires p !in s.polls && t in s.timers && s.timers[t] <= s.core.now && s.core.status == Pending && !t.Timeout?
    ensures Wakeups.IsRun(c, s, [OfPoll(ClaimTimer(p, t)), OfPoll(ReadStatus(p))])
    ensures u == Wakeups.After(c, s, [OfPoll(ClaimTimer(p, t)), OfPoll(ReadStatus(p))])
    ensures u == s.(timers := s.timers[t := s.core.now + 60_000], polls := s.polls[p := Publishing(t)])
  {
    hide Workflow.Enabled, Workflow.Apply, Wakeups.Enabled, Wakeups.Apply, Wakeups.IsRun, Wakeups.After;
    var claimed := PollApply(c, s, ClaimTimer(p, t));
    StatusDecides(c, claimed, p);
    u := PollApply(c, claimed, ReadStatus(p));
    TwoPollSteps(c, s, ClaimTimer(p, t), claimed, ReadStatus(p), u);
  }

  /** A due timer of a wait or of a deferred resume puts one resume on the stream, with the instance's input or the resume's
    * own, and goes; nothing else changes. */
  lemma ADueTimerResumes(c: Config, s: Wakeups.World, p: PollId, t: Timer) returns (steps: seq<Wakeups.Step>)
    requires p !in s.polls && t in s.timers && s.timers[t] <= s.core.now && s.core.status == Pending && !t.Timeout?
    ensures Wakeups.IsRun(c, s, steps)
    ensures Wakeups.After(c, s, steps) ==
            s.(entries := s.entries[s.next := if t.Deferred? then t.input else s.core.input], timers := s.timers - {t},
               next := s.next + 1)
  {
    var u := Claims(c, s, p, t);
    var v := Resumes(c, u, p);
    RunsOn(c, s, [OfPoll(ClaimTimer(p, t)), OfPoll(ReadStatus(p))], [OfPoll(PublishResume(p)), OfPoll(RemoveTimer(p))]);
    steps := [OfPoll(ClaimTimer(p, t)), OfPoll(ReadStatus(p))] + [OfPoll(PublishResume(p)), OfPoll(RemoveTimer(p))];
    assert s.polls[p := Publishing(t)] - {p} == s.polls;
    assert s.timers[t := s.core.now + 60_000] - {t} == s.timers - {t};
  }

  /** A timeout whose step is unresolved and whose event is waited for: its waiters are gone. */
  lemma TimesOut(c: Config, s: Wakeups.World, p: PollId, i: nat, event: string) returns (u: Wakeups.World)
    requires p in s.polls && s.polls[p] == Checking(Timeout(i, event))
    requires i in s.core.rows && s.core.rows[i].output == Null && exists w :: w in s.waiters && s.waiters[w].event == event
    ensures Wakeups.IsRun(c, s, [OfPoll(CheckStep(p)), OfPoll(DeleteWaiters(p))])
    ensures u == Wakeups.After(c, s, [OfPoll(CheckStep(p)), OfPoll(DeleteWaiters(p))])
    ensures u == s.(waiters := map w | w in s.waiters && s.waiters[w].event != event :: s.waiters[w],
                    polls := s.polls[p := Selecting(Timeout(i, event))])
  {
    hide Workflow.Enabled, Workflow.Apply, Wakeups.Enabled, Wakeups.Apply, Wakeups.IsRun, Wakeups.After;
    StaleTimeoutsAreDropped(c, s, p);
    var checked := PollApply(c, s, CheckStep(p));
    TimeoutTakesItsWaiters(c, checked, p);
    u := PollApply(c, checked, DeleteWaiters(p));
    TwoPollSteps(c, s, CheckStep(p), checked, DeleteWaiters(p), u);
  }

  lemma Records(c: Config, s: Wakeups.World, p: PollId, i: nat, event: string, f: RunId) returns (u: Wakeups.World)
    requires p in s.polls && s.polls[p] == Selecting(Timeout(i, event)) && f !in s.core.fillers
    requires i in s.core.rows && s.core.rows[i].output == Null && s.core.rows[i].action == WaitForEvent
    ensures Wakeups.IsRun(c, s, [OfPoll(SelectStep(p, f)), OfPoll(RecordTimeout(p))])
    ensures u == Wakeups.After(c, s, [OfPoll(SelectStep(p, f)), OfPoll(RecordTimeout(p))])
    ensures u == s.(core := s.core.(rows := s.core.rows[i := s.core.rows[i].(output := TimedOut)]),
                    polls := s.polls[p := Publishing(Timeout(i, event))])
  {
    hide Workflow.Enabled, Workflow.Apply, Wakeups.Enabled, Wakeups.Apply, Wakeups.IsRun, Wakeups.After;
    Finding(c, s.core, f, i);
    Filling(c, Workflow.Apply(c, s.core, FindUnfilled(f, i)), f, i, TimedOut);
    var selected := PollApply(c, s, SelectStep(p, f));
    u := PollApply(c, selected, RecordTimeout(p));
    assert u.core.fillers == s.core.fillers;
    TwoPollSteps(c, s, SelectStep(p, f), selected, RecordTimeout(p), u);
  }

  /** A timeout that is not stale resolves its own step as timed out, takes the waiters of its event, puts one resume on the
    * stream and goes; no other step, waiter or timer is touched. */
  lemma ATimeoutResumes(c: Config, s: Wakeups.World, p: PollId, i: nat, event: string, f: RunId) returns (steps: seq<Wakeups.Step>)
    requires p in s.polls && s.polls[p] == Checking(Timeout(i, event)) && f !in s.core.fillers
    requires i in s.core.rows && s.core.rows[i].output == Null && s.core.rows[i].action == WaitForEvent
    requires exists w :: w in s.waiters && s.waiters[w].event == event
    ensures Wakeups.IsRun(c, s, steps)
    ensures Wakeups.After(c, s, steps) ==
            s.(core := s.core.(rows := s.core.rows[i := s.core.rows[i].(output := TimedOut)]),
               waiters := map w | w in s.waiters && s.waiters[w].event != event :: s.waiters[w],
               entries := s.entries[s.next := s.core.input], timers := s.timers - {Timeout(i, event)}, polls := s.polls - {p},
               next := s.next + 1)
  {
    hide PollApply, PollEnabled;
    var taken := TimesOut(c, s, p, i, event);
    var recorded := Records(c, taken, p, i, event, f);
    var resumed := Resumes(c, recorded, p);
    var first := [OfPoll(CheckStep(p)), OfPoll(DeleteWaiters(p))];
    var second := [OfPoll(SelectStep(p, f)), OfPoll(RecordTimeout(p))];
    var third := [OfPoll(PublishResume(p)), OfPoll(RemoveTimer(p))];
    hide Wakeups.IsRun, Wakeups.After;
    RunsOn(c, taken, second, third);
    RunsOn(c, s, first, second + third);
    steps := first + (second + third);
    assert recorded.polls - {p} == s.polls - {p};
  }

  // ---------------------------------------------------------------- an event

  /** An event finds a waiter up to, and not at, its expiry. */
  lemma OnlyLiveWaitersMatch(c: Config, s: Wakeups.World, m: MatchId, w: WaiterId)
    requires m !in s.matches && w in s.waiters
    ensures MatchEnabled(c, s, MatchEvent(m, w)) <==> s.core.now < s.waiters[w].expiresAt
  {
  }

  /** The step that the event resolves is a wait for an event without output; there is none to resolve only if no step is. */
  lemma EventResolvesAWait(c: Config, s: Wakeups.World, m: MatchId, f: RunId, index: Option<nat>)
    requires m in s.matches && s.matches[m].Matched? && f !in s.core.fillers
    ensures index.Some? ==>
              (MatchEnabled(c, s, SelectWaiting(m, f, index)) <==>
               index.value in s.core.rows && s.core.rows[index.value].action == WaitForEvent
               && s.core.rows[index.value].output == Null)
    ensures index.None? ==>
              (MatchEnabled(c, s, SelectWaiting(m, f, index)) <==>
               !exists i :: i in s.core.rows && s.core.rows[i].action == WaitForEvent && s.core.rows[i].output == Null)
  {
  }

  lemma Matches(c: Config, s: Wakeups.World, m: MatchId, w: WaiterId, f: RunId, i: nat) returns (u: Wakeups.World)
    requires m !in s.matches && w in s.waiters && s.core.now < s.waiters[w].expiresAt && f !in s.core.fillers
    requires i in s.core.rows && s.core.rows[i].action == WaitForEvent && s.core.rows[i].output == Null
    ensures Wakeups.IsRun(c, s, [OfMatch(MatchEvent(m, w)), OfMatch(SelectWaiting(m, f, Some(i)))])
    ensures u == Wakeups.After(c, s, [OfMatch(MatchEvent(m, w)), OfMatch(SelectWaiting(m, f, Some(i)))])
    ensures u == s.(core := s.core.(fillers := s.core.fillers[f := Filler(i)]), matches := s.matches[m := Selected(w, f)])
  {
    hide Workflow.Enabled, Workflow.Apply, Wakeups.Enabled, Wakeups.Apply, Wakeups.IsRun, Wakeups.After;
    Finding(c, s.core, f, i);
    var matched := MatchApply(c, s, MatchEvent(m, w));
    u := MatchApply(c, matched, SelectWaiting(m, f, Some(i)));
    TwoMatchSteps(c, s, MatchEvent(m, w), matched, SelectWaiting(m, f, Some(i)), u);
  }

  lemma Fills(c: Config, s: Wakeups.World, m: MatchId, w: WaiterId, f: RunId, i: nat, data: string) returns (u: Wakeups.World)
    requires m in s.matches && s.matches[m] == Selected(w, f) && f in s.core.fillers && s.core.fillers[f] == Filler(i)
    requires i in s.core.rows
    ensures Wakeups.IsRun(c, s, [OfMatch(RecordEvent(m, data)), OfMatch(FlushResume(m))])
    ensures u == Wakeups.After(c, s, [OfMatch(RecordEvent(m, data)), OfMatch(FlushResume(m))])
    ensures u == s.(core := s.core.(rows := s.core.rows[i := s.core.rows[i].(output := Received(data))],
                                    fillers := s.core.fillers - {f}),
                    entries := s.entries[s.next := s.core.input], matches := s.matches[m := Pushed(w, true, false)],
                    next := s.next + 1)
  {
    hide Workflow.Enabled, Workflow.Apply, Wakeups.Enabled, Wakeups.Apply, Wakeups.IsRun, Wakeups.After;
    Filling(c, s.core, f, i, Received(data));
    var recorded := MatchApply(c, s, RecordEvent(m, data));
    u := MatchApply(c, recorded, FlushResume(m));
    TwoMatchSteps(c, s, RecordEvent(m, data), recorded, FlushResume(m), u);
  }

  lemma Forgets(c: Config, s: Wakeups.World, m: MatchId, w: WaiterId) returns (u: Wakeups.World)
    requires m in s.matches && s.matches[m] == Pushed(w, true, false)
    ensures Wakeups.IsRun(c, s, [OfMatch(DeleteWaiter(m)), OfMatch(End(m))])
    ensures u == Wakeups.After(c, s, [OfMatch(DeleteWaiter(m)), OfMatch(End(m))])
    ensures u == s.(waiters := s.waiters - {w}, matches := s.matches - {m})
    ensures !MatchEnabled(c, s, FlushResume(m))
  {
    hide Workflow.Enabled, Workflow.Apply, Wakeups.Enabled, Wakeups.Apply, Wakeups.IsRun, Wakeups.After;
    var deleted := MatchApply(c, s, DeleteWaiter(m));
    u := MatchApply(c, deleted, End(m));
    TwoMatchSteps(c, s, DeleteWaiter(m), deleted, End(m), u);
  }

  /** An event that matches a live waiter resolves the waiting step with its data, puts one resume on the stream and takes the
    * waiter; no other step or waiter and no timer is touched. */
  lemma AnEventResumes(c: Config, s: Wakeups.World, m: MatchId, w: WaiterId, f: RunId, i: nat, data: string)
    returns (steps: seq<Wakeups.Step>)
    requires m !in s.matches && w in s.waiters && s.core.now < s.waiters[w].expiresAt && f !in s.core.fillers
    requires i in s.core.rows && s.core.rows[i].action == WaitForEvent && s.core.rows[i].output == Null
    ensures Wakeups.IsRun(c, s, steps)
    ensures Wakeups.After(c, s, steps) ==
            s.(core := s.core.(rows := s.core.rows[i := s.core.rows[i].(output := Received(data))]),
               entries := s.entries[s.next := s.core.input], waiters := s.waiters - {w}, next := s.next + 1)
  {
    hide MatchApply, MatchEnabled;
    var matched := Matches(c, s, m, w, f, i);
    var filled := Fills(c, matched, m, w, f, i, data);
    var ended := Forgets(c, filled, m, w);
    var first := [OfMatch(MatchEvent(m, w)), OfMatch(SelectWaiting(m, f, Some(i)))];
    var second := [OfMatch(RecordEvent(m, data)), OfMatch(FlushResume(m))];
    var third := [OfMatch(DeleteWaiter(m)), OfMatch(End(m))];
    hide Wakeups.IsRun, Wakeups.After;
    RunsOn(c, matched, second, third);
    RunsOn(c, s, first, second + third);
    steps := first + (second + third);
    assert s.core.fillers[f := Filler(i)] - {f} == s.core.fillers;
    assert filled.matches - {m} == s.matches;
  }

  /** If no step waits any more, the event still puts a resume on the stream and takes the waiter. */
  lemma AnEventWithoutAStepResumes(c: Config, s: Wakeups.World, m: MatchId, w: WaiterId, f: RunId)
    returns (steps: seq<Wakeups.Step>)
    requires m in s.matches && s.matches[m] == Matched(w) && f !in s.core.fillers
    requires !exists i :: i in s.core.rows && s.core.rows[i].action == WaitForEvent && s.core.rows[i].output == Null
    ensures Wakeups.IsRun(c, s, steps)
    ensures Wakeups.After(c, s, steps) ==
            s.(entries := s.entries[s.next := s.core.input], waiters := s.waiters - {w}, matches := s.matches - {m},
               next := s.next + 1)
  {
    EventResolvesAWait(c, s, m, f, None);
    hide Workflow.Enabled, Workflow.Apply;
    var selected := MatchApply(c, s, SelectWaiting(m, f, None));
    var flushed := MatchApply(c, selected, FlushResume(m));
    TwoMatchSteps(c, s, SelectWaiting(m, f, None), selected, FlushResume(m), flushed);
    var ended := Forgets(c, flushed, m, w);
    hide MatchApply, MatchEnabled, Wakeups.IsRun, Wakeups.After;
    RunsOn(c, s, [OfMatch(SelectWaiting(m, f, None)), OfMatch(FlushResume(m))], [OfMatch(DeleteWaiter(m)), OfMatch(End(m))]);
    steps := [OfMatch(SelectWaiting(m, f, None)), OfMatch(FlushResume(m))] + [OfMatch(DeleteWaiter(m)), OfMatch(End(m))];
    assert flushed.matches - {m} == s.matches - {m};
  }

  // ---------------------------------------------------------------- a resume that comes too early

  lemma ReadingLeaves(c: Config, s: Wakeups.World, r: RunId)
    requires Workflow.Enabled(c, s.core, ReadInstance(r)) && r in s.deliveries
    ensures Beside(c, s, ReadInstance(r)) ==
            if s.core.status == Running then s.(deferring := s.deferring[r := s.deliveries[r]])
            else if s.core.status in {Completed, Failed, Canceled} then s.(handled := s.handled + {s.deliveries[r].entry})
            else s
  {
    hide Workflow.Enabled;
  }

  lemma Refused(c: Config, s: Wakeups.World, r: RunId, locked: bool) returns (u: Wakeups.World)
    requires r in s.core.runs && s.core.runs[r].Triggered? && r in s.deliveries
    requires locked || s.core.status == Running
    ensures var first := if locked then LockRefused(r) else OfRun(ReadInstance(r));
      Wakeups.Enabled(c, s, first) && u == Wakeups.Apply(c, s, first)
    ensures u == s.(core := s.core.(runs := s.core.runs - {r}), deferring := s.deferring[r := s.deliveries[r]])
  {
    if locked {
      u := Wakeups.Apply(c, s, LockRefused(r));
    } else {
      ReadingLeaves(c, s, r);
      u := Wakeups.Apply(c, s, OfRun(ReadInstance(r)));
    }
  }

  /** A resume that finds its instance running, or its lock taken, is put off by two seconds with its own input, and only then
    * is its entry done with. */
  lemma EarlyResumesAreDeferred(c: Config, s: Wakeups.World, r: RunId, locked: bool) returns (u: Wakeups.World)
    requires r in s.core.runs && s.core.runs[r].Triggered? && r in s.deliveries
    requires locked || s.core.status == Running
    ensures var first := if locked then LockRefused(r) else OfRun(ReadInstance(r));
      && Wakeups.IsRun(c, s, [first, Defer(r)])
      && u == Wakeups.After(c, s, [first, Defer(r)])
      && Wakeups.Apply(c, s, first).handled == s.handled
    ensures u == s.(core := s.core.(runs := s.core.runs - {r}), deferring := s.deferring - {r},
                    timers := s.timers[Deferred(s.deliveries[r].input) := s.core.now + 2_000],
                    handled := s.handled + {s.deliveries[r].entry})
  {
    var refused := Refused(c, s, r, locked);
    hide Workflow.Enabled, Workflow.Apply, Beside;
    u := Wakeups.Apply(c, refused, Defer(r));
    assert refused.deferring - {r} == s.deferring - {r};
    TwoSteps(c, s, if locked then LockRefused(r) else OfRun(ReadInstance(r)), refused, Defer(r), u);
  }

  lemma ClaimingLeaves(c: Config, s: Wakeups.World, r: RunId)
    requires Workflow.Enabled(c, s.core, Workflow.Claim(r)) && r in s.deliveries
    ensures Beside(c, s, Workflow.Claim(r)) ==
            if s.core.status == Pending then s else s.(handled := s.handled + {s.deliveries[r].entry})
  {
    hide Workflow.Enabled;
  }

  lemma EndingLeaves(c: Config, s: Wakeups.World, r: RunId)
    requires Workflow.Enabled(c, s.core, Workflow.Finish(r)) && r in s.deliveries
    ensures Beside(c, s, Workflow.Finish(r)) == s.(handled := s.handled + {s.deliveries[r].entry})
  {
    hide Workflow.Enabled;
  }

  lemma ArmingLeaves(c: Config, s: Wakeups.World, r: RunId)
    requires Workflow.Enabled(c, s.core, SetTimer(r)) && r in s.deliveries
    ensures Beside(c, s, SetTimer(r)) == s.(timers := Beside(c, s, SetTimer(r)).timers)
  {
    hide Known, TimerOf, DelayOf;
  }

  lemma WaitingLeaves(c: Config, s: Wakeups.World, r: RunId)
    requires Workflow.Enabled(c, s.core, InsertWaiter(r)) && r in s.deliveries
    ensures Beside(c, s, InsertWaiter(r)) == s.(waiters := Beside(c, s, InsertWaiter(r)).waiters, next := s.next + 1)
    ensures Beside(c, s, InsertWaiter(r)).waiters - {s.next} == s.waiters - {s.next}
  {
    hide Known, EventOf;
  }

  /** Where a run's step leaves what is around the engine: its entry is done with once the run has ended, has lost the claim,
    * or has found the instance over; a run that finds it running owes a timer; and nothing else is touched but the timer that
    * a step sets and the waiter it inserts. */
  lemma RunsLeaveBehind(c: Config, s: Wakeups.World, x: Workflow.Step)
    requires TakenByRun(x) && Workflow.Enabled(c, s.core, x) && x.r in s.deliveries
    ensures var u := Beside(c, s, x);
      var done := x.Finish? || (x.Claim? && s.core.status != Pending) ||
                  (x.ReadInstance? && s.core.status in {Completed, Failed, Canceled});
      && u == s.(handled := u.handled, deferring := u.deferring, timers := u.timers, waiters := u.waiters, next := u.next)
      && u.handled == (if done then s.handled + {s.deliveries[x.r].entry} else s.handled)
      && u.deferring == (if x.ReadInstance? && s.core.status == Running then s.deferring[x.r := s.deliveries[x.r]] else s.deferring)
      && (!x.SetTimer? ==> u.timers == s.timers)
      && (if x.InsertWaiter? then u.waiters - {s.next} == s.waiters - {s.next} && u.next == s.next + 1
          else u.waiters == s.waiters && u.next == s.next)
  {
    hide Known, Workflow.Enabled;
    match x
    case ReadInstance(r) => ReadingLeaves(c, s, r); hide Beside;
    case Claim(r) => ClaimingLeaves(c, s, r); hide Beside;
    case Finish(r) => EndingLeaves(c, s, r); hide Beside;
    case SetTimer(r) => ArmingLeaves(c, s, r); hide Beside;
    case InsertWaiter(r) => WaitingLeaves(c, s, r); hide Beside;
    case _ =>
  }

  lemma RunsSetTheirTimer(c: Config, s: Wakeups.World, r: RunId)
    requires Wakeups.Enabled(c, s, OfRun(SetTimer(r)))
    ensures var u, i := Wakeups.Apply(c, s, OfRun(SetTimer(r))), s.core.runs[r].index;
      match Known(c.definition)[i]
      case WaitStep(ms) => ms.Some? && u.timers == s.timers[Sleep := s.core.now + ms.value]
      case WaitForEventStep(event, ms) => ms.Some? && u.timers == s.timers[Timeout(i, event) := s.core.now + ms.value]
      case _ => false
  {
    hide Known;
  }

  lemma RunsInsertTheirWaiter(c: Config, s: Wakeups.World, r: RunId)
    requires Wakeups.Enabled(c, s, OfRun(InsertWaiter(r))) && s.core.runs[r].index < |Known(c.definition)|
    requires Known(c.definition)[s.core.runs[r].index].WaitForEventStep?
    ensures var u, run := Wakeups.Apply(c, s, OfRun(InsertWaiter(r))), s.core.runs[r];
      && u.next == s.next + 1
      && u.waiters == s.waiters[s.next := Waiter(EventOf(Known(c.definition)[run.index]), run.resumeAt)]
      && WaitForEventStep(u.waiters[s.next].event, DelayOf(Known(c.definition)[run.index])) == Known(c.definition)[run.index]
  {
    hide Known;
  }

  // ---------------------------------------------------------------- what leaves, and what a cancel clears

  lemma SelectingTakesNothing(c: Config, s: Wakeups.World, p: PollId, f: RunId)
    requires PollEnabled(c, s, SelectStep(p, f))
    ensures PollApply(c, s, SelectStep(p, f)).entries == s.entries && PollApply(c, s, SelectStep(p, f)).waiters == s.waiters
  {
    hide Workflow.Apply, Workflow.Enabled;
  }

  lemma RecordingTakesNothing(c: Config, s: Wakeups.World, p: PollId)
    requires PollEnabled(c, s, RecordTimeout(p))
    ensures PollApply(c, s, RecordTimeout(p)).entries == s.entries && PollApply(c, s, RecordTimeout(p)).waiters == s.waiters
  {
    hide Workflow.Apply, Workflow.Enabled;
  }

  lemma PublishingAdds(c: Config, s: Wakeups.World, p: PollId)
    requires PollEnabled(c, s, PublishResume(p))
    ensures s.entries.Keys <= PollApply(c, s, PublishResume(p)).entries.Keys
    ensures PollApply(c, s, PublishResume(p)).waiters == s.waiters
  {
    hide Workflow.Apply, Workflow.Enabled;
  }

  lemma PollsTake(c: Config, s: Wakeups.World, x: PollStep, w: WaiterId)
    requires PollEnabled(c, s, x)
    ensures var u := PollApply(c, s, x);
      && s.entries.Keys <= u.entries.Keys
      && (w in s.waiters && w !in u.waiters ==> x.DeleteWaiters? && s.polls[x.p].timer.event == s.waiters[w].event)
  {
    hide Workflow.Apply, Workflow.Enabled, Unresolved, ResumeInput, WaitingFor;
    match x
    case ReadStatus(p) => StatusDecides(c, s, p); hide PollApply;
    case CheckStep(p) => StaleTimeoutsAreDropped(c, s, p); hide PollApply;
    case DeleteWaiters(p) => TimeoutTakesItsWaiters(c, s, p); hide PollApply;
    case SelectStep(p, f) => SelectingTakesNothing(c, s, p, f); hide PollApply;
    case RecordTimeout(p) => RecordingTakesNothing(c, s, p); hide PollApply;
    case PublishResume(p) => PublishingAdds(c, s, p); hide PollApply;
    case _ =>
  }

  lemma MatchesTake(c: Config, s: Wakeups.World, x: MatchStep, w: WaiterId)
    requires MatchEnabled(c, s, x) && w < s.next
    ensures var u := MatchApply(c, s, x);
      && s.entries.Keys <= u.entries.Keys
      && (w in s.waiters && w !in u.waiters ==> x.DeleteWaiter? && s.matches[x.m].waiter == w)
  {
    hide Workflow.Apply, Workflow.Enabled;
  }

  /** An entry leaves its stream only once a run that it started is done with it, or after the last retry; a waiter only by
    * its own event, its timeout, or a cancel. */
  lemma OnlyThusTheyLeave(c: Config, s: Wakeups.World, step: Wakeups.Step, e: EntryId, w: WaiterId)
    requires Wakeups.Enabled(c, s, step) && e < s.next && w < s.next
    ensures var u := Wakeups.Apply(c, s, step);
      && (e in s.entries && e !in u.entries ==> step == DeadLetter(e) || (step == Wakeups.Ack(e) && e in s.handled))
      && (w in s.waiters && w !in u.waiters ==>
            || step == Wakeups.Cancel
            || (step.OfMatch? && step.matching.DeleteWaiter? && s.matches[step.matching.m].waiter == w)
            || (step.OfPoll? && step.poll.DeleteWaiters? && s.polls[step.poll.p].timer.event == s.waiters[w].event))
  {
    hide Workflow.Apply, Workflow.Enabled, Known, PollApply, MatchApply, PollEnabled, MatchEnabled, Beside;
    match step
    case OfRun(x) =>
      RunsLeaveBehind(c, s, x);
      assert w in s.waiters ==> w in s.waiters - {s.next};
    case OfPoll(x) => PollsTake(c, s, x, w);
    case OfMatch(x) => MatchesTake(c, s, x, w);
    case _ =>
  }

  lemma CancelClears(c: Config, s: Wakeups.World)
    ensures Wakeups.Enabled(c, s, Wakeups.Cancel) <==> s.core.status == Pending || s.core.status == Running
    ensures Wakeups.Enabled(c, s, Wakeups.Cancel) ==>
              Wakeups.Apply(c, s, Wakeups.Cancel) == s.(core := s.core.(status := Canceled), waiters := map[])
  {
  }
}
