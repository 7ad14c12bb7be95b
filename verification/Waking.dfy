/** Exactly when a sleeping workflow instance can wake without help from outside. */
module Waking {
  import opened Counting
  import opened Workflow
  import opened Wakeups

  predicate FromOutside(step: Wakeups.Step) {
    step.Trigger? || (step.OfMatch? && step.matching.MatchEvent?)
  }

  /** No new trigger, and no event that matches a waiter. */
  predicate Unaided(steps: seq<Wakeups.Step>) {
    forall i :: 0 <= i < |steps| ==> !FromOutside(steps[i])
  }

  predicate AboutToClaim(s: Wakeups.World, r: RunId) {
    s.core.status == Pending && r in s.core.runs && s.core.runs[r].SawPending? && r in s.deliveries
  }

  ghost predicate ClaimsAfter(c: Config, s: Wakeups.World, steps: seq<Wakeups.Step>, r: RunId) {
    Wakeups.IsRun(c, s, steps) && Unaided(steps) && AboutToClaim(Wakeups.After(c, s, steps), r)
  }

  /** Left to itself, the system can get a run to claim the instance. */
  ghost predicate CanWake(c: Config, s: Wakeups.World) {
    exists steps, r :: ClaimsAfter(c, s, steps, r)
  }

  /** Nothing is at work on the instance: whatever was has finished or died. */
  predicate Idle(s: Wakeups.World) {
    s.core.runs == map[] && s.deferring == map[] && s.polls == map[] && s.matches == map[]
  }

  /** A timeout only wakes the instance if its step is unresolved and a waiter for its event is still there. */
  predicate Wakes(s: Wakeups.World, t: Timer) {
    t.Timeout? ==> Unresolved(s.core.rows, t.index) && WaitingFor(s, t.event) != {}
  }

  ghost predicate HasWakeUp(s: Wakeups.World) {
    s.entries != map[] || exists t :: t in s.timers && Wakes(s, t)
  }

  // ---------------------------------------------------------------- without a wake-up

  predicate Spent(s: Wakeups.World, p: Poll) {
    match p
    case Claimed(t) => !Wakes(s, t)
    case Checking(t) => !Wakes(s, t)
    case Deleting(t) => t.Timeout? && WaitingFor(s, t.event) == {}
    case Removing(_) => true
    case _ => false
  }

  ghost predicate Stranded(s: Wakeups.World) {
    && s.core.runs == map[] && s.deferring == map[] && s.matches == map[] && s.entries == map[]
    && (forall t :: t in s.timers ==> !Wakes(s, t))
    && (forall p :: p in s.polls ==> Spent(s, s.polls[p]))
  }

  /** Every member a poll can still claim is spent, and so is the poll; it deletes no waiter. */
  lemma PollStaysSpent(c: Config, s: Wakeups.World, x: PollStep)
    requires Stranded(s) && PollEnabled(c, s, x)
    ensures var s' := PollApply(c, s, x);
      && s'.core == s.core && s'.waiters == s.waiters && s'.entries == s.entries && s'.timers.Keys <= s.timers.Keys
      && s'.deferring == s.deferring && s'.matches == s.matches
      && (forall p :: p in s'.polls && p != x.p ==> p in s.polls && s'.polls[p] == s.polls[p])
      && (x.p in s'.polls ==> Spent(s, s'.polls[x.p]))
  {
    assert x.p in s.polls ==> Spent(s, s.polls[x.p]);
  }

  lemma PollStaysStranded(c: Config, s: Wakeups.World, x: PollStep)
    requires Stranded(s) && PollEnabled(c, s, x)
    ensures Stranded(PollApply(c, s, x))
  {
    PollStaysSpent(c, s, x);
    SameWakes(s, PollApply(c, s, x));
    SameWaiting(s, PollApply(c, s, x));
    hide PollApply, PollEnabled, Wakes, WaitingFor;
  }

  lemma SameWaiting(s: Wakeups.World, s': Wakeups.World)
    requires s'.waiters == s.waiters
    ensures forall event :: WaitingFor(s', event) == WaitingFor(s, event)
  {
  }

  lemma SameWakes(s: Wakeups.World, s': Wakeups.World)
    ensures s'.core == s.core && s'.waiters == s.waiters ==> forall t :: Wakes(s', t) == Wakes(s, t)
  {
  }

  lemma StepStaysStranded(c: Config, s: Wakeups.World, step: Wakeups.Step)
    requires Stranded(s) && Wakeups.Enabled(c, s, step) && !FromOutside(step)
    ensures Stranded(Wakeups.Apply(c, s, step))
  {
    match step
    case OfPoll(x) => PollStaysStranded(c, s, x);
    case Tick(_) =>
    case Reap =>
    case Cancel => NobodyWaits(s, Wakeups.Apply(c, s, step));
    case _ =>
  }

  lemma NobodyWaits(s: Wakeups.World, s': Wakeups.World)
    requires s'.waiters == map[]
    ensures forall event :: WaitingFor(s', event) == {}
  {
  }

  lemma {:induction false} StrandedStays(c: Config, s: Wakeups.World, steps: seq<Wakeups.Step>)
    requires Stranded(s) && Wakeups.IsRun(c, s, steps) && Unaided(steps)
    ensures Stranded(Wakeups.After(c, s, steps))
    decreases |steps|
  {
    if steps != [] {
      hide Stranded, Wakeups.Apply, Wakeups.Enabled;
      assert forall i :: 0 <= i < |steps[1..]| ==> steps[1..][i] == steps[i + 1];
      StepStaysStranded(c, s, steps[0]);
      StrandedStays(c, Wakeups.Apply(c, s, steps[0]), steps[1..]);
    }
  }

  // ---------------------------------------------------------------- with one

  lemma ClaimsNow(c: Config, s: Wakeups.World, r: RunId)
    requires AboutToClaim(s, r)
    ensures CanWake(c, s)
  {
    assert ClaimsAfter(c, s, [], r);
  }

  lemma StepThenWakes(c: Config, s: Wakeups.World, step: Wakeups.Step, t: Wakeups.World)
    requires Wakeups.Enabled(c, s, step) && t == Wakeups.Apply(c, s, step) && !FromOutside(step) && CanWake(c, t)
    ensures CanWake(c, s)
  {
    var steps, r :| ClaimsAfter(c, t, steps, r);
    hide Wakeups.Enabled, Wakeups.Apply, AboutToClaim;
    assert ([step] + steps)[1..] == steps;
    assert ClaimsAfter(c, s, [step] + steps, r);
  }

  /** Any unacked entry: it is delivered once more, and its run finds the instance pending. */
  lemma EntryWakes(c: Config, s: Wakeups.World, e: EntryId)
    requires e in s.entries && s.core.runs == map[] && s.deferring == map[] && s.core.status == Pending
    ensures CanWake(c, s)
  {
    var t := Wakeups.Apply(c, s, Wakeups.Deliver(0, e));
    var u := Wakeups.Apply(c, t, OfRun(ReadInstance(0)));
    ClaimsNow(c, u, 0);
    hide CanWake;
    StepThenWakes(c, t, OfRun(ReadInstance(0)), u);
    StepThenWakes(c, s, Wakeups.Deliver(0, e), t);
  }

  lemma PublishWakes(c: Config, s: Wakeups.World)
    requires s.core.runs == map[] && s.deferring == map[] && s.core.status == Pending
    requires 0 in s.polls && s.polls[0].Publishing?
    ensures CanWake(c, s)
  {
    var t := PollApply(c, s, PublishResume(0));
    EntryWakes(c, t, s.next);
    hide CanWake;
    StepThenWakes(c, s, OfPoll(PublishResume(0)), t);
  }

  predicate AtRest(s: Wakeups.World) {
    s.core.runs == map[] && s.deferring == map[] && s.core.status == Pending
  }

  lemma RecordingWakes(c: Config, s: Wakeups.World)
    requires AtRest(s) && 0 in s.polls && s.polls[0].Recording? && s.polls[0].filler in s.core.fillers
    ensures CanWake(c, s)
  {
    var t := PollApply(c, s, RecordTimeout(0));
    PublishWakes(c, t);
    hide CanWake;
    StepThenWakes(c, s, OfPoll(RecordTimeout(0)), t);
  }

  lemma SelectingWakes(c: Config, s: Wakeups.World)
    requires AtRest(s) && 0 in s.polls && s.polls[0].Selecting? && s.polls[0].timer.Timeout?
    ensures CanWake(c, s)
  {
    var f := Unused(s.core.fillers.Keys);
    var t := PollApply(c, s, SelectStep(0, f));
    if t.polls[0].Recording? {
      RecordingWakes(c, t);
    } else {
      PublishWakes(c, t);
    }
    hide CanWake;
    StepThenWakes(c, s, OfPoll(SelectStep(0, f)), t);
  }

  lemma DeletingWakes(c: Config, s: Wakeups.World)
    requires AtRest(s) && 0 in s.polls && s.polls[0].Deleting? && s.polls[0].timer.Timeout?
    requires WaitingFor(s, s.polls[0].timer.event) != {}
    ensures CanWake(c, s)
  {
    var t := PollApply(c, s, DeleteWaiters(0));
    SelectingWakes(c, t);
    hide CanWake;
    StepThenWakes(c, s, OfPoll(DeleteWaiters(0)), t);
  }

  /** A timeout with an unresolved step and a waiter takes the waiter and records itself. */
  lemma CheckingWakes(c: Config, s: Wakeups.World)
    requires AtRest(s) && 0 in s.polls && s.polls[0].Checking? && s.polls[0].timer.Timeout? && Wakes(s, s.polls[0].timer)
    ensures CanWake(c, s)
  {
    var t := PollApply(c, s, CheckStep(0));
    assert WaitingFor(t, s.polls[0].timer.event) == WaitingFor(s, s.polls[0].timer.event);
    DeletingWakes(c, t);
    hide CanWake;
    StepThenWakes(c, s, OfPoll(CheckStep(0)), t);
  }

  lemma ClaimedWakes(c: Config, s: Wakeups.World)
    requires AtRest(s) && 0 in s.polls && s.polls[0].Claimed? && Wakes(s, s.polls[0].timer)
    ensures CanWake(c, s)
  {
    var t := PollApply(c, s, ReadStatus(0));
    SameWakes(s, t);
    if t.polls[0].Checking? {
      CheckingWakes(c, t);
    } else {
      PublishWakes(c, t);
    }
    hide CanWake;
    StepThenWakes(c, s, OfPoll(ReadStatus(0)), t);
  }

  lemma DueWakes(c: Config, s: Wakeups.World, t: Timer)
    requires AtRest(s) && s.polls == map[] && t in s.timers && s.timers[t] <= s.core.now && Wakes(s, t)
    ensures CanWake(c, s)
  {
    var u := PollApply(c, s, ClaimTimer(0, t));
    SameWakes(s, u);
    ClaimedWakes(c, u);
    hide CanWake;
    StepThenWakes(c, s, OfPoll(ClaimTimer(0, t)), u);
  }

  lemma TimerWakes(c: Config, s: Wakeups.World, t: Timer)
    requires Idle(s) && s.core.status == Pending && t in s.timers && Wakes(s, t)
    ensures CanWake(c, s)
  {
    var ms := if s.timers[t] > s.core.now then s.timers[t] - s.core.now else 0;
    var due := Wakeups.Apply(c, s, Wakeups.Tick(ms));
    assert WaitingFor(due, if t.Timeout? then t.event else "") == WaitingFor(s, if t.Timeout? then t.event else "");
    DueWakes(c, due, t);
    hide CanWake;
    StepThenWakes(c, s, Wakeups.Tick(ms), due);
  }

  lemma PendingWakes(c: Config, s: Wakeups.World)
    requires Idle(s) && s.core.status == Pending && HasWakeUp(s)
    ensures CanWake(c, s)
  {
    hide CanWake;
    if s.entries != map[] {
      var e :| e in s.entries;
      EntryWakes(c, s, e);
    } else {
      var t :| t in s.timers && Wakes(s, t);
      TimerWakes(c, s, t);
    }
  }

  // ---------------------------------------------------------------- main result

  /** In any state with nothing at work on an instance that has not ended: left to itself, it can be claimed again exactly if
    * its stream holds an unacked entry, or there is a timer of a wait or a deferred resume, or one of a timeout whose step is
    * unresolved and whose event still has a waiter. Without any of these it stays as it is for good. */
  lemma WakesExactlyWhen(c: Config, s: Wakeups.World)
    requires Idle(s) && (s.core.status == Pending || s.core.status == Running)
    ensures CanWake(c, s) <==> HasWakeUp(s)
  {
    if HasWakeUp(s) {
      if s.core.status == Running {
        var t := Wakeups.Apply(c, s, Wakeups.Reap);
        SameWakeUp(s, t);
        PendingWakes(c, t);
        hide CanWake;
        StepThenWakes(c, s, Wakeups.Reap, t);
      } else {
        PendingWakes(c, s);
      }
    } else {
      assert Stranded(s);
      forall steps, r
        ensures !ClaimsAfter(c, s, steps, r)
      {
        if ClaimsAfter(c, s, steps, r) {
          StrandedStays(c, s, steps);
          assert false;
        }
      }
    }
  }

  lemma SameWakeUp(s: Wakeups.World, t: Wakeups.World)
    requires t.entries == s.entries && t.timers == s.timers && t.waiters == s.waiters && t.core.rows == s.core.rows
    ensures HasWakeUp(s) <==> HasWakeUp(t)
  {
  }

  // ---------------------------------------------------------------- how long a timer lasts

  /** A run has set the timer and not yet inserted the row it is for. */
  predicate BeingArmed(c: Config, s: Wakeups.World, r: RunId, t: Timer) {
    && r in s.core.runs && s.core.runs[r].TimerSet? && s.core.runs[r].index < |Known(c.definition)|
    && TimerOf(Known(c.definition)[s.core.runs[r].index], s.core.runs[r].index) == t
  }

  /** The row's own timer is still needed: its wait is not over, or its event has not come. */
  predicate Needed(c: Config, s: Wakeups.World, i: nat, t: Timer) {
    && i in s.core.rows && i < |Known(c.definition)| && TimerOf(Known(c.definition)[i], i) == t
    && if t == Sleep then s.core.rows[i].output.Until? && s.core.rows[i].output.scheduledAt > s.core.now
       else s.core.rows[i].output == Null
  }

  ghost predicate Armed(c: Config, s: Wakeups.World, t: Timer) {
    (exists r :: BeingArmed(c, s, r, t)) || (exists i :: Needed(c, s, i, t))
  }

  ghost predicate TimersSet(c: Config, s: Wakeups.World) {
    forall t :: Armed(c, s, t) ==> t in s.timers
  }

  /** A poll removes a timer that is needed still, or again. */
  ghost predicate RemovesArmed(c: Config, s: Wakeups.World, step: Wakeups.Step) {
    && step.OfPoll? && step.poll.RemoveTimer? && step.poll.p in s.polls && Armed(c, s, s.polls[step.poll.p].timer)
  }

  ghost predicate KeepsTimers(c: Config, s: Wakeups.World, steps: seq<Wakeups.Step>)
    requires Wakeups.IsRun(c, s, steps)
    decreases |steps|
  {
    steps == [] || (!RemovesArmed(c, s, steps[0]) && KeepsTimers(c, Wakeups.Apply(c, s, steps[0]), steps[1..]))
  }

  /** A step of the engine arms nothing but the timer it sets. */
  lemma EngineArms(c: Config, s: Workflow.World, x: Workflow.Step, r: RunId)
    requires Workflow.Enabled(c, s, x) && r in Workflow.Apply(c, s, x).runs && Workflow.Apply(c, s, x).runs[r].TimerSet?
    ensures x == SetTimer(r) || (r in s.runs && s.runs[r] == Workflow.Apply(c, s, x).runs[r])
  {
    hide Known, RequestFor, NewRow;
  }

  lemma EngineNeeds(c: Config, s: Workflow.World, x: Workflow.Step, i: nat)
    requires Workflow.Enabled(c, s, x) && i in Workflow.Apply(c, s, x).rows
    ensures var row := Workflow.Apply(c, s, x).rows[i];
      || (i in s.rows && s.rows[i] == row)
      || (row.output != Null && !row.output.Until?)
      || (x.InsertRow? && x.r in s.runs && s.runs[x.r].TimerSet? && s.runs[x.r].index == i && i < |Known(c.definition)|)
  {
    hide Known, RequestFor, AdvanceRun;
  }

  predicate Removes(s: Wakeups.World, step: Wakeups.Step, t: Timer) {
    step.OfPoll? && step.poll.RemoveTimer? && step.poll.p in s.polls && s.polls[step.poll.p].timer == t
  }

  lemma TimersStay(c: Config, s: Wakeups.World, step: Wakeups.Step, t: Timer)
    requires Wakeups.Enabled(c, s, step) && t in s.timers && !Removes(s, step, t)
    ensures t in Wakeups.Apply(c, s, step).timers
  {
    hide Workflow.Enabled, Workflow.Apply, Beside, PollApply, MatchApply;
    match step
    case OfRun(x) => BesideKeepsTimers(c, s, x);
    case _ =>
  }

  lemma BesideKeepsTimers(c: Config, s: Wakeups.World, x: Workflow.Step)
    requires TakenByRun(x) && Workflow.Enabled(c, s.core, x) && x.r in s.deliveries
    ensures s.timers.Keys <= Beside(c, s, x).timers.Keys
  {
    hide Known;
  }

  lemma SettingSets(c: Config, s: Wakeups.World, r: RunId)
    requires Wakeups.Enabled(c, s, OfRun(SetTimer(r)))
    ensures var s' := Wakeups.Apply(c, s, OfRun(SetTimer(r)));
      forall t :: BeingArmed(c, s', r, t) ==> t in s'.timers
  {
    hide Known;
  }

  lemma OnlyRunsSet(c: Config, s: Wakeups.World, step: Wakeups.Step)
    requires Wakeups.Enabled(c, s, step) && Inside(c, s, step).Some? && Inside(c, s, step).value.SetTimer?
    ensures step == OfRun(Inside(c, s, step).value)
  {
  }

  lemma ArmingSets(c: Config, s: Wakeups.World, step: Wakeups.Step, r: RunId, t: Timer)
    requires Wakeups.Enabled(c, s, step) && BeingArmed(c, Wakeups.Apply(c, s, step), r, t)
    ensures BeingArmed(c, s, r, t) || t in Wakeups.Apply(c, s, step).timers
  {
    StepsInside(c, s, step);
    var x := Inside(c, s, step);
    hide Wakeups.Enabled, Wakeups.Apply, Workflow.Enabled, Workflow.Apply, Known, Inside, TimerOf;
    if x.Some? {
      EngineArms(c, s.core, x.value, r);
      if x.value == SetTimer(r) {
        OnlyRunsSet(c, s, step);
        SettingSets(c, s, r);
      }
    }
  }

  lemma NeedingArms(c: Config, s: Wakeups.World, step: Wakeups.Step, i: nat, t: Timer)
    requires Wakeups.Enabled(c, s, step) && Needed(c, Wakeups.Apply(c, s, step), i, t)
    ensures Armed(c, s, t)
  {
    StepsInside(c, s, step);
    TimeGoesOn(c, s, step);
    var x := Inside(c, s, step);
    hide Wakeups.Enabled, Wakeups.Apply, Workflow.Enabled, Workflow.Apply, Known, Inside, TimerOf;
    if x.Some? {
      EngineNeeds(c, s.core, x.value, i);
      if x.value.InsertRow? && x.value.r in s.core.runs && BeingArmed(c, s, x.value.r, t) {
        assert Armed(c, s, t);
      } else {
        assert Needed(c, s, i, t);
      }
    } else {
      assert Needed(c, s, i, t);
    }
  }

  lemma EngineTimeGoesOn(c: Config, s: Workflow.World, x: Workflow.Step)
    requires Workflow.Enabled(c, s, x)
    ensures s.now <= Workflow.Apply(c, s, x).now
  {
    hide Known, AdvanceRun, RequestFor, NewRow;
  }

  lemma TimeGoesOn(c: Config, s: Wakeups.World, step: Wakeups.Step)
    requires Wakeups.Enabled(c, s, step)
    ensures s.core.now <= Wakeups.Apply(c, s, step).core.now
  {
    StepsInside(c, s, step);
    var x := Inside(c, s, step);
    hide Wakeups.Enabled, Wakeups.Apply, Workflow.Enabled, Workflow.Apply, Inside;
    if x.Some? {
      EngineTimeGoesOn(c, s.core, x.value);
    }
  }

  lemma StepKeepsTimersSet(c: Config, s: Wakeups.World, step: Wakeups.Step)
    requires Wakeups.Enabled(c, s, step) && TimersSet(c, s) && !RemovesArmed(c, s, step)
    ensures TimersSet(c, Wakeups.Apply(c, s, step))
  {
    var s' := Wakeups.Apply(c, s, step);
    hide Wakeups.Enabled, Wakeups.Apply, BeingArmed, Needed;
    forall t | Armed(c, s', t)
      ensures t in s'.timers
    {
      if r :| BeingArmed(c, s', r, t) {
        ArmingSets(c, s, step, r, t);
      } else {
        var i :| Needed(c, s', i, t);
        NeedingArms(c, s, step, i, t);
      }
      if Armed(c, s, t) {
        TimersStay(c, s, step, t);
      }
    }
  }

  lemma {:induction false} TimersStaySet(c: Config, s: Wakeups.World, steps: seq<Wakeups.Step>)
    requires Wakeups.IsRun(c, s, steps) && TimersSet(c, s) && KeepsTimers(c, s, steps)
    ensures TimersSet(c, Wakeups.After(c, s, steps))
    decreases |steps|
  {
    if steps != [] {
      hide Wakeups.Enabled, Wakeups.Apply, TimersSet, RemovesArmed;
      StepKeepsTimersSet(c, s, steps[0]);
      TimersStaySet(c, Wakeups.Apply(c, s, steps[0]), steps[1..]);
    }
  }

  /** Over every run in which no poll removes a timer that is needed, every wait that is not over and every wait for an event
    * that is unresolved has its timer; and an instance asleep in a wait can be claimed again, whatever has died. */
  lemma TimersLast(c: Config, steps: seq<Wakeups.Step>, i: nat, t: Timer)
    requires Wakeups.IsRun(c, Wakeups.Init(), steps) && KeepsTimers(c, Wakeups.Init(), steps)
    requires Needed(c, Wakeups.After(c, Wakeups.Init(), steps), i, t)
    ensures var s := Wakeups.After(c, Wakeups.Init(), steps);
      && t in s.timers
      && (t == Sleep && Idle(s) && (s.core.status == Pending || s.core.status == Running) ==> CanWake(c, s))
  {
    TimersStaySet(c, Wakeups.Init(), steps);
    var s := Wakeups.After(c, Wakeups.Init(), steps);
    assert Armed(c, s, t);
    if t == Sleep && Idle(s) && (s.core.status == Pending || s.core.status == Running) {
      assert Wakes(s, Sleep);
      WakesExactlyWhen(c, s);
    }
  }
}
