/** What can wake a workflow instance that has gone to sleep: the entries of its stream, its timers and its waiters
  * (src/services/workflow/main.ts, src/services/workflow/timers.ts, src/services/events/main.ts), around the engine of
  * Workflow, whose steps this machine takes.
  *
  * Runs, timer polls and event matches are cut at their awaits and may die between any two. The instance lock is not relied
  * on: it may refuse a run at any time, and need not. */
module Wakeups {
  import opened StepNotify
  import opened Workflow
  import opened WorkflowSafety
  import opened Wrappers

  type EntryId = nat
  type WaiterId = nat
  type PollId = nat
  type MatchId = nat

  const VISIBILITY_MS := 60_000
  const RESUME_RETRY_MS := 2_000

  /** A member of the timer set. All waits of an instance share one. */
  datatype Timer = Sleep | Deferred(input: Input) | Timeout(index: nat, event: string)

  datatype Waiter = Waiter(event: string, expiresAt: nat)

  /** The entry a run was started from. */
  datatype Delivery = Delivery(entry: EntryId, input: Input)

  /** A timer poll with one member between two of its commands. */
  datatype Poll =
    | Claimed(timer: Timer)
    | Checking(timer: Timer)
    | Deleting(timer: Timer)
    | Selecting(timer: Timer)
    | Recording(timer: Timer, filler: RunId)
    | Publishing(timer: Timer)
    | Removing(timer: Timer)

  /** An event worker with one waiter that matched. Its publish is buffered, so it may land before or after the delete. */
  datatype Match =
    | Matched(waiter: WaiterId)
    | Selected(waiter: WaiterId, filler: RunId)
    | Pushed(waiter: WaiterId, published: bool, deleted: bool)

  /** `entries` are the unacked entries of the workflow stream for this instance, `handled` those whose run has returned;
    * `deferring` are runs that were refused and still owe the resume a timer. */
  datatype World = World(
    core: Workflow.World,
    entries: map<EntryId, Input>,
    handled: set<EntryId>,
    deliveries: map<RunId, Delivery>,
    deferring: map<RunId, Delivery>,
    timers: map<Timer, nat>,
    waiters: map<WaiterId, Waiter>,
    polls: map<PollId, Poll>,
    matches: map<MatchId, Match>,
    next: nat)

  datatype Step =
    | Trigger(input: Input)                     // from outside
    | Tick(ms: nat)
    | Deliver(r: RunId, e: EntryId)
    | LockRefused(r: RunId)
    | Defer(r: RunId)
    | DropDefer(r: RunId)
    | OfRun(run: Workflow.Step)
    | Ack(e: EntryId)
    | DeadLetter(e: EntryId)
    | Reap
    | Cancel
    | OfPoll(poll: PollStep)
    | OfMatch(matching: MatchStep)

  datatype PollStep =
    | ClaimTimer(p: PollId, timer: Timer)
    | ReadStatus(p: PollId)
    | CheckStep(p: PollId)
    | DeleteWaiters(p: PollId)
    | SelectStep(p: PollId, f: RunId)
    | RecordTimeout(p: PollId)
    | PublishResume(p: PollId)
    | RemoveTimer(p: PollId)
    | Die(p: PollId)

  datatype MatchStep =
    | MatchEvent(m: MatchId, w: WaiterId)       // from outside
    | SelectWaiting(m: MatchId, f: RunId, index: Option<nat>)
    | RecordEvent(m: MatchId, data: string)
    | FlushResume(m: MatchId)
    | DeleteWaiter(m: MatchId)
    | End(m: MatchId)

  // ---------------------------------------------------------------- runs

  /** The steps that a run takes once it has been delivered. */
  predicate TakenByRun(x: Workflow.Step) {
    match x
    case ReadInstance(_) => true
    case CreateInstance(_) => true
    case Claim(_) => true
    case ReadSteps(_) => true
    case Advance(_) => true
    case Publish(_, _) => true
    case Fail(_) => true
    case SetTimer(_) => true
    case InsertRow(_) => true
    case InsertWaiter(_) => true
    case Finish(_) => true
    case Crash(_) => true
    case _ => false
  }

  function TimerOf(d: StepDef, index: nat): (t: Timer) {
    match d
    case WaitForEventStep(event, _) => Timeout(index, event)
    case _ => Sleep
  }

  function EventOf(d: StepDef): (event: string) {
    match d
    case WaitForEventStep(event, _) => event
    case _ => ""
  }

  /** The run has returned: its entry may be acked. */
  function Return(s: World, r: RunId): (s': World)
    requires r in s.deliveries
  {
    s.(handled := s.handled + {s.deliveries[r].entry})
  }

  /** What a run's step does outside the engine's own tables. */
  function Beside(c: Config, s: World, x: Workflow.Step): (s': World)
    requires TakenByRun(x) && Workflow.Enabled(c, s.core, x) && x.r in s.deliveries
  {
    match x
    case ReadInstance(r) =>
      if s.core.status == Running then s.(deferring := s.deferring[r := s.deliveries[r]])
      else if Final(s.core.status) then Return(s, r) else s
    case Claim(r) => if s.core.status == Pending then s else Return(s, r)
    case SetTimer(r) =>
      var d := Known(c.definition)[s.core.runs[r].index];
      s.(timers := s.timers[TimerOf(d, s.core.runs[r].index) := s.core.now + DelayOf(d).value])
    case InsertWaiter(r) =>
      var run := s.core.runs[r];
      var event := if run.index < |Known(c.definition)| then EventOf(Known(c.definition)[run.index]) else "";
      s.(waiters := s.waiters[s.next := Waiter(event, run.resumeAt)], next := s.next + 1)
    case Finish(r) => Return(s, r)
    case _ => s
  }

  // ---------------------------------------------------------------- timer polls

  predicate PollEnabled(c: Config, s: World, step: PollStep) {
    match step
    case ClaimTimer(p, t) => p !in s.polls && t in s.timers && s.timers[t] <= s.core.now
    case ReadStatus(p) => p in s.polls && s.polls[p].Claimed?
    case CheckStep(p) => p in s.polls && s.polls[p].Checking? && s.polls[p].timer.Timeout?
    case DeleteWaiters(p) => p in s.polls && s.polls[p].Deleting? && s.polls[p].timer.Timeout?
    case SelectStep(p, f) => p in s.polls && s.polls[p].Selecting? && s.polls[p].timer.Timeout? && f !in s.core.fillers
    case RecordTimeout(p) => p in s.polls && s.polls[p].Recording? && s.polls[p].filler in s.core.fillers
    case PublishResume(p) => p in s.polls && s.polls[p].Publishing?
    case RemoveTimer(p) => p in s.polls && s.polls[p].Removing?
    case Die(p) => p in s.polls
  }

  predicate Unresolved(rows: map<nat, StepRow>, index: nat) {
    index in rows && rows[index].output == Null
  }

  function WaitingFor(s: World, event: string): (ws: set<WaiterId>) {
    set w | w in s.waiters && s.waiters[w].event == event
  }

  function ResumeInput(s: World, t: Timer): (input: Input) {
    if t.Deferred? then t.input else s.core.input
  }

  function PollApply(c: Config, s: World, step: PollStep): (s': World)
    requires PollEnabled(c, s, step)
    ensures forall t :: t in s.timers ==> t in s'.timers || (step.RemoveTimer? && t == s.polls[step.p].timer)
  {
    match step
    case ClaimTimer(p, t) => s.(timers := s.timers[t := s.core.now + VISIBILITY_MS], polls := s.polls[p := Poll.Claimed(t)])
    // running: the member stays and becomes visible again
    case ReadStatus(p) =>
      var t := s.polls[p].timer;
      if s.core.status == Absent || Final(s.core.status) then s.(polls := s.polls[p := Removing(t)])
      else if s.core.status == Running then s.(polls := s.polls - {p})
      else s.(polls := s.polls[p := if t.Timeout? then Checking(t) else Publishing(t)])
    case CheckStep(p) =>
      var t := s.polls[p].timer;
      s.(polls := s.polls[p := if Unresolved(s.core.rows, t.index) then Deleting(t) else Removing(t)])
    case DeleteWaiters(p) =>
      var t := s.polls[p].timer;
      var waiting := WaitingFor(s, t.event);
      if waiting == {} then s.(polls := s.polls[p := Removing(t)])
      else s.(waiters := s.waiters - waiting, polls := s.polls[p := Selecting(t)])
    case SelectStep(p, f) =>
      var t := s.polls[p].timer;
      if Workflow.Enabled(c, s.core, FindUnfilled(f, t.index)) then
        s.(core := Workflow.Apply(c, s.core, FindUnfilled(f, t.index)), polls := s.polls[p := Recording(t, f)])
      else s.(polls := s.polls[p := Publishing(t)])
    case RecordTimeout(p) =>
      s.(core := Workflow.Apply(c, s.core, Fill(s.polls[p].filler, TimedOut)), polls := s.polls[p := Publishing(s.polls[p].timer)])
    case PublishResume(p) =>
      var t := s.polls[p].timer;
      s.(entries := s.entries[s.next := ResumeInput(s, t)], polls := s.polls[p := Removing(t)], next := s.next + 1)
    // ZREM of the member, whatever has been done to it since it was claimed
    case RemoveTimer(p) => s.(timers := s.timers - {s.polls[p].timer}, polls := s.polls - {p})
    case Die(p) => s.(polls := s.polls - {p})
  }

  // ---------------------------------------------------------------- event matches

  predicate MatchEnabled(c: Config, s: World, step: MatchStep) {
    match step
    case MatchEvent(m, w) => m !in s.matches && w in s.waiters && s.waiters[w].expiresAt > s.core.now
    case SelectWaiting(m, f, index) =>
      && m in s.matches && s.matches[m].Matched? && f !in s.core.fillers
      && (index.Some? ==> Workflow.Enabled(c, s.core, FindUnfilled(f, index.value)))
      && (index.None? ==> forall i :: i in s.core.rows ==> !(s.core.rows[i].action == WaitForEvent && s.core.rows[i].output == Null))
    case RecordEvent(m, _) => m in s.matches && s.matches[m].Selected? && s.matches[m].filler in s.core.fillers
    case FlushResume(m) => m in s.matches && s.matches[m].Pushed? && !s.matches[m].published
    case DeleteWaiter(m) => m in s.matches && s.matches[m].Pushed? && !s.matches[m].deleted
    case End(m) => m in s.matches
  }

  function MatchApply(c: Config, s: World, step: MatchStep): (s': World)
    requires MatchEnabled(c, s, step)
    ensures s'.timers == s.timers
  {
    match step
    case MatchEvent(m, w) => s.(matches := s.matches[m := Matched(w)])
    case SelectWaiting(m, f, index) =>
      var w := s.matches[m].waiter;
      if index.Some? then
        s.(core := Workflow.Apply(c, s.core, FindUnfilled(f, index.value)), matches := s.matches[m := Selected(w, f)])
      else s.(matches := s.matches[m := Pushed(w, false, false)])
    case RecordEvent(m, data) =>
      s.(core := Workflow.Apply(c, s.core, Fill(s.matches[m].filler, Received(data))),
         matches := s.matches[m := Pushed(s.matches[m].waiter, false, false)])
    case FlushResume(m) =>
      s.(entries := s.entries[s.next := s.core.input], matches := s.matches[m := s.matches[m].(published := true)],
         next := s.next + 1)
    case DeleteWaiter(m) =>
      s.(waiters := s.waiters - {s.matches[m].waiter}, matches := s.matches[m := s.matches[m].(deleted := true)])
    case End(m) => s.(matches := s.matches - {m})
  }

  // ---------------------------------------------------------------- all of them

  predicate Enabled(c: Config, s: World, step: Step) {
    match step
    case Trigger(_) => true
    case Tick(_) => true
    case Deliver(r, e) => e in s.entries && r !in s.core.runs && r !in s.deferring
    case LockRefused(r) => r in s.core.runs && s.core.runs[r].Triggered? && r in s.deliveries
    case Defer(r) => r in s.deferring
    case DropDefer(r) => r in s.deferring
    case OfRun(x) => TakenByRun(x) && Workflow.Enabled(c, s.core, x) && x.r in s.deliveries
    case Ack(e) => e in s.entries && e in s.handled
    case DeadLetter(e) => e in s.entries
    case Reap => s.core.status == Running
    case Cancel => s.core.status == Pending || s.core.status == Running
    case OfPoll(x) => PollEnabled(c, s, x)
    case OfMatch(x) => MatchEnabled(c, s, x)
  }

  function Apply(c: Config, s: World, step: Step): (s': World)
    requires Enabled(c, s, step)
  {
    match step
    case Trigger(input) => s.(entries := s.entries[s.next := input], next := s.next + 1)
    case Tick(ms) => s.(core := Workflow.Apply(c, s.core, Workflow.Tick(ms)))
    case Deliver(r, e) =>
      s.(core := Workflow.Apply(c, s.core, Workflow.Deliver(r, s.entries[e])),
         deliveries := s.deliveries[r := Delivery(e, s.entries[e])])
    case LockRefused(r) =>
      s.(core := Workflow.Apply(c, s.core, Crash(r)), deferring := s.deferring[r := s.deliveries[r]])
    case Defer(r) =>
      var d := s.deferring[r];
      s.(timers := s.timers[Deferred(d.input) := s.core.now + RESUME_RETRY_MS],
         handled := s.handled + {d.entry}, deferring := s.deferring - {r})
    case DropDefer(r) => s.(deferring := s.deferring - {r})
    case OfRun(x) => Beside(c, s, x).(core := Workflow.Apply(c, s.core, x))
    case Ack(e) => s.(entries := s.entries - {e})
    case DeadLetter(e) => s.(entries := s.entries - {e})
    case Reap => s.(core := Workflow.Apply(c, s.core, Workflow.Reap))
    case Cancel => s.(core := Workflow.Apply(c, s.core, Workflow.Cancel), waiters := map[])
    case OfPoll(x) => PollApply(c, s, x)
    case OfMatch(x) => MatchApply(c, s, x)
  }

  function Init(): (s: World) {
    World.World(Workflow.Init(), map[], {}, map[], map[], map[], map[], map[], map[], 0)
  }

  predicate IsRun(c: Config, s: World, steps: seq<Step>)
    decreases |steps|
  {
    steps == [] || (Enabled(c, s, steps[0]) && IsRun(c, Apply(c, s, steps[0]), steps[1..]))
  }

  function After(c: Config, s: World, steps: seq<Step>): (s': World)
    requires IsRun(c, s, steps)
    decreases |steps|
  {
    if steps == [] then s else After(c, Apply(c, s, steps[0]), steps[1..])
  }

  // ---------------------------------------------------------------- what the engine itself sees

  /** The engine's step inside a step of this machine, if there is one. */
  function Inside(c: Config, s: World, step: Step): (x: Option<Workflow.Step>)
    requires Enabled(c, s, step)
  {
    match step
    case Tick(ms) => Some(Workflow.Tick(ms))
    case Deliver(r, e) => Some(Workflow.Deliver(r, s.entries[e]))
    case LockRefused(r) => Some(Crash(r))
    case OfRun(x) => Some(x)
    case Reap => Some(Workflow.Reap)
    case Cancel => Some(Workflow.Cancel)
    case OfPoll(x) =>
      if x.SelectStep? && Workflow.Enabled(c, s.core, FindUnfilled(x.f, s.polls[x.p].timer.index)) then
        Some(FindUnfilled(x.f, s.polls[x.p].timer.index))
      else if x.RecordTimeout? then Some(Fill(s.polls[x.p].filler, TimedOut))
      else None
    case OfMatch(x) =>
      if x.SelectWaiting? && x.index.Some? then Some(FindUnfilled(x.f, x.index.value))
      else if x.RecordEvent? then Some(Fill(s.matches[x.m].filler, Received(x.data)))
      else None
    case _ => None
  }

  /** The step takes `x` inside, or nothing. */
  ghost predicate Takes(c: Config, s: World, s': World, x: Option<Workflow.Step>) {
    if x.None? then s'.core == s.core
    else Workflow.Enabled(c, s.core, x.value) && s'.core == Workflow.Apply(c, s.core, x.value)
  }

  lemma PollInside(c: Config, s: World, x: PollStep)
    requires PollEnabled(c, s, x)
    ensures Takes(c, s, PollApply(c, s, x), Inside(c, s, OfPoll(x)))
  {
    hide Workflow.Apply;
  }

  lemma MatchInside(c: Config, s: World, x: MatchStep)
    requires MatchEnabled(c, s, x)
    ensures Takes(c, s, MatchApply(c, s, x), Inside(c, s, OfMatch(x)))
  {
    hide Workflow.Apply;
  }

  lemma BesideLeavesCore(c: Config, s: World, x: Workflow.Step)
    requires TakenByRun(x) && Workflow.Enabled(c, s.core, x) && x.r in s.deliveries
    ensures Beside(c, s, x).core == s.core
  {
  }

  lemma StepsInside(c: Config, s: World, step: Step)
    requires Enabled(c, s, step)
    ensures Takes(c, s, Apply(c, s, step), Inside(c, s, step))
  {
    match step
    case OfPoll(x) => PollInside(c, s, x);
    case OfMatch(x) => MatchInside(c, s, x);
    case OfRun(x) => BesideLeavesCore(c, s, x); hide Beside, Workflow.Enabled, Workflow.Apply;
    case _ => hide PollApply, MatchApply, Workflow.Apply;
  }

  /** Every run of this machine is a run of the engine: what WorkflowSafety proves of the log holds here too. */
  lemma {:induction false} EngineRuns(c: Config, s: World, steps: seq<Step>) returns (inner: seq<Workflow.Step>)
    requires IsRun(c, s, steps)
    ensures Workflow.IsRun(c, s.core, inner) && Workflow.After(c, s.core, inner) == After(c, s, steps).core
    decreases |steps|
  {
    if steps == [] {
      inner := [];
    } else {
      StepsInside(c, s, steps[0]);
      var x := Inside(c, s, steps[0]);
      hide Enabled, Apply, Workflow.Enabled, Workflow.Apply, Inside;
      inner := EngineRuns(c, Apply(c, s, steps[0]), steps[1..]);
      if x.Some? {
        assert ([x.value] + inner)[1..] == inner;
        inner := [x.value] + inner;
      }
    }
  }
}
