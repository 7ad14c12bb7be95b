/** The durable workflow engine (src/services/workflow/main.ts, timers.ts, src/services/events/main.ts,
  * src/repositories/workflow.ts), for one instance of a JSON-defined workflow.
  *
  * A run of `WorkflowWorker.process` is cut at its awaits. Any number of runs are alive at once, each started by a
  * trigger or resume that may be duplicate, early or spurious, and each may crash between two steps. The instance lock is
  * not relied on: it may expire under a live run, so the reaper may put a running instance back to pending at any time. */
module Workflow {
  import opened StepNotify
  import opened Wrappers

  type RunId = nat

  /** A step of the definition. Durations are parsed already; `None` is one that does not parse. */
  datatype StepDef =
    | NotifyStep(args: NotifyArgs)
    | WaitStep(ms: Option<nat>)
    | WaitForEventStep(event: string, timeoutMs: Option<nat>)
    | UnknownStep(action: string)

  datatype Action = Notify | Wait | WaitForEvent

  datatype Output =
    | Null
    | Notified(messageId: nat)
    | Until(scheduledAt: nat)
    | Received(data: string)
    | TimedOut

  /** A `workflow_steps` row; `writtenAt` is when it was inserted. */
  datatype StepRow = StepRow(action: Action, output: Output, writtenAt: nat)

  datatype Status = Absent | Pending | Running | Completed | Failed | Canceled

  /** What a run carries from its event and from the instance row it read. */
  datatype RunContext = RunContext(input: Input, outputs: map<nat, Output>)

  datatype Run =
    | Triggered(eventInput: Input)
    | Creating(eventInput: Input)
    | SawPending(input: Input)
    | Claimed(input: Input)
    | AtStep(ctx: RunContext, index: nat)
    | NotCanceled(ctx: RunContext, index: nat)
    | Published(ctx: RunContext, index: nat, messageId: nat)
    | TimerSet(ctx: RunContext, index: nat, resumeAt: nat)
    | WaiterOwed(index: nat, resumeAt: nat)     // the row of a wait for an event is in, its waiter is not
    | Ending(status: Status)

  /** A worker that has read a step with no output and is about to fill it: the event worker or a timeout. */
  datatype Filler = Filler(index: nat)

  datatype Config = Config(instance: string, projectId: string, definition: seq<StepDef>)

  datatype World = World(
    now: nat,
    status: Status,
    input: Input,
    rows: map<nat, StepRow>,
    published: seq<(nat, Requested)>,
    runs: map<RunId, Run>,
    fillers: map<RunId, Filler>)

  datatype Step =
    | Tick(ms: nat)
    | Deliver(r: RunId, eventInput: Input)
    | ReadInstance(r: RunId)
    | CreateInstance(r: RunId)
    | Claim(r: RunId)
    | ReadSteps(r: RunId)
    | Advance(r: RunId)
    | Publish(r: RunId, messageId: nat)
    | Fail(r: RunId)
    | SetTimer(r: RunId)
    | InsertRow(r: RunId)
    | InsertWaiter(r: RunId)
    | Finish(r: RunId)
    | Crash(r: RunId)
    | Reap
    | Cancel
    | FindUnfilled(f: RunId, index: nat)
    | Fill(f: RunId, output: Output)

  // ---------------------------------------------------------------- the definition

  function Known(definition: seq<StepDef>): (steps: seq<StepDef>) {
    if definition == [] then []
    else (if definition[0].UnknownStep? then [] else [definition[0]]) + Known(definition[1..])
  }

  lemma {:induction false} KnownAreKnown(definition: seq<StepDef>)
    ensures forall k :: 0 <= k < |Known(definition)| ==> !Known(definition)[k].UnknownStep?
  {
    if definition != [] {
      KnownAreKnown(definition[1..]);
    }
  }

  lemma {:induction false} KnownOfSum(first: seq<StepDef>, second: seq<StepDef>)
    ensures Known(first + second) == Known(first) + Known(second)
  {
    if first == [] {
      assert first + second == second;
    } else {
      KnownOfSum(first[1..], second);
      assert (first + second)[1..] == first[1..] + second;
    }
  }

  lemma {:induction false} KnownCounts(definition: seq<StepDef>, d: StepDef)
    ensures multiset(Known(definition))[d] == if d.UnknownStep? then 0 else multiset(definition)[d]
  {
    if definition != [] {
      KnownCounts(definition[1..], d);
      assert definition == [definition[0]] + definition[1..];
    }
  }

  /** The known steps, in their order and each as often as it stands in the definition; nothing else. */
  lemma KnownSteps(definition: seq<StepDef>, i: nat, d: StepDef)
    requires i <= |definition|
    ensures Known(definition) == Known(definition[..i]) + Known(definition[i..])
    ensures multiset(Known(definition))[d] == if d.UnknownStep? then 0 else multiset(definition)[d]
  {
    assert definition == definition[..i] + definition[i..];
    KnownOfSum(definition[..i], definition[i..]);
    KnownCounts(definition, d);
  }

  function ActionOf(d: StepDef): (a: Action) {
    match d
    case NotifyStep(_) => Notify
    case WaitStep(_) => Wait
    case _ => WaitForEvent
  }

  /** The event a notify step publishes: fixed by the definition, the instance's own input and the step's index. */
  function RequestFor(c: Config, input: Input, index: nat): (r: Option<Requested>)
    requires index < |Known(c.definition)|
  {
    match Known(c.definition)[index]
    case NotifyStep(args) => BuildStepNotifyPayload(args, input, c.projectId, Key(c.instance, index))
    case _ => None
  }

  // ---------------------------------------------------------------- a run's own decisions

  datatype Verdict = Replayed | Suspend | Fresh

  /** What the step proxy does with a step the log may already hold. */
  function ReplayStep(d: StepDef, outputs: map<nat, Output>, index: nat, now: nat): (v: Verdict) {
    if index !in outputs then Fresh
    else match d
      case WaitStep(_) =>
        if outputs[index].Until? && outputs[index].scheduledAt > now then Suspend else Replayed
      case WaitForEventStep(_, _) => if outputs[index].Null? then Suspend else Replayed
      case _ => Replayed
  }

  /** A stored output that does not let a run pass: a sleep that is not over, an event that has not come. */
  ghost predicate Unanswered(d: StepDef, output: Output, now: nat) {
    || (d.WaitStep? && output.Until? && now < output.scheduledAt)
    || (d.WaitForEventStep? && output.Null?)
  }

  /** The log answers for the first `index` steps. */
  ghost predicate Answers(definition: seq<StepDef>, outputs: map<nat, Output>, index: nat, now: nat)
    requires index <= |Known(definition)|
  {
    forall j :: 0 <= j < index ==> j in outputs && !Unanswered(Known(definition)[j], outputs[j], now)
  }

  function AdvanceRun(c: Config, s: World, run: Run): (run': Run)
    requires run.AtStep?
  {
    var steps := Known(c.definition);
    if run.index >= |steps| then Ending(Completed)
    else match ReplayStep(steps[run.index], run.ctx.outputs, run.index, s.now)
      case Replayed => AtStep(run.ctx, run.index + 1)
      case Suspend => Ending(Pending)
      // stopIfCanceled
      case Fresh => if s.status == Canceled then Ending(Canceled) else NotCanceled(run.ctx, run.index)
  }

  // ---------------------------------------------------------------- steps

  predicate Enabled(c: Config, s: World, step: Step) {
    match step
    case Tick(ms) => true
    case Deliver(r, _) => r !in s.runs
    case ReadInstance(r) => r in s.runs && s.runs[r].Triggered?
    case CreateInstance(r) => r in s.runs && s.runs[r].Creating?
    case Claim(r) => r in s.runs && s.runs[r].SawPending?
    case ReadSteps(r) => r in s.runs && s.runs[r].Claimed?
    case Advance(r) => r in s.runs && s.runs[r].AtStep?
    case Publish(r, _) =>
      && r in s.runs && s.runs[r].NotCanceled? && s.runs[r].index < |Known(c.definition)|
      && RequestFor(c, s.runs[r].ctx.input, s.runs[r].index).Some?
    case Fail(r) =>
      && r in s.runs
      && (s.runs[r].AtStep? || s.runs[r].NotCanceled? || s.runs[r].Published? || s.runs[r].TimerSet? || s.runs[r].WaiterOwed?)
    case SetTimer(r) =>
      && r in s.runs && s.runs[r].NotCanceled? && s.runs[r].index < |Known(c.definition)|
      && DelayOf(Known(c.definition)[s.runs[r].index]).Some?
    case InsertRow(r) => r in s.runs && (s.runs[r].Published? || s.runs[r].TimerSet?) && s.runs[r].index < |Known(c.definition)|
    case InsertWaiter(r) => r in s.runs && s.runs[r].WaiterOwed?
    case Finish(r) => r in s.runs && s.runs[r].Ending?
    case Crash(r) => r in s.runs
    case Reap => s.status == Running
    case Cancel => s.status == Pending || s.status == Running
    case FindUnfilled(f, index) =>
      f !in s.fillers && index in s.rows && s.rows[index].action == WaitForEvent && s.rows[index].output == Null
    case Fill(f, output) => f in s.fillers && (output.Received? || output.TimedOut?)
  }

  /** How long a wait, or a wait for an event, sets its timer ahead. */
  function DelayOf(d: StepDef): (ms: Option<nat>) {
    match d
    case WaitStep(ms) => ms
    case WaitForEventStep(_, ms) => ms
    case _ => None
  }

  function NewRow(c: Config, s: World, run: Run): (row: StepRow)
    requires (run.Published? || run.TimerSet?) && run.index < |Known(c.definition)|
  {
    var action := ActionOf(Known(c.definition)[run.index]);
    StepRow(action,
            if run.Published? then Notified(run.messageId)
            else if action == Wait then Until(run.resumeAt) else Null,
            s.now)
  }

  /** Where a run stands once its row is in: a notify goes on, a wait suspends, a wait for an event still owes its waiter. */
  function AfterInsert(c: Config, run: Run): (run': Run)
    requires (run.Published? || run.TimerSet?) && run.index < |Known(c.definition)|
  {
    if run.Published? then AtStep(run.ctx, run.index + 1)
    else if ActionOf(Known(c.definition)[run.index]) == Wait then Ending(Pending)
    else WaiterOwed(run.index, run.resumeAt)
  }

  function Apply(c: Config, s: World, step: Step): (s': World)
    requires Enabled(c, s, step)
  {
    match step
    case Tick(ms) => s.(now := s.now + ms)
    case Deliver(r, eventInput) => s.(runs := s.runs[r := Triggered(eventInput)])
    // a status other than pending ends the run (and may defer the resume)
    case ReadInstance(r) =>
      if s.status == Absent then s.(runs := s.runs[r := Creating(s.runs[r].eventInput)])
      else if s.status == Pending then s.(runs := s.runs[r := SawPending(s.input)])
      else s.(runs := s.runs - {r})
    // insert into workflow_instances: the id is the primary key, so a second insert is an error
    case CreateInstance(r) =>
      var input := s.runs[r].eventInput;
      if s.status == Absent then s.(status := Pending, input := input, runs := s.runs[r := SawPending(input)])
      else s.(runs := s.runs - {r})
    // update ... where status = 'pending'
    case Claim(r) =>
      if s.status == Pending then s.(status := Running, runs := s.runs[r := Claimed(s.runs[r].input)])
      else s.(runs := s.runs - {r})
    case ReadSteps(r) =>
      s.(runs := s.runs[r := AtStep(RunContext(s.runs[r].input, map i | i in s.rows :: s.rows[i].output), 0)])
    case Advance(r) => s.(runs := s.runs[r := AdvanceRun(c, s, s.runs[r])])
    case Publish(r, messageId) =>
      var run := s.runs[r];
      s.(published := s.published + [(run.index, RequestFor(c, run.ctx.input, run.index).value)],
         runs := s.runs[r := Published(run.ctx, run.index, messageId)])
    // any error of a handler, including a publish that landed but whose reply was lost
    case Fail(r) => s.(runs := s.runs[r := Ending(Failed)])
    case SetTimer(r) =>
      var run := s.runs[r];
      s.(runs := s.runs[r := TimerSet(run.ctx, run.index, s.now + DelayOf(Known(c.definition)[run.index]).value)])
    // unique (instance_id, step_index): a conflict is an error of the handler
    case InsertRow(r) =>
      var run := s.runs[r];
      if run.index in s.rows then s.(runs := s.runs[r := Ending(Failed)])
      else s.(rows := s.rows[run.index := NewRow(c, s, run)],
              runs := s.runs[r := AfterInsert(c, run)])
    case InsertWaiter(r) => s.(runs := s.runs[r := Ending(Pending)])
    // update ... where status = 'running'; a canceled run writes nothing
    case Finish(r) =>
      var to := s.runs[r].status;
      s.(status := if s.status == Running && to != Canceled then to else s.status, runs := s.runs - {r})
    case Crash(r) => s.(runs := s.runs - {r})
    case Reap => s.(status := Pending)
    case Cancel => s.(status := Canceled)
    case FindUnfilled(f, index) => s.(fillers := s.fillers[f := Filler(index)])
    // update ... where id = ...: not conditional on the output still being null
    case Fill(f, output) =>
      var i := s.fillers[f].index;
      s.(rows := if i in s.rows then s.rows[i := s.rows[i].(output := output)] else s.rows, fillers := s.fillers - {f})
  }

  function Init(): (s: World) {
    World(0, Absent, Input(None), map[], [], map[], map[])
  }

  predicate IsRun(c: Config, s: World, steps: seq<Step>)
    decreases |steps|
  {
    steps == [] || (Enabled(c, s, steps[0]) && IsRun(c, Apply(c, s, steps[0]), steps[1..]))
  }

  function After(c: Config, s: World, steps: seq<Step>): (s': World)
    requires IsRun(c, s, steps)
    decreases |steps|
  {
    if steps == [] then s else After(c, Apply(c, s, steps[0]), steps[1..])
  }

  // ---------------------------------------------------------------- replay, as the handler loop does it

  /** The handler's loop over the definition until it meets a step the log cannot answer: `currentStepIndex` counts up
    * over the known steps only. A step is performed exactly if it has no row, and the run suspends exactly at a row that
    * does not let it pass. */
  method Replay(definition: seq<StepDef>, outputs: map<nat, Output>, now: nat) returns (index: nat, verdict: Verdict)
    ensures index <= |Known(definition)| && Answers(definition, outputs, index, now)
    ensures verdict == Replayed <==> index == |Known(definition)|
    ensures verdict == Fresh <==> index < |Known(definition)| && index !in outputs
    ensures verdict == Suspend <==>
              index < |Known(definition)| && index in outputs && Unanswered(Known(definition)[index], outputs[index], now)
  {
    index, verdict := 0, Replayed;
    var i := 0;
    assert definition[..0] == [];
    while i < |definition|
      invariant 0 <= i <= |definition|
      invariant index == |Known(definition[..i])| <= |Known(definition)|
      invariant Known(definition[..i]) <= Known(definition)
      invariant Answers(definition, outputs, index, now)
      invariant verdict == Replayed
    {
      KnownOfPrefix(definition, i);
      if !definition[i].UnknownStep? {
        assert Known(definition)[index] == definition[i];
        verdict := ReplayStep(definition[i], outputs, index, now);
        if verdict != Replayed {
          return;
        }
        index := index + 1;
      }
      i := i + 1;
    }
    assert definition[..i] == definition;
  }

  lemma {:induction false} KnownOfPrefix(definition: seq<StepDef>, i: nat)
    requires i < |definition|
    ensures Known(definition[..i + 1]) ==
            Known(definition[..i]) + (if definition[i].UnknownStep? then [] else [definition[i]])
    ensures Known(definition[..i + 1]) <= Known(definition)
    decreases i
  {
    if i == 0 {
      assert definition[..1][1..] == [] && definition[..0] == [];
    } else {
      KnownOfPrefix(definition[1..], i - 1);
      assert definition[..i + 1][1..] == definition[1..][..i];
      assert definition[..i][1..] == definition[1..][..i - 1];
    }
  }

  function AdvanceTimes(c: Config, s: World, run: Run, n: nat): (run': Run) {
    if n == 0 then run
    else
      var before := AdvanceTimes(c, s, run, n - 1);
      if before.AtStep? then AdvanceRun(c, s, before) else before
  }

  /** A run's `Advance` steps follow the handler's loop: they pass what the log answers, and at the first step it does not
    * answer the run suspends, performs the step unless the instance is canceled, or has completed. */
  lemma {:induction false} AdvancesAsReplayed(c: Config, s: World, ctx: RunContext, index: nat)
    requires index <= |Known(c.definition)| && Answers(c.definition, ctx.outputs, index, s.now)
    ensures AdvanceTimes(c, s, AtStep(ctx, 0), index) == AtStep(ctx, index)
    ensures AdvanceTimes(c, s, AtStep(ctx, 0), index + 1) == Ending(Completed) <==> index == |Known(c.definition)|
    ensures AdvanceTimes(c, s, AtStep(ctx, 0), index + 1) == Ending(Pending) <==>
              index < |Known(c.definition)| && index in ctx.outputs &&
              Unanswered(Known(c.definition)[index], ctx.outputs[index], s.now)
    ensures AdvanceTimes(c, s, AtStep(ctx, 0), index + 1) == NotCanceled(ctx, index) <==>
              index < |Known(c.definition)| && index !in ctx.outputs && s.status != Canceled
    ensures AdvanceTimes(c, s, AtStep(ctx, 0), index + 1) == Ending(Canceled) <==>
              index < |Known(c.definition)| && index !in ctx.outputs && s.status == Canceled
  {
    hide Known;
    if index > 0 {
      AdvancesAsReplayed(c, s, ctx, index - 1);
    }
  }
}
