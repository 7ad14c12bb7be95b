/** Completion stays possible: from every reachable state of an instance that has not ended some run carries it through the
  * rest of its definition, performing every step that has no row, in order and once. */
module WorkflowProgress {
  import opened Counting
  import opened StepNotify
  import opened Workflow
  import opened WorkflowSafety
  import opened WorkflowReplay

  // ---------------------------------------------------------------- runs, one after another

  lemma {:induction false} Join(c: Config, s: World, first: seq<Step>, second: seq<Step>)
    requires IsRun(c, s, first) && IsRun(c, After(c, s, first), second)
    ensures IsRun(c, s, first + second) && After(c, s, first + second) == After(c, After(c, s, first), second)
    decreases |first|
  {
    if first == [] {
      assert first + second == second;
    } else {
      hide Apply, Enabled;
      Join(c, Apply(c, s, first[0]), first[1..], second);
      assert (first + second)[1..] == first[1..] + second;
    }
  }

  lemma One(c: Config, s: World, step: Step)
    requires Enabled(c, s, step)
    ensures IsRun(c, s, [step]) && After(c, s, [step]) == Apply(c, s, step)
  {
    assert [step][1..] == [];
  }

  // ---------------------------------------------------------------- what is left to do

  /** Every step of the definition can be performed: a notify finds its target, a duration parses. */
  ghost predicate Resolves(c: Config, input: Input) {
    forall i :: 0 <= i < |Known(c.definition)| ==> StepResolves(c, input, i)
  }

  predicate StepResolves(c: Config, input: Input, i: nat)
    requires i < |Known(c.definition)|
  {
    if Known(c.definition)[i].NotifyStep? then RequestFor(c, input, i).Some? else DelayOf(Known(c.definition)[i]).Some?
  }

  /** The events of the notify steps from `from` on. */
  function Requests(c: Config, input: Input, from: nat): (events: seq<(nat, Requested)>)
    decreases |Known(c.definition)| - from
  {
    if from >= |Known(c.definition)| then []
    else (match RequestFor(c, input, from)
          case Some(request) => [(from, request)]
          case None => []) + Requests(c, input, from + 1)
  }

  /** `steps` bring the instance from `s` to completion, publishing `events` and nothing else. */
  ghost predicate Completes(c: Config, s: World, steps: seq<Step>, events: seq<(nat, Requested)>) {
    && IsRun(c, s, steps)
    && var t := After(c, s, steps);
       t.status == Completed && |t.rows| == |Known(c.definition)| && t.published == s.published + events
  }

  lemma CompletesAfter(c: Config, s: World, first: seq<Step>, second: seq<Step>, more: seq<(nat, Requested)>,
                       events: seq<(nat, Requested)>)
    requires IsRun(c, s, first) && After(c, s, first).published == s.published + more
    requires Completes(c, After(c, s, first), second, events)
    ensures Completes(c, s, first + second, more + events)
  {
    hide IsRun, After, Known;
    Join(c, s, first, second);
  }

  // ---------------------------------------------------------------- a run that does the rest

  /** The run stands right behind the log, with nothing in its way. */
  ghost predicate AtTheEnd(c: Config, s: World, r: RunId, input: Input) {
    && r in s.runs && s.runs[r].AtStep? && s.runs[r].index == |s.rows|
    && s.runs[r].ctx.input == s.input == input && |s.rows| !in s.runs[r].ctx.outputs
    && s.status == Running && |s.rows| <= |Known(c.definition)| && |s.rows| !in s.rows
  }

  /** The instance waits to be claimed, and no run of the given name is alive. */
  ghost predicate Idle(c: Config, s: World, r: RunId, input: Input) {
    Inv(c, s) && r !in s.runs && s.status == Pending && s.input == input
  }

  lemma Next(c: Config, s: World, first: seq<Step>, step: Step) returns (steps: seq<Step>)
    requires IsRun(c, s, first) && Enabled(c, After(c, s, first), step)
    ensures IsRun(c, s, steps) && After(c, s, steps) == Apply(c, After(c, s, first), step)
  {
    hide Apply, Enabled;
    One(c, After(c, s, first), step);
    Join(c, s, first, [step]);
    steps := first + [step];
  }

  /** Claims the instance and reads the log. */
  lemma Claims(c: Config, s: World, r: RunId, input: Input) returns (steps: seq<Step>)
    requires Idle(c, s, r, input)
    ensures IsRun(c, s, steps)
    ensures After(c, s, steps) ==
            s.(status := Running, runs := s.runs[r := AtStep(RunContext(input, OutputsOf(s.rows)), 0)])
  {
    hide Known, Inv;
    steps := [];
    steps := Next(c, s, steps, Deliver(r, input));
    steps := Next(c, s, steps, ReadInstance(r));
    steps := Next(c, s, steps, Workflow.Claim(r));
    steps := Next(c, s, steps, ReadSteps(r));
  }

  /** Advances over the log. */
  lemma {:induction false} Passes(c: Config, s: World, r: RunId, n: nat) returns (steps: seq<Step>)
    requires r in s.runs && s.runs[r].AtStep? && s.runs[r].index == 0 && n <= |Known(c.definition)|
    requires Answers(c.definition, s.runs[r].ctx.outputs, n, s.now)
    ensures IsRun(c, s, steps) && After(c, s, steps) == s.(runs := s.runs[r := AtStep(s.runs[r].ctx, n)])
  {
    hide Known, Apply, Enabled;
    if n == 0 {
      steps := [];
    } else {
      steps := Passes(c, s, r, n - 1);
      PassesOne(c, After(c, s, steps), r, n - 1);
      steps := Next(c, s, steps, Advance(r));
    }
  }

  lemma PassesOne(c: Config, s: World, r: RunId, n: nat)
    requires r in s.runs && s.runs[r].AtStep? && s.runs[r].index == n < |Known(c.definition)|
    requires n in s.runs[r].ctx.outputs && !Unanswered(Known(c.definition)[n], s.runs[r].ctx.outputs[n], s.now)
    ensures Enabled(c, s, Advance(r))
    ensures Apply(c, s, Advance(r)) == s.(runs := s.runs[r := AtStep(s.runs[r].ctx, n + 1)])
  {
    hide Known;
  }

  lemma SleepsOver(c: Config, s: World, r: RunId, input: Input, last: nat)
    requires Idle(c, s, r, input) && last == |s.rows| - 1 && last in s.rows && s.rows[last].output.Until?
    ensures var t := Apply(c, s, Tick(s.rows[last].output.scheduledAt));
      Idle(c, t, r, input) && !Asleep(t) && t.rows == s.rows && t.published == s.published
  {
    hide Known, Inv;
    StepKeepsInv(c, s, Tick(s.rows[last].output.scheduledAt));
  }

  lemma EventComes(c: Config, s: World, r: RunId, input: Input, last: nat) returns (steps: seq<Step>)
    requires Idle(c, s, r, input) && last == |s.rows| - 1 && last in s.rows
    requires s.rows[last].output.Null? && s.rows[last].action == WaitForEvent
    ensures IsRun(c, s, steps)
    ensures var t := After(c, s, steps);
      Idle(c, t, r, input) && !Asleep(t) && |t.rows| == |s.rows| && t.published == s.published
  {
    hide Known, Inv;
    var f := Unused(s.fillers.Keys);
    var found := Apply(c, s, FindUnfilled(f, last));
    var filled := Apply(c, found, Fill(f, TimedOut));
    One(c, s, FindUnfilled(f, last));
    StepKeepsInv(c, s, FindUnfilled(f, last));
    steps := Next(c, s, [FindUnfilled(f, last)], Fill(f, TimedOut));
    StepKeepsInv(c, found, Fill(f, TimedOut));
    assert filled.rows.Keys == s.rows.Keys;
    SameSize(s.rows, filled.rows);
  }

  lemma LastRowFits(c: Config, s: World, last: nat)
    requires Inv(c, s) && last in s.rows
    ensures s.rows[last].output.Null? ==> s.rows[last].action == WaitForEvent
  {
    assert RowFits(c, last, s.rows[last], s.now);
    hide Known;
  }

  /** Lets the last row settle: the sleep passes, the event comes. */
  lemma Settles(c: Config, s: World, r: RunId, input: Input) returns (steps: seq<Step>)
    requires Idle(c, s, r, input)
    ensures IsRun(c, s, steps)
    ensures var t := After(c, s, steps);
      Idle(c, t, r, input) && !Asleep(t) && |t.rows| == |s.rows| && t.published == s.published
  {
    var last := |s.rows| - 1;
    steps := [];
    if last in s.rows {
      LastRowFits(c, s, last);
      hide Inv;
      if s.rows[last].output.Until? {
        SleepsOver(c, s, r, input, last);
        One(c, s, Tick(s.rows[last].output.scheduledAt));
        steps := [Tick(s.rows[last].output.scheduledAt)];
      } else if s.rows[last].output.Null? {
        steps := EventComes(c, s, r, input, last);
      }
    }
  }

  lemma SameSize(rows: map<nat, StepRow>, rows': map<nat, StepRow>)
    requires rows.Keys == rows'.Keys
    ensures |rows| == |rows'|
  {
    assert |rows.Keys| == |rows| && |rows'.Keys| == |rows'|;
  }

  /** Brings a run of its own to the end of the log. */
  lemma Resumes(c: Config, s: World, r: RunId, input: Input) returns (steps: seq<Step>)
    requires Idle(c, s, r, input)
    ensures IsRun(c, s, steps)
    ensures var t := After(c, s, steps);
      Inv(c, t) && AtTheEnd(c, t, r, input) && |t.rows| == |s.rows| && t.published == s.published
  {
    hide Known, Apply, Enabled, Inv, LogOk, RunsOk;
    var settling := Settles(c, s, r, input);
    var s1 := After(c, s, settling);
    var claiming := Claims(c, s1, r, input);
    var s2 := After(c, s1, claiming);
    InvHasLog(c, s1);
    LogAnswers(c, s1);
    var passing := Passes(c, s2, r, |s1.rows|);
    Join(c, s1, claiming, passing);
    Join(c, s, settling, claiming + passing);
    steps := settling + (claiming + passing);
    RunKeepsInv(c, s, steps);
  }

  lemma InvHasLog(c: Config, s: World)
    requires Inv(c, s)
    ensures LogOk(c, s.rows, s.now)
  {
  }

  /** The step right behind the log is performed, not replayed. */
  lemma Performs(c: Config, s: World, r: RunId, input: Input)
    requires AtTheEnd(c, s, r, input) && |s.rows| < |Known(c.definition)|
    ensures Enabled(c, s, Advance(r))
    ensures Apply(c, s, Advance(r)) == s.(runs := s.runs[r := NotCanceled(s.runs[r].ctx, |s.rows|)])
  {
    hide Known;
  }

  lemma PublishesIt(c: Config, s: World, r: RunId, ctx: RunContext, n: nat)
    requires r in s.runs && s.runs[r] == NotCanceled(ctx, n) && n < |Known(c.definition)|
    requires RequestFor(c, ctx.input, n).Some?
    ensures Enabled(c, s, Publish(r, 0))
    ensures Apply(c, s, Publish(r, 0)) ==
            s.(published := s.published + [(n, RequestFor(c, ctx.input, n).value)], runs := s.runs[r := Published(ctx, n, 0)])
  {
    hide Known, RequestFor;
  }

  lemma RecordsIt(c: Config, s: World, r: RunId, ctx: RunContext, n: nat)
    requires r in s.runs && s.runs[r] == Published(ctx, n, 0) && n < |Known(c.definition)| && n == |s.rows| && n !in s.rows
    ensures Enabled(c, s, InsertRow(r))
    ensures var t := Apply(c, s, InsertRow(r));
      t == s.(rows := t.rows, runs := s.runs[r := AtStep(ctx, n + 1)]) && |t.rows| == n + 1
  {
    hide Known;
  }

  /** A notify goes out and is recorded, and the run stands behind the longer log. */
  lemma Notifies(c: Config, s: World, r: RunId, input: Input) returns (steps: seq<Step>)
    requires Inv(c, s) && AtTheEnd(c, s, r, input) && |s.rows| < |Known(c.definition)|
    requires RequestFor(c, input, |s.rows|).Some?
    ensures IsRun(c, s, steps)
    ensures var t := After(c, s, steps);
      && Inv(c, t) && AtTheEnd(c, t, r, input) && |t.rows| == |s.rows| + 1
      && t.published == s.published + [(|s.rows|, RequestFor(c, input, |s.rows|).value)]
  {
    hide Known, RequestFor, Inv, Apply, Enabled, LogOk;
    var n, ctx := |s.rows|, s.runs[r].ctx;
    Performs(c, s, r, input);
    One(c, s, Advance(r));
    PublishesIt(c, Apply(c, s, Advance(r)), r, ctx, n);
    steps := Next(c, s, [Advance(r)], Publish(r, 0));
    RecordsIt(c, After(c, s, steps), r, ctx, n);
    steps := Next(c, s, steps, InsertRow(r));
    RunKeepsInv(c, s, steps);
    InvHasLog(c, After(c, s, steps));
    LogAnswers(c, After(c, s, steps));
    EndOfLogUnread(c, s, r, n);
  }

  lemma EndOfLogUnread(c: Config, s: World, r: RunId, n: nat)
    requires Inv(c, s) && r in s.runs && s.runs[r].AtStep? && n == |s.rows|
    ensures n + 1 !in s.runs[r].ctx.outputs
  {
    OneRunOk(c, s, r);
    ContiguousHas(s.rows, n + 1);
    hide Known;
  }

  lemma TimesIt(c: Config, s: World, r: RunId, ctx: RunContext, n: nat)
    requires r in s.runs && s.runs[r] == NotCanceled(ctx, n) && n < |Known(c.definition)| && n == |s.rows| && n !in s.rows
    requires DelayOf(Known(c.definition)[n]).Some?
    ensures Enabled(c, s, SetTimer(r)) && Enabled(c, Apply(c, s, SetTimer(r)), InsertRow(r))
    ensures var t := Apply(c, Apply(c, s, SetTimer(r)), InsertRow(r));
      && r in t.runs && t == s.(rows := t.rows, runs := s.runs[r := t.runs[r]]) && |t.rows| == n + 1
      && (t.runs[r] == Ending(Pending) || t.runs[r].WaiterOwed?)
  {
    hide Known;
  }

  lemma Suspends(c: Config, s: World, r: RunId) returns (steps: seq<Step>)
    requires r in s.runs && (s.runs[r] == Ending(Pending) || s.runs[r].WaiterOwed?) && s.status == Running
    ensures IsRun(c, s, steps) && After(c, s, steps) == s.(status := Pending, runs := s.runs - {r})
  {
    hide Known;
    steps := [];
    if s.runs[r].WaiterOwed? {
      steps := Next(c, s, [], InsertWaiter(r));
    }
    steps := Next(c, s, steps, Finish(r));
  }

  /** A wait is recorded and the run suspends. */
  lemma Sleeps(c: Config, s: World, r: RunId, input: Input) returns (steps: seq<Step>)
    requires Inv(c, s) && AtTheEnd(c, s, r, input) && |s.rows| < |Known(c.definition)|
    requires DelayOf(Known(c.definition)[|s.rows|]).Some?
    ensures IsRun(c, s, steps)
    ensures var t := After(c, s, steps);
      Idle(c, t, r, input) && |t.rows| == |s.rows| + 1 && t.published == s.published
  {
    hide Known, Inv, Apply, Enabled, DelayOf;
    var n, ctx := |s.rows|, s.runs[r].ctx;
    Performs(c, s, r, input);
    One(c, s, Advance(r));
    TimesIt(c, Apply(c, s, Advance(r)), r, ctx, n);
    steps := Next(c, s, [Advance(r)], SetTimer(r));
    steps := Next(c, s, steps, InsertRow(r));
    var rest := Suspends(c, After(c, s, steps), r);
    Join(c, s, steps, rest);
    steps := steps + rest;
    RunKeepsInv(c, s, steps);
  }

  lemma Ends(c: Config, s: World, r: RunId, input: Input) returns (steps: seq<Step>)
    requires AtTheEnd(c, s, r, input) && |s.rows| == |Known(c.definition)|
    ensures Completes(c, s, steps, [])
  {
    hide Known;
    steps := Next(c, s, [], Advance(r));
    steps := Next(c, s, steps, Finish(r));
  }

  lemma WaitsRequestNothing(c: Config, input: Input, n: nat)
    requires n < |Known(c.definition)| && !Known(c.definition)[n].NotifyStep?
    ensures RequestFor(c, input, n).None?
  {
  }

  lemma EndIsInReach(c: Config, s: World, r: RunId, input: Input)
    requires AtTheEnd(c, s, r, input)
    ensures |s.rows| <= |Known(c.definition)|
  {
  }

  lemma {:induction false} Proceeds(c: Config, s: World, r: RunId, input: Input) returns (steps: seq<Step>)
    requires Inv(c, s) && AtTheEnd(c, s, r, input) && Resolves(c, input)
    ensures Completes(c, s, steps, Requests(c, input, |s.rows|))
    decreases |Known(c.definition)| - |s.rows|, 0
  {
    hide Known, Inv, IsRun, After, RequestFor, Completes, AtTheEnd;
    var n := |s.rows|;
    EndIsInReach(c, s, r, input);
    if n == |Known(c.definition)| {
      steps := Ends(c, s, r, input);
    } else {
      assert StepResolves(c, input, n);
      assert [] + Requests(c, input, n + 1) == Requests(c, input, n + 1);
      var doing: seq<Step>;
      if Known(c.definition)[n].NotifyStep? {
        doing := Notifies(c, s, r, input);
        var rest := Proceeds(c, After(c, s, doing), r, input);
        CompletesAfter(c, s, doing, rest, [(n, RequestFor(c, input, n).value)], Requests(c, input, n + 1));
        steps := doing + rest;
      } else {
        WaitsRequestNothing(c, input, n);
        doing := Sleeps(c, s, r, input);
        var rest := Wakes(c, After(c, s, doing), r, input);
        CompletesAfter(c, s, doing, rest, [], Requests(c, input, n + 1));
        steps := doing + rest;
      }
    }
  }

  lemma {:induction false} Wakes(c: Config, s: World, r: RunId, input: Input) returns (steps: seq<Step>)
    requires Idle(c, s, r, input) && Resolves(c, input)
    ensures Completes(c, s, steps, Requests(c, input, |s.rows|))
    decreases |Known(c.definition)| - |s.rows|, 1
  {
    var waking := Resumes(c, s, r, input);
    var rest := Proceeds(c, After(c, s, waking), r, input);
    CompletesAfter(c, s, waking, rest, [], Requests(c, input, |s.rows|));
    steps := waking + rest;
  }

  /** The instance is there and has not ended, or a first trigger is there to create it. */
  lemma BecomesIdle(c: Config, s: World, r: RunId, eventInput: Input) returns (steps: seq<Step>)
    requires Inv(c, s) && !Final(s.status) && r !in s.runs
    ensures IsRun(c, s, steps)
    ensures var t := After(c, s, steps);
      && Idle(c, t, r, if s.status == Absent then eventInput else s.input)
      && t.rows == s.rows && t.published == s.published
  {
    hide Known, Inv;
    steps := [];
    if s.status == Running {
      steps := Next(c, s, [], Reap);
    } else if s.status == Absent {
      steps := Next(c, s, [], Deliver(r, eventInput));
      steps := Next(c, s, steps, ReadInstance(r));
      steps := Next(c, s, steps, CreateInstance(r));
      steps := Next(c, s, steps, Crash(r));
      assert s.runs[r := Triggered(eventInput)] - {r} == s.runs;
    }
    RunKeepsInv(c, s, steps);
  }

  /** From every reachable state of an instance that is not completed, failed or canceled, whatever runs have crashed in it,
    * some run completes it, provided the steps of its definition can be performed: it writes the rows still missing, and
    * publishes the notify steps that have no row, in their order, each once, and nothing else. */
  lemma CompletionStaysPossible(c: Config, before: seq<Step>, eventInput: Input) returns (steps: seq<Step>)
    requires IsRun(c, Init(), before) && !Final(After(c, Init(), before).status)
    requires var s := After(c, Init(), before); Resolves(c, if s.status == Absent then eventInput else s.input)
    ensures var s := After(c, Init(), before);
      Completes(c, s, steps, Requests(c, if s.status == Absent then eventInput else s.input, |s.rows|))
  {
    hide Known, Apply, Enabled, Inv, AtTheEnd;
    InvAlways(c, before);
    var s := After(c, Init(), before);
    var input := if s.status == Absent then eventInput else s.input;
    var r := Unused(s.runs.Keys);
    var idling := BecomesIdle(c, s, r, eventInput);
    var waking := Wakes(c, After(c, s, idling), r, input);
    CompletesAfter(c, s, idling, waking, [], Requests(c, input, |s.rows|));
    steps := idling + waking;
  }
}
