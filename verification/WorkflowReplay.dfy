/** What a run does with the log it has read (src/services/workflow/main.ts): a step with a row is never performed again, a
  * resumed run goes on exactly where the log ends, a sleep lasts its full time, and whatever has happened before, an
  * instance that has not ended can still be brought to completion. */
module WorkflowReplay {
  import opened Workflow
  import opened WorkflowSafety

  // ---------------------------------------------------------------- a recorded step is not repeated

  /** The run is past its checks and about to perform a step, or has begun to. */
  predicate Performing(run: Run) {
    run.NotCanceled? || run.Published? || run.TimerSet?
  }

  /** Run `r` has read the log with row `i` in it, and is not performing step `i`. */
  ghost predicate Knows(s: World, r: RunId, i: nat) {
    r in s.runs ==>
      match s.runs[r]
      case AtStep(ctx, _) => i in ctx.outputs
      case NotCanceled(ctx, index) => i in ctx.outputs && index != i
      case Published(ctx, index, _) => i in ctx.outputs && index != i
      case TimerSet(ctx, index, _) => i in ctx.outputs && index != i
      case WaiterOwed(_, _) => true
      case Ending(_) => true
      case _ => false
  }

  /** Run `r` neither publishes nor sets a timer for step `i`. */
  ghost predicate NeverPerforms(c: Config, s: World, steps: seq<Step>, r: RunId, i: nat)
    requires IsRun(c, s, steps)
    decreases |steps|
  {
    steps == [] ||
    (((steps[0].Publish? || steps[0].SetTimer?) && steps[0].r == r ==> s.runs[r].index != i) &&
     NeverPerforms(c, Apply(c, s, steps[0]), steps[1..], r, i))
  }

  lemma KnowsStays(c: Config, s: World, step: Step, r: RunId, i: nat)
    requires Enabled(c, s, step) && Knows(s, r, i) && !(step.Deliver? && step.r == r)
    ensures Knows(Apply(c, s, step), r, i)
  {
    hide Known, RequestFor, NewRow;
  }

  lemma {:induction false} KnowingRunNeverPerforms(c: Config, s: World, steps: seq<Step>, r: RunId, i: nat)
    requires IsRun(c, s, steps) && Knows(s, r, i)
    requires forall k :: 0 <= k < |steps| ==> !(steps[k].Deliver? && steps[k].r == r)
    ensures NeverPerforms(c, s, steps, r, i)
    decreases |steps|
  {
    if steps != [] {
      KnowsStays(c, s, steps[0], r, i);
      assert forall k :: 0 <= k < |steps[1..]| ==> steps[1..][k] == steps[k + 1];
      KnowingRunNeverPerforms(c, Apply(c, s, steps[0]), steps[1..], r, i);
      hide Apply, Knows;
    }
  }

  /** A run that reads its steps once row `i` is written never performs step `i`, whatever everyone else does meanwhile: a
    * resumed workflow does not publish a notify of its log again. */
  lemma RecordedStepsAreNeverRepeated(c: Config, s: World, steps: seq<Step>, r: RunId, i: nat)
    requires i in s.rows && Enabled(c, s, ReadSteps(r)) && IsRun(c, Apply(c, s, ReadSteps(r)), steps)
    requires forall k :: 0 <= k < |steps| ==> !(steps[k].Deliver? && steps[k].r == r)
    ensures NeverPerforms(c, Apply(c, s, ReadSteps(r)), steps, r, i)
  {
    KnowingRunNeverPerforms(c, Apply(c, s, ReadSteps(r)), steps, r, i);
  }

  // ---------------------------------------------------------------- a resumed run goes on where the log ends

  /** For a stored row, passing it is the same as its being settled. */
  lemma PassesExactlySettled(c: Config, i: nat, row: StepRow, now: nat)
    requires RowFits(c, i, row, now)
    ensures Unanswered(Known(c.definition)[i], row.output, now) <==> !Settled(row, now)
  {
    KnownAreKnown(c.definition);
  }

  /** The outputs a run reads from the log. */
  function OutputsOf(rows: map<nat, StepRow>): (outputs: map<nat, Output>) {
    map i | i in rows :: rows[i].output
  }

  /** The log ends with a sleep that is not over or an event that has not come. */
  ghost predicate Asleep(s: World) {
    var last := |s.rows| - 1;
    last in s.rows && !Settled(s.rows[last], s.now)
  }

  /** The rows before the last answer for their steps; the last one does exactly if it is settled. */
  lemma LogAnswers(c: Config, s: World)
    requires LogOk(c, s.rows, s.now)
    ensures |s.rows| <= |Known(c.definition)| && |s.rows| !in s.rows
    ensures !Asleep(s) ==> Answers(c.definition, OutputsOf(s.rows), |s.rows|, s.now)
    ensures Asleep(s) ==>
              && |s.rows| > 0
              && Answers(c.definition, OutputsOf(s.rows), |s.rows| - 1, s.now)
              && Unanswered(Known(c.definition)[|s.rows| - 1], s.rows[|s.rows| - 1].output, s.now)
  {
    hide Known;
    var n := |s.rows|;
    ContiguousHas(s.rows, n);
    forall i: nat | i < n
      ensures i in s.rows && RowFits(c, i, s.rows[i], s.now)
    {
      ContiguousHas(s.rows, i);
    }
    if n > 0 {
      assert RowFits(c, n - 1, s.rows[n - 1], s.now);
    }
    forall i: nat | i < n
      ensures Unanswered(Known(c.definition)[i], s.rows[i].output, s.now) <==> !Settled(s.rows[i], s.now)
      ensures i < n - 1 ==> Settled(s.rows[i], s.now)
    {
      PassesExactlySettled(c, i, s.rows[i], s.now);
      if i < n - 1 {
        assert Settled(s.rows[i], s.rows[n - 1].writtenAt);
      }
    }
  }

  /** Where a run that reads the log now stands after as many advances as it takes. */
  function Resumed(c: Config, s: World, n: nat): (run: Run) {
    AdvanceTimes(c, s, AtStep(RunContext(s.input, OutputsOf(s.rows)), 0), n)
  }

  lemma ResumesAtTheEnd(c: Config, s: World)
    requires LogOk(c, s.rows, s.now)
    ensures Asleep(s) ==> Resumed(c, s, |s.rows|) == Ending(Pending)
    ensures !Asleep(s) ==>
              && Resumed(c, s, |s.rows|) == AtStep(RunContext(s.input, OutputsOf(s.rows)), |s.rows|)
              && Resumed(c, s, |s.rows| + 1) ==
                 if |s.rows| == |Known(c.definition)| then Ending(Completed)
                 else if s.status == Canceled then Ending(Canceled)
                 else NotCanceled(RunContext(s.input, OutputsOf(s.rows)), |s.rows|)
  {
    LogAnswers(c, s);
    hide Known, LogOk, Answers, AdvanceTimes, Unanswered, Settled;
    AdvancesAsReplayed(c, s, RunContext(s.input, OutputsOf(s.rows)), if Asleep(s) then |s.rows| - 1 else |s.rows|);
  }

  /** In every reachable state, a run that reads the log and advances suspends again exactly if the last row is a sleep that
    * is not over or an event that has not come; else it completes if the log is complete, and otherwise performs the step
    * right after the log, unless the instance is canceled. */
  lemma ResumesWhereTheLogEnds(c: Config, before: seq<Step>, r: RunId)
    requires IsRun(c, Init(), before) && Enabled(c, After(c, Init(), before), ReadSteps(r))
    ensures var s := After(c, Init(), before);
      var run, n := Apply(c, s, ReadSteps(r)).runs[r], |s.rows|;
      && (Asleep(s) ==> AdvanceTimes(c, s, run, n) == Ending(Pending))
      && (!Asleep(s) ==>
            AdvanceTimes(c, s, run, n + 1) ==
            if n == |Known(c.definition)| then Ending(Completed)
            else if s.status == Canceled then Ending(Canceled)
            else NotCanceled(run.ctx, n))
  {
    InvAlways(c, before);
    var s := After(c, Init(), before);
    assert RunOk(c, s, s.runs[r]);
    hide Known, IsRun, After, AdvanceTimes, LogOk;
    ResumesAtTheEnd(c, s);
  }

  // ---------------------------------------------------------------- a sleep lasts its full time

  /** The timer of step `i` was set once every earlier row was written, and for the step's own time ahead. */
  ghost predicate FullTime(c: Config, rows: map<nat, StepRow>, i: nat, resumeAt: nat, now: nat)
    requires i < |Known(c.definition)|
  {
    && DelayOf(Known(c.definition)[i]).Some?
    && resumeAt <= now + DelayOf(Known(c.definition)[i]).value
    && forall j :: j in rows && j < i ==> rows[j].writtenAt + DelayOf(Known(c.definition)[i]).value <= resumeAt
  }

  ghost predicate TimesOk(c: Config, s: World) {
    && (forall i :: i in s.rows && s.rows[i].action == Wait ==>
          && i < |Known(c.definition)| && s.rows[i].output.Until?
          && FullTime(c, s.rows, i, s.rows[i].output.scheduledAt, s.rows[i].writtenAt))
    && (forall r :: r in s.runs && s.runs[r].TimerSet? ==>
          && s.runs[r].index < |Known(c.definition)|
          && FullTime(c, s.rows, s.runs[r].index, s.runs[r].resumeAt, s.now))
  }

  lemma TimerIsFullTime(c: Config, s: World, r: RunId)
    requires Inv(c, s) && Enabled(c, s, SetTimer(r))
    ensures var run := Apply(c, s, SetTimer(r)).runs[r]; FullTime(c, s.rows, run.index, run.resumeAt, s.now)
  {
    assert forall j :: j in s.rows ==> RowFits(c, j, s.rows[j], s.now);
    hide Known, RunsOk, PublishedOk, FillersOk, NothingYet, Contiguous, Settled;
  }

  /** A row added at the end of the log is before no step that a timer is set for. */
  lemma GrownLogKeepsTime(c: Config, rows: map<nat, StepRow>, row: StepRow, i: nat, resumeAt: nat, now: nat, later: nat)
    requires i < |Known(c.definition)| && FullTime(c, rows, i, resumeAt, now) && i <= |rows| && now <= later
    ensures FullTime(c, rows[|rows| := row], i, resumeAt, later)
  {
    hide Known;
  }

  lemma InsertKeepsTimes(c: Config, s: World, r: RunId)
    requires Inv(c, s) && TimesOk(c, s) && Enabled(c, s, InsertRow(r))
    ensures TimesOk(c, Apply(c, s, InsertRow(r)))
  {
    var run, t := s.runs[r], Apply(c, s, InsertRow(r));
    OneRunOk(c, s, r);
    hide FullTime, Known, RowFits, Settled, PublishedOk, FillersOk, RunsOk, NothingYet, SnapshotOk;
    if run.index !in s.rows {
      InsertsAtTheEnd(c, s, run.ctx, run.index);
      ContiguousHas(s.rows, run.index);
      var row := NewRow(c, s, run);
      forall i | i in t.rows && t.rows[i].action == Wait
        ensures i < |Known(c.definition)| && t.rows[i].output.Until?
        ensures FullTime(c, t.rows, i, t.rows[i].output.scheduledAt, t.rows[i].writtenAt)
      {
        if i == run.index {
          WaitRowIsTimed(c, s, run);
          GrownLogKeepsTime(c, s.rows, row, i, run.resumeAt, s.now, s.now);
        } else {
          ContiguousHas(s.rows, i);
          GrownLogKeepsTime(c, s.rows, row, i, s.rows[i].output.scheduledAt, s.rows[i].writtenAt, s.rows[i].writtenAt);
        }
      }
      forall q | q in t.runs && t.runs[q].TimerSet?
        ensures t.runs[q].index < |Known(c.definition)| && FullTime(c, t.rows, t.runs[q].index, t.runs[q].resumeAt, t.now)
      {
        assert q in s.runs && s.runs[q] == t.runs[q];
        OneRunOk(c, s, q);
        InsertsAtTheEnd(c, s, s.runs[q].ctx, s.runs[q].index);
        GrownLogKeepsTime(c, s.rows, row, s.runs[q].index, s.runs[q].resumeAt, s.now, s.now);
      }
    }
  }

  lemma WaitRowIsTimed(c: Config, s: World, run: Run)
    requires (run.Published? || run.TimerSet?) && RunOk(c, s, run) && NewRow(c, s, run).action == Wait
    ensures run.TimerSet? && NewRow(c, s, run).output == Until(run.resumeAt) && NewRow(c, s, run).writtenAt == s.now
  {
  }

  lemma SameLogKeepsTimes(c: Config, rows: map<nat, StepRow>, rows': map<nat, StepRow>, i: nat, resumeAt: nat, now: nat, later: nat)
    requires i < |Known(c.definition)| && FullTime(c, rows, i, resumeAt, now) && now <= later
    requires rows'.Keys == rows.Keys && forall j :: j in rows ==> rows'[j].writtenAt == rows[j].writtenAt
    ensures FullTime(c, rows', i, resumeAt, later)
  {
    hide Known;
  }

  lemma StepKeepsTimes(c: Config, s: World, step: Step)
    requires Inv(c, s) && TimesOk(c, s) && Enabled(c, s, step)
    ensures TimesOk(c, Apply(c, s, step))
  {
    hide Inv, FullTime, Known, Apply, Enabled;
    if step.InsertRow? {
      InsertKeepsTimes(c, s, step.r);
    } else {
      var t := Apply(c, s, step);
      if step.SetTimer? {
        TimerIsFullTime(c, s, step.r);
      }
      QuietForRows(c, s, step);
      forall i | i in t.rows && t.rows[i].action == Wait
        ensures i < |Known(c.definition)| && t.rows[i].output.Until?
        ensures FullTime(c, t.rows, i, t.rows[i].output.scheduledAt, t.rows[i].writtenAt)
      {
        SameLogKeepsTimes(c, s.rows, t.rows, i, s.rows[i].output.scheduledAt, s.rows[i].writtenAt, s.rows[i].writtenAt);
      }
      forall q | q in t.runs && t.runs[q].TimerSet?
        ensures t.runs[q].index < |Known(c.definition)| && FullTime(c, t.rows, t.runs[q].index, t.runs[q].resumeAt, t.now)
      {
        if step != SetTimer(q) {
          SameTimer(c, s, step, q);
          SameLogKeepsTimes(c, s.rows, t.rows, s.runs[q].index, s.runs[q].resumeAt, s.now, t.now);
        } else {
          TimerAt(c, s, q);
        }
      }
    }
  }

  lemma QuietForRows(c: Config, s: World, step: Step)
    requires Inv(c, s) && Enabled(c, s, step) && !step.InsertRow?
    ensures var t := Apply(c, s, step);
      && s.now <= t.now && t.rows.Keys == s.rows.Keys
      && forall i :: i in s.rows ==>
           t.rows[i].action == s.rows[i].action && t.rows[i].writtenAt == s.rows[i].writtenAt
           && (s.rows[i].action == Wait ==> t.rows[i] == s.rows[i])
  {
    hide Known, RequestFor, AdvanceRun, LogOk, RunsOk, PublishedOk, NothingYet;
  }

  lemma TimerAt(c: Config, s: World, r: RunId)
    requires Enabled(c, s, SetTimer(r))
    ensures var t := Apply(c, s, SetTimer(r)); t.rows == s.rows && t.now == s.now && t.runs[r].index == s.runs[r].index
    ensures s.runs[r].index < |Known(c.definition)|
  {
    hide Known;
  }

  lemma SameTimer(c: Config, s: World, step: Step, q: RunId)
    requires Enabled(c, s, step) && !step.InsertRow? && step != SetTimer(q)
    requires q in Apply(c, s, step).runs && Apply(c, s, step).runs[q].TimerSet?
    ensures q in s.runs && s.runs[q] == Apply(c, s, step).runs[q]
  {
    hide Known, RequestFor, NewRow;
  }

  lemma {:induction false} RunKeepsTimes(c: Config, s: World, steps: seq<Step>)
    requires Inv(c, s) && TimesOk(c, s) && IsRun(c, s, steps)
    ensures TimesOk(c, After(c, s, steps))
    decreases |steps|
  {
    if steps != [] {
      hide Inv, TimesOk, Apply, Enabled;
      StepKeepsInv(c, s, steps[0]);
      StepKeepsTimes(c, s, steps[0]);
      RunKeepsTimes(c, Apply(c, s, steps[0]), steps[1..]);
    }
  }

  /** A wait of `ms` lasts `ms`: its wake-up is at least that long after every earlier row was written and at most that long
    * after its own, so between the rows before it and those after it lie at least `ms`. */
  lemma SleepsLastTheirTime(c: Config, steps: seq<Step>, i: nat)
    requires IsRun(c, Init(), steps) && i in After(c, Init(), steps).rows && After(c, Init(), steps).rows[i].action == Wait
    ensures var rows := After(c, Init(), steps).rows;
      i < |Known(c.definition)| && Known(c.definition)[i].WaitStep? && Known(c.definition)[i].ms.Some?
      && var ms := Known(c.definition)[i].ms.value;
      && rows[i].output.Until? && rows[i].output.scheduledAt <= rows[i].writtenAt + ms
      && (forall j :: j in rows && j < i ==> rows[j].writtenAt + ms <= rows[i].output.scheduledAt)
      && (forall j, k :: j in rows && k in rows && j < i < k ==> rows[j].writtenAt + ms <= rows[k].writtenAt)
  {
    InvAlways(c, steps);
    RunKeepsTimes(c, Init(), steps);
    SleepsAreNeverCutShort(c, steps);
    var s := After(c, Init(), steps);
    assert RowFits(c, i, s.rows[i], s.now);
    KnownAreKnown(c.definition);
    hide Known, IsRun, After;
  }

  // ---------------------------------------------------------------- triggers

  predicate Ended(status: Status) {
    status == Completed || status == Failed || status == Canceled
  }

  /** What a trigger finds: it creates an instance that is not there, goes on to claim one that is pending, with the input it
    * was created with, and leaves every other alone. */
  lemma TriggerFinds(c: Config, s: World, r: RunId)
    requires r in s.runs && s.runs[r].Triggered?
    ensures var t := Apply(c, s, ReadInstance(r));
      && t == s.(runs := t.runs) && t.runs - {r} == s.runs - {r}
      && (r !in t.runs <==> s.status == Running || Ended(s.status))
      && (r in t.runs && t.runs[r] == Creating(s.runs[r].eventInput) <==> s.status == Absent)
      && (r in t.runs && t.runs[r] == SawPending(s.input) <==> s.status == Pending)
  {
  }

  /** Of two triggers that find an instance absent, or pending, only one goes on: the other finds it created, or claimed. */
  lemma OneOfTwoClaims(c: Config, s: World, q: RunId, r: RunId)
    requires q != r && q in s.runs && r in s.runs
    requires s.runs[q].SawPending? && s.runs[r].SawPending?
    ensures Enabled(c, Apply(c, s, Claim(q)), Claim(r))
    ensures var t := Apply(c, Apply(c, s, Claim(q)), Claim(r));
      && r !in t.runs && t.status == Apply(c, s, Claim(q)).status
      && (q in t.runs <==> s.status == Pending)
      && (q in t.runs ==> t.runs[q] == Claimed(s.runs[q].input) && t.status == Running)
  {
  }

  lemma OneOfTwoCreates(c: Config, s: World, q: RunId, r: RunId)
    requires q != r && q in s.runs && r in s.runs
    requires s.runs[q].Creating? && s.runs[r].Creating?
    ensures Enabled(c, Apply(c, s, CreateInstance(q)), CreateInstance(r))
    ensures var t := Apply(c, Apply(c, s, CreateInstance(q)), CreateInstance(r));
      && r !in t.runs
      && (q in t.runs <==> s.status == Absent)
      && (q in t.runs ==> t.status == Pending && t.input == s.runs[q].eventInput && t.runs[q] == SawPending(t.input))
  {
  }
}
