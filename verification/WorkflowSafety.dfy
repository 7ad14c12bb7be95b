/** What every run of the workflow machine keeps: durable replay, sleeps and waits never cut short, final statuses
  * absorbing, and a cancel that stops every live run at its next step. */
module WorkflowSafety {
  import opened StepNotify
  import opened Workflow
  import opened Wrappers

  // ---------------------------------------------------------------- the step log

  /** The keys are exactly 0..k-1. */
  ghost predicate Contiguous(rows: map<nat, StepRow>) {
    forall i: nat :: i in rows <==> i < |rows|
  }

  ghost predicate OutputFits(row: StepRow) {
    match row.action
    case Notify => row.output.Notified?
    case Wait => row.output.Until?
    case WaitForEvent => row.output.Null? || row.output.Received? || row.output.TimedOut?
  }

  /** Row `i` carries the action of the `i`-th known step. */
  ghost predicate RowFits(c: Config, i: nat, row: StepRow, now: nat) {
    && i < |Known(c.definition)|
    && row.action == ActionOf(Known(c.definition)[i])
    && OutputFits(row)
    && row.writtenAt <= now
  }

  /** The step is behind us at `now`: its sleep is over, its event or timeout has arrived. */
  ghost predicate Settled(row: StepRow, now: nat) {
    && (row.output.Until? ==> row.output.scheduledAt <= now)
    && !row.output.Null?
  }

  ghost predicate LogOk(c: Config, rows: map<nat, StepRow>, now: nat) {
    && Contiguous(rows)
    && (forall i :: i in rows ==> RowFits(c, i, rows[i], now))
    && (forall i, j :: i in rows && j in rows && i < j ==> Settled(rows[i], rows[j].writtenAt))
  }

  // ---------------------------------------------------------------- a run against the log

  /** What a run read is still true: fixed outputs are equal, and an output once filled stays filled. */
  ghost predicate SnapshotOk(outputs: map<nat, Output>, rows: map<nat, StepRow>) {
    forall i :: i in outputs ==>
      && i in rows
      && (outputs[i].Until? ==> rows[i].output == outputs[i])
      && (!outputs[i].Null? ==> !rows[i].output.Null?)
      && (rows[i].output.Until? ==> outputs[i].Until?)
  }

  ghost predicate Passed(s: World, index: nat) {
    forall j: nat :: j < index ==> j in s.rows && Settled(s.rows[j], s.now)
  }

  ghost predicate AtKnownStep(c: Config, s: World, ctx: RunContext, index: nat) {
    && s.status != Absent && ctx.input == s.input
    && SnapshotOk(ctx.outputs, s.rows) && Passed(s, index)
    && index <= |Known(c.definition)|
  }

  ghost predicate RunOk(c: Config, s: World, run: Run) {
    match run
    case Triggered(_) => true
    case Creating(_) => true
    case SawPending(input) => s.status != Absent && input == s.input
    case Claimed(input) => s.status != Absent && input == s.input
    case AtStep(ctx, index) => AtKnownStep(c, s, ctx, index)
    case NotCanceled(ctx, index) => AtKnownStep(c, s, ctx, index) && index < |Known(c.definition)|
    case Published(ctx, index, _) =>
      AtKnownStep(c, s, ctx, index) && index < |Known(c.definition)| && Known(c.definition)[index].NotifyStep?
    case TimerSet(ctx, index, _) =>
      AtKnownStep(c, s, ctx, index) && index < |Known(c.definition)| && DelayOf(Known(c.definition)[index]).Some?
    case WaiterOwed(_, _) => s.status != Absent
    case Ending(to) => s.status != Absent && to != Absent
  }

  ghost predicate RunsOk(c: Config, s: World) {
    forall r :: r in s.runs ==> RunOk(c, s, s.runs[r])
  }

  ghost predicate FillersOk(s: World) {
    forall f :: f in s.fillers ==> s.fillers[f].index in s.rows && s.rows[s.fillers[f].index].action == WaitForEvent
  }

  ghost predicate PublishedOk(c: Config, s: World) {
    forall p :: p in s.published ==>
      && p.0 < |Known(c.definition)| && p.0 <= |s.rows| && s.status != Absent
      && RequestFor(c, s.input, p.0) == Some(p.1)
  }

  ghost predicate NothingYet(s: World) {
    s.status == Absent ==> s.rows == map[] && s.published == []
  }

  ghost predicate Inv(c: Config, s: World) {
    LogOk(c, s.rows, s.now) && RunsOk(c, s) && FillersOk(s) && PublishedOk(c, s) && NothingYet(s)
  }

  // ---------------------------------------------------------------- every step only grows the log

  /** The log of `t` extends that of `s`: no row goes, none changes but for a wait for an event being filled, rows are
    * added at the end only, the clock never goes back, and a stored input stays. */
  ghost predicate Extends(s: World, t: World) {
    && s.now <= t.now
    && (s.status != Absent ==> t.status != Absent && t.input == s.input)
    && (forall i :: i in s.rows ==> i in t.rows && SameRow(s.rows[i], t.rows[i]))
  }

  ghost predicate SameRow(a: StepRow, b: StepRow) {
    && b.action == a.action && b.writtenAt == a.writtenAt
    && (a.action != WaitForEvent ==> b.output == a.output)
    && (!a.output.Null? ==> !b.output.Null?)
  }

  lemma StepExtends(c: Config, s: World, step: Step)
    requires Enabled(c, s, step) && Inv(c, s)
    ensures Extends(s, Apply(c, s, step))
  {
    hide RequestFor, Known, AdvanceRun, NewRow, AtKnownStep, Contiguous, RowFits;
  }

  lemma SettledStays(a: StepRow, b: StepRow, now: nat, later: nat)
    requires OutputFits(a) && OutputFits(b) && SameRow(a, b) && now <= later && Settled(a, now)
    ensures Settled(b, later)
  {
  }

  lemma AtKnownStepStays(c: Config, s: World, t: World, ctx: RunContext, index: nat)
    requires Extends(s, t) && AtKnownStep(c, s, ctx, index)
    requires LogOk(c, s.rows, s.now) && LogOk(c, t.rows, t.now)
    ensures AtKnownStep(c, t, ctx, index)
  {
    hide Known, Contiguous;
    forall j: nat | j < index
      ensures j in t.rows && Settled(t.rows[j], t.now)
    {
      assert RowFits(c, j, s.rows[j], s.now) && RowFits(c, j, t.rows[j], t.now);
      SettledStays(s.rows[j], t.rows[j], s.now, t.now);
    }
    assert SnapshotOk(ctx.outputs, t.rows) by {
      forall i | i in ctx.outputs
        ensures i in t.rows && RowFits(c, i, s.rows[i], s.now) && RowFits(c, i, t.rows[i], t.now)
      {
        assert i in s.rows;
      }
    }
  }

  lemma RunStaysOk(c: Config, s: World, t: World, run: Run)
    requires Extends(s, t) && RunOk(c, s, run)
    requires LogOk(c, s.rows, s.now) && LogOk(c, t.rows, t.now)
    ensures RunOk(c, t, run)
  {
    if run.AtStep? || run.NotCanceled? || run.Published? || run.TimerSet? {
      AtKnownStepStays(c, s, t, run.ctx, run.index);
    }
    hide AtKnownStep, LogOk, Known;
  }

  // ---------------------------------------------------------------- the log stays well formed

  lemma AppendKeepsLog(c: Config, rows: map<nat, StepRow>, row: StepRow, now: nat)
    requires LogOk(c, rows, now) && RowFits(c, |rows|, row, now) && row.writtenAt == now
    requires forall i :: i in rows ==> Settled(rows[i], now)
    ensures LogOk(c, rows[|rows| := row], now)
  {
    hide RowFits, Settled;
    var grown := rows[|rows| := row];
    assert |grown| == |rows| + 1;
    assert forall i :: i in rows ==> i < |rows| && grown[i] == rows[i];
  }

  lemma FillKeepsLog(c: Config, rows: map<nat, StepRow>, i: nat, output: Output, now: nat)
    requires LogOk(c, rows, now) && i in rows && rows[i].action == WaitForEvent
    requires output.Received? || output.TimedOut?
    ensures LogOk(c, rows[i := rows[i].(output := output)], now)
  {
    hide Known;
    var filled := rows[i := rows[i].(output := output)];
    assert filled.Keys == rows.Keys;
    assert |filled.Keys| == |filled| && |rows.Keys| == |rows|;
  }

  lemma TimePassesKeepsLog(c: Config, rows: map<nat, StepRow>, now: nat, later: nat)
    requires LogOk(c, rows, now) && now <= later
    ensures LogOk(c, rows, later)
  {
    hide Known, Contiguous, Settled;
  }

  lemma NewRowFits(c: Config, s: World, run: Run)
    requires RunOk(c, s, run) && (run.Published? || run.TimerSet?)
    ensures RowFits(c, run.index, NewRow(c, s, run), s.now)
  {
    hide AtKnownStep;
  }

  /** A run about to insert has passed every row there is: it writes at the end of the log. */
  lemma InsertsAtTheEnd(c: Config, s: World, ctx: RunContext, index: nat)
    requires Contiguous(s.rows) && AtKnownStep(c, s, ctx, index)
    ensures index <= |s.rows|
  {
    hide SnapshotOk;
    assert |s.rows| !in s.rows;
  }

  lemma InsertKeepsLog(c: Config, s: World, r: RunId)
    requires Inv(c, s) && Enabled(c, s, InsertRow(r))
    ensures LogOk(c, Apply(c, s, InsertRow(r)).rows, s.now)
  {
    hide Known, SnapshotOk, RowFits, Contiguous, FillersOk, PublishedOk;
    var run := s.runs[r];
    assert RunOk(c, s, run);
    if run.index !in s.rows {
      InsertsAtTheEnd(c, s, run.ctx, run.index);
      assert run.index == |s.rows| by {
        ContiguousHas(s.rows, run.index);
      }
      NewRowFits(c, s, run);
      forall i | i in s.rows
        ensures Settled(s.rows[i], s.now)
      {
        ContiguousHas(s.rows, i);
      }
      AppendKeepsLog(c, s.rows, NewRow(c, s, run), s.now);
    }
  }

  lemma ContiguousHas(rows: map<nat, StepRow>, i: nat)
    requires Contiguous(rows)
    ensures i in rows <==> i < |rows|
  {
  }

  lemma StepKeepsLog(c: Config, s: World, step: Step)
    requires Inv(c, s) && Enabled(c, s, step)
    ensures LogOk(c, Apply(c, s, step).rows, Apply(c, s, step).now)
  {
    hide Known, RunOk, RunsOk, PublishedOk, RequestFor, AdvanceRun, NewRow, LogOk;
    if step.InsertRow? {
      InsertKeepsLog(c, s, step.r);
    } else if step.Fill? {
      FillKeepsLog(c, s.rows, s.fillers[step.f].index, step.output, s.now);
    } else {
      TimePassesKeepsLog(c, s.rows, s.now, Apply(c, s, step).now);
    }
  }

  // ---------------------------------------------------------------- runs

  lemma AdvanceKeepsRun(c: Config, s: World, run: Run)
    requires Inv(c, s) && run.AtStep? && RunOk(c, s, run)
    ensures RunOk(c, s, AdvanceRun(c, s, run))
  {
    hide RequestFor, RunsOk, PublishedOk, FillersOk, NothingYet, Contiguous;
    var steps, index, outputs := Known(c.definition), run.index, run.ctx.outputs;
    if index < |steps| && ReplayStep(steps[index], outputs, index, s.now) == Replayed {
      assert index in outputs && index in s.rows;
      assert RowFits(c, index, s.rows[index], s.now);
      assert ActionOf(steps[index]) == s.rows[index].action;
      KnownAreKnown(c.definition);
      assert Settled(s.rows[index], s.now);
    }
  }

  /** The run a step moves, if it moves one. */
  function Mover(step: Step): Option<RunId> {
    match step
    case Deliver(r, _) => Some(r)
    case ReadInstance(r) => Some(r)
    case CreateInstance(r) => Some(r)
    case Claim(r) => Some(r)
    case ReadSteps(r) => Some(r)
    case Advance(r) => Some(r)
    case Publish(r, _) => Some(r)
    case SetTimer(r) => Some(r)
    case InsertRow(r) => Some(r)
    case InsertWaiter(r) => Some(r)
    case Finish(r) => Some(r)
    case Fail(r) => Some(r)
    case Crash(r) => Some(r)
    case _ => None
  }

  lemma OthersUntouched(c: Config, s: World, step: Step, r: RunId)
    requires Enabled(c, s, step) && Mover(step) != Some(r)
    ensures (r in Apply(c, s, step).runs) == (r in s.runs)
    ensures r in s.runs ==> Apply(c, s, step).runs[r] == s.runs[r]
  {
    hide RequestFor, Known, AdvanceRun, NewRow;
  }

  lemma MoverStaysOk(c: Config, s: World, step: Step, r: RunId)
    requires Inv(c, s) && Enabled(c, s, step) && Mover(step) == Some(r) && r in Apply(c, s, step).runs
    ensures RunOk(c, Apply(c, s, step), Apply(c, s, step).runs[r])
  {
    var t := Apply(c, s, step);
    if r in s.runs {
      var run := s.runs[r];
      assert RunOk(c, s, run);
      match step
      case Advance(_) => AdvanceKeepsRun(c, s, run); RunStaysOk(c, s, t, AdvanceRun(c, s, run));
      case InsertRow(_) => InsertKeepsRun(c, s, r);
      case _ =>
    }
  }

  lemma InsertKeepsRun(c: Config, s: World, r: RunId)
    requires Inv(c, s) && Enabled(c, s, InsertRow(r))
    ensures RunOk(c, Apply(c, s, InsertRow(r)), Apply(c, s, InsertRow(r)).runs[r])
  {
    var run, t := s.runs[r], Apply(c, s, InsertRow(r));
    assert RunOk(c, s, run);
    StepExtends(c, s, InsertRow(r));
    InsertKeepsLog(c, s, r);
    if run.Published? && run.index !in s.rows {
      RunStaysOk(c, s, t, run);
      assert Settled(t.rows[run.index], t.now);
    }
  }

  lemma StepKeepsRuns(c: Config, s: World, step: Step)
    requires Inv(c, s) && Enabled(c, s, step)
    ensures RunsOk(c, Apply(c, s, step))
  {
    hide Apply, Enabled, RunOk, Contiguous, RowFits, Settled, FillersOk, PublishedOk, Known, Extends;
    var t := Apply(c, s, step);
    StepExtends(c, s, step);
    StepKeepsLog(c, s, step);
    forall r | r in t.runs
      ensures RunOk(c, t, t.runs[r])
    {
      if Mover(step) == Some(r) {
        MoverStaysOk(c, s, step, r);
      } else {
        OthersUntouched(c, s, step, r);
        RunStaysOk(c, s, t, s.runs[r]);
      }
    }
  }

  // ---------------------------------------------------------------- what is published

  lemma StepKeepsPublished(c: Config, s: World, step: Step)
    requires Inv(c, s) && Enabled(c, s, step)
    ensures PublishedOk(c, Apply(c, s, step))
  {
    hide Known, RequestFor, AdvanceRun, NewRow, LogOk, SnapshotOk, RunsOk;
    StepExtends(c, s, step);
    StepKeepsLog(c, s, step);
    LogOnlyGrows(c, s, Apply(c, s, step));
    if step.Publish? {
      assert RunOk(c, s, s.runs[step.r]) by {
        assert RunsOk(c, s);
        OneRunOk(c, s, step.r);
      }
      LogIsContiguous(c, s.rows, s.now);
      InsertsAtTheEnd(c, s, s.runs[step.r].ctx, s.runs[step.r].index);
    }
  }

  lemma OneRunOk(c: Config, s: World, r: RunId)
    requires RunsOk(c, s) && r in s.runs
    ensures RunOk(c, s, s.runs[r])
  {
  }

  lemma LogIsContiguous(c: Config, rows: map<nat, StepRow>, now: nat)
    requires LogOk(c, rows, now)
    ensures Contiguous(rows)
  {
  }

  lemma LogOnlyGrows(c: Config, s: World, t: World)
    requires Extends(s, t) && LogOk(c, s.rows, s.now) && LogOk(c, t.rows, t.now)
    ensures |s.rows| <= |t.rows|
  {
    hide RowFits, Settled;
    if |s.rows| > 0 {
      assert |s.rows| - 1 in s.rows;
      assert |s.rows| - 1 in t.rows;
    }
  }

  lemma StepKeepsRest(c: Config, s: World, step: Step)
    requires Inv(c, s) && Enabled(c, s, step)
    ensures FillersOk(Apply(c, s, step)) && NothingYet(Apply(c, s, step))
  {
    hide Known, RequestFor, AdvanceRun, NewRow, LogOk, PublishedOk, SnapshotOk, Passed;
    StepExtends(c, s, step);
    if step.InsertRow? || step.Publish? {
      OneRunOk(c, s, step.r);
    }
  }

  lemma StepKeepsInv(c: Config, s: World, step: Step)
    requires Inv(c, s) && Enabled(c, s, step)
    ensures Inv(c, Apply(c, s, step)) && Extends(s, Apply(c, s, step))
  {
    hide Apply, Enabled, LogOk, RunsOk, FillersOk, PublishedOk, NothingYet, Extends;
    StepExtends(c, s, step);
    StepKeepsLog(c, s, step);
    StepKeepsRuns(c, s, step);
    StepKeepsPublished(c, s, step);
    StepKeepsRest(c, s, step);
  }

  lemma ExtendsTrans(s: World, t: World, u: World)
    requires Extends(s, t) && Extends(t, u)
    ensures Extends(s, u)
  {
  }

  lemma {:induction false} RunKeepsInv(c: Config, s: World, steps: seq<Step>)
    requires Inv(c, s) && IsRun(c, s, steps)
    ensures Inv(c, After(c, s, steps)) && Extends(s, After(c, s, steps))
    decreases |steps|
  {
    if steps == [] {
      hide Inv;
    } else {
      hide Inv, Apply, Enabled, Extends;
      var t := Apply(c, s, steps[0]);
      StepKeepsInv(c, s, steps[0]);
      RunKeepsInv(c, t, steps[1..]);
      ExtendsTrans(s, t, After(c, t, steps[1..]));
    }
  }

  lemma InvAlways(c: Config, steps: seq<Step>)
    requires IsRun(c, Init(), steps)
    ensures Inv(c, After(c, Init(), steps))
  {
    RunKeepsInv(c, Init(), steps);
  }

  // ---------------------------------------------------------------- main results

  /** Durable replay. In every reachable state the stored steps are 0..k-1 for some k no longer than the definition, row
    * `i` carries the action of the `i`-th known step, and all events ever published for one index are one and the same
    * event: one key, one payload, fixed by the definition and the instance's stored input. */
  lemma ReplayIsDurable(c: Config, steps: seq<Step>)
    requires IsRun(c, Init(), steps)
    ensures var s := After(c, Init(), steps);
      && |s.rows| <= |Known(c.definition)|
      && (forall i: nat :: i in s.rows <==> i < |s.rows|)
      && (forall i: nat :: i < |s.rows| ==> s.rows[i].action == ActionOf(Known(c.definition)[i]))
      && (forall p :: p in s.published ==>
            p.0 <= |s.rows| && p.0 < |Known(c.definition)|
            && RequestFor(c, s.input, p.0) == Some(p.1) && p.1.key == Key(c.instance, p.0))
      && (forall p, q :: p in s.published && q in s.published && p.0 == q.0 ==> p.1 == q.1)
  {
    InvAlways(c, steps);
    var s := After(c, Init(), steps);
    if |s.rows| > 0 {
      assert |s.rows| - 1 in s.rows && RowFits(c, |s.rows| - 1, s.rows[|s.rows| - 1], s.now);
    }
  }

  /** Sleeps and waits are never cut short. In every reachable state, a row after a wait was written no earlier than the
    * wake-up that wait recorded, and a wait for an event still unresolved is the last row, so there is at most one. */
  lemma SleepsAreNeverCutShort(c: Config, steps: seq<Step>)
    requires IsRun(c, Init(), steps)
    ensures var s := After(c, Init(), steps);
      && (forall i, j :: i in s.rows && j in s.rows && i < j && s.rows[i].action == Wait ==>
            s.rows[i].output.Until? && s.rows[i].output.scheduledAt <= s.rows[j].writtenAt)
      && (forall i :: i in s.rows && s.rows[i].output.Null? ==> i == |s.rows| - 1)
  {
    InvAlways(c, steps);
    var s := After(c, Init(), steps);
    forall i, j | i in s.rows && j in s.rows && i < j
      ensures Settled(s.rows[i], s.rows[j].writtenAt) && RowFits(c, i, s.rows[i], s.now)
    {
    }
    assert |s.rows| > 0 ==> |s.rows| - 1 in s.rows;
  }

  /** The log is append only: whatever happens after a reachable state, its rows stay, with their action, the time they
    * were written and their output; only an unresolved wait for an event changes, and it never becomes unresolved again.
    * Times out or is answered twice: the later answer stands, still never null. */
  lemma LogIsAppendOnly(c: Config, before: seq<Step>, more: seq<Step>)
    requires IsRun(c, Init(), before) && IsRun(c, After(c, Init(), before), more)
    ensures var s := After(c, Init(), before); var t := After(c, s, more);
      forall i :: i in s.rows ==>
        && i in t.rows && t.rows[i].action == s.rows[i].action && t.rows[i].writtenAt == s.rows[i].writtenAt
        && (s.rows[i].action != WaitForEvent ==> t.rows[i].output == s.rows[i].output)
        && (!s.rows[i].output.Null? ==> !t.rows[i].output.Null?)
  {
    hide Inv, Apply, Enabled;
    InvAlways(c, before);
    RunKeepsInv(c, After(c, Init(), before), more);
  }

  // ---------------------------------------------------------------- status

  predicate Final(status: Status) {
    status == Completed || status == Failed || status == Canceled
  }

  /** Completed, failed and canceled are absorbing: no run of the machine leaves them, from any state whatever. */
  lemma {:induction false} FinalStatusesAbsorb(c: Config, s: World, steps: seq<Step>)
    requires IsRun(c, s, steps) && Final(s.status)
    ensures After(c, s, steps).status == s.status
    decreases |steps|
  {
    if steps != [] {
      FinalStays(c, s, steps[0]);
      hide Apply, Enabled;
      FinalStatusesAbsorb(c, Apply(c, s, steps[0]), steps[1..]);
    }
  }

  lemma FinalStays(c: Config, s: World, step: Step)
    requires Enabled(c, s, step) && Final(s.status)
    ensures Apply(c, s, step).status == s.status
  {
    hide Known, RequestFor, AdvanceRun, NewRow;
  }

  // ---------------------------------------------------------------- cancel

  /** Rows, and events, that run `r` still writes in `steps`. */
  function RowsBy(c: Config, s: World, steps: seq<Step>, r: RunId): nat
    requires IsRun(c, s, steps)
    decreases |steps|
  {
    if steps == [] then 0
    else
      var t := Apply(c, s, steps[0]);
      (if steps[0] == InsertRow(r) && |t.rows| > |s.rows| then 1 else 0) + RowsBy(c, t, steps[1..], r)
  }

  function EventsBy(c: Config, s: World, steps: seq<Step>, r: RunId): nat
    requires IsRun(c, s, steps)
    decreases |steps|
  {
    if steps == [] then 0
    else (if steps[0].Publish? && steps[0].r == r then 1 else 0) + EventsBy(c, Apply(c, s, steps[0]), steps[1..], r)
  }

  /** A run past its `stopIfCanceled`, so still owed a write. */
  function RowsOwed(s: World, r: RunId): nat {
    if r in s.runs && (s.runs[r].NotCanceled? || s.runs[r].Published? || s.runs[r].TimerSet?) then 1 else 0
  }

  function EventsOwed(s: World, r: RunId): nat {
    if r in s.runs && s.runs[r].NotCanceled? then 1 else 0
  }

  /** Once a cancel has committed, a run writes at most one further row and publishes at most one further event, and only
    * if it was already past its check when the cancel landed; a run that starts later writes nothing. */
  lemma {:induction false} CancelStopsEveryRun(c: Config, s: World, steps: seq<Step>, r: RunId)
    requires IsRun(c, s, steps) && s.status == Canceled
    ensures RowsBy(c, s, steps, r) <= RowsOwed(s, r)
    ensures EventsBy(c, s, steps, r) <= EventsOwed(s, r)
    decreases |steps|
  {
    if steps != [] {
      var t := Apply(c, s, steps[0]);
      CanceledStep(c, s, steps[0], r);
      FinalStays(c, s, steps[0]);
      hide Apply, Enabled, RowsOwed, EventsOwed;
      CancelStopsEveryRun(c, t, steps[1..], r);
    }
  }

  lemma CanceledStep(c: Config, s: World, step: Step, r: RunId)
    requires Enabled(c, s, step) && s.status == Canceled
    ensures var t := Apply(c, s, step);
      && (if step == InsertRow(r) && |t.rows| > |s.rows| then 1 else 0) + RowsOwed(t, r) <= RowsOwed(s, r)
      && (if step.Publish? && step.r == r then 1 else 0) + EventsOwed(t, r) <= EventsOwed(s, r)
  {
    if Mover(step) == Some(r) {
      hide Known, RequestFor, NewRow;
    } else {
      OthersUntouched(c, s, step, r);
      hide Apply, Enabled;
    }
  }
}
