/** Quiet hours (src/services/engine/quiet-hours.ts): from any instant, jump to the end of the window that covers it,
  * again and again. In a zone with a fixed whole-minute offset the answer is meant to be the first instant that no
  * window covers.
  *
  * Instants are milliseconds since the epoch. A calendar date is the number of its day since the epoch, which is what
  * `Date.UTC` and `formatToParts` translate to and from. */
module QuietHours {
  import opened Counting

  const MAX_CHAINED_CHECKS: nat := 10

  /** A window in minutes of the local day, `HH:MM` each; an entry without a minute part is skipped. A window whose
    * start is after its end runs over midnight. */
  datatype Window = Malformed | Window(start: nat, end: nat)

  predicate ValidWindow(w: Window) {
    w.Window? ==> w.start < 1440 && w.end < 1440
  }

  predicate ValidWindows(ws: seq<Window>) {
    forall i :: 0 <= i < |ws| ==> ValidWindow(ws[i])
  }

  /** A wall-clock reading. */
  datatype Parts = Parts(day: int, hour: int, minute: int, second: int)

  function DateUtc(p: Parts): (ms: int) {
    p.day * 86_400_000 + p.hour * 3_600_000 + p.minute * 60_000 + p.second * 1000
  }

  /** What a formatter for a zone `offset` minutes ahead of UTC shows at an instant. */
  function FormatToParts(at: int, offset: int): (p: Parts) {
    var local := at + offset * 60_000;
    var inDay := local % 86_400_000;
    Parts(local / 86_400_000, inDay / 3_600_000, inDay % 3_600_000 / 60_000, inDay % 60_000 / 1000)
  }

  function MinuteOfDay(at: int, offset: int): (m: nat) {
    (at + offset * 60_000) % 86_400_000 / 60_000
  }

  lemma FormatIsExact(at: int, offset: int)
    ensures var p := FormatToParts(at, offset);
            && DateUtc(p) == at + offset * 60_000 - (at + offset * 60_000) % 1000
            && p.hour * 60 + p.minute == MinuteOfDay(at, offset)
            && 0 <= p.second < 60
  {
    var local := at + offset * 60_000;
    SplitDay(local % 86_400_000);
    WholeSecond(local / 86_400_000, local % 86_400_000);
  }

  lemma SplitDay(inDay: int)
    requires 0 <= inDay < 86_400_000
    ensures var h, m, s := inDay / 3_600_000, inDay % 3_600_000 / 60_000, inDay % 60_000 / 1000;
            && h * 3_600_000 + m * 60_000 + s * 1000 == inDay - inDay % 1000
            && h * 60 + m == inDay / 60_000 && 0 <= s < 60
  {
  }

  lemma WholeSecond(day: int, rest: int)
    ensures (day * 86_400_000 + rest) % 1000 == rest % 1000
  {
    assert day * 86_400_000 + rest == 1000 * (day * 86_400) + rest;
  }

  lemma TargetIsWholeSecond(p: Parts, offset: int)
    ensures (DateUtc(p) + offset * 60_000) % 1000 == 0 && DateUtc(p) % 1000 == 0
  {
    var q := p.day * 86_400 + p.hour * 3_600 + p.minute * 60 + p.second;
    assert DateUtc(p) == 1000 * q && DateUtc(p) + offset * 60_000 == 1000 * (q + offset * 60);
  }

  /** `localTimeToUtc`: at most three corrections; with a fixed offset the first one is exact. */
  method LocalTimeToUtc(target: Parts, offset: int) returns (utcMs: int)
    ensures utcMs == DateUtc(target) - offset * 60_000
    ensures DateUtc(FormatToParts(utcMs, offset)) == DateUtc(target)
  {
    utcMs := DateUtc(target);
    TargetIsWholeSecond(target, offset);
    var iter := 0;
    while iter < 3
      invariant 0 <= iter <= 3
      invariant iter == 0 ==> utcMs == DateUtc(target)
      invariant iter > 0 ==> utcMs == DateUtc(target) - offset * 60_000
    {
      FormatIsExact(utcMs, offset);
      var actualMs := DateUtc(FormatToParts(utcMs, offset));
      var diff := DateUtc(target) - actualMs;
      if diff == 0 {
        break;
      }
      utcMs := utcMs + diff;
      iter := iter + 1;
    }
    FormatIsExact(utcMs, offset);
  }

  // ---------------------------------------------------------------- what a window covers

  predicate InWindow(w: Window, m: int) {
    w.Window? && if w.start <= w.end then w.start <= m < w.end else m >= w.start || m < w.end
  }

  predicate MinuteCovered(ws: seq<Window>, m: int) {
    exists i :: 0 <= i < |ws| && InWindow(ws[i], m)
  }

  predicate Covered(ws: seq<Window>, offset: int, at: int) {
    MinuteCovered(ws, MinuteOfDay(at, offset))
  }

  predicate FirstToCover(ws: seq<Window>, i: nat, m: int) {
    i < |ws| && InWindow(ws[i], m) && forall j :: 0 <= j < i ==> !InWindow(ws[j], m)
  }

  function FirstCovering(ws: seq<Window>, m: int): (i: nat)
    requires MinuteCovered(ws, m)
    ensures FirstToCover(ws, i, m)
  {
    if InWindow(ws[0], m) then 0
    else
      assert exists i :: 0 <= i < |ws[1..]| && InWindow(ws[1..][i], m) by {
        var i :| 0 <= i < |ws| && InWindow(ws[i], m);
        assert ws[1..][i - 1] == ws[i];
      }
      1 + FirstCovering(ws[1..], m)
  }

  /** The end of the first window that covers the instant; an uncovered instant stays. */
  function Jump(ws: seq<Window>, offset: int, at: int): (next: int) {
    if !Covered(ws, offset, at) then at
    else
      var m := MinuteOfDay(at, offset);
      var end := ws[FirstCovering(ws, m)].end;
      var day := (at + offset * 60_000) / 86_400_000 + (if m >= end then 1 else 0);
      day * 86_400_000 + end * 60_000 - offset * 60_000
  }

  /** `checkWindowAt`: the scan over the windows. */
  method CheckWindowAt(ws: seq<Window>, offset: int, date: int) returns (inQuietHours: bool, nextActiveTime: int)
    requires ValidWindows(ws)
    ensures inQuietHours <==> Covered(ws, offset, date)
    ensures nextActiveTime == Jump(ws, offset, date)
  {
    var p := FormatToParts(date, offset);
    FormatIsExact(date, offset);
    var currentMinutes := p.hour * 60 + p.minute;
    var i := 0;
    while i < |ws|
      invariant 0 <= i <= |ws|
      invariant forall j :: 0 <= j < i ==> !InWindow(ws[j], currentMinutes)
    {
      var w := ws[i];
      if w.Window? {
        var inWindow := if w.start <= w.end then currentMinutes >= w.start && currentMinutes < w.end
                        else currentMinutes >= w.start || currentMinutes < w.end;
        if inWindow {
          var targetDay := if currentMinutes >= w.end then p.day + 1 else p.day;
          nextActiveTime := LocalTimeToUtc(Parts(targetDay, w.end / 60, w.end % 60, 0), offset);
          inQuietHours := true;
          assert InWindow(ws[i], currentMinutes);
          return;
        }
      }
      i := i + 1;
    }
    inQuietHours, nextActiveTime := false, date;
  }

  /** The chain: `n` jumps from an instant. */
  function Chain(ws: seq<Window>, offset: int, at: int, n: nat): (c: int) {
    if n == 0 then at else Jump(ws, offset, Chain(ws, offset, at, n - 1))
  }

  /** `isInQuietHours`, in a zone that exists: one jump, then up to ten more. */
  method IsInQuietHours(ws: seq<Window>, offset: int, fromDate: int) returns (inQuietHours: bool, nextActiveTime: int)
    requires ValidWindows(ws)
    ensures inQuietHours <==> Covered(ws, offset, fromDate)
    ensures nextActiveTime == Chain(ws, offset, fromDate, MAX_CHAINED_CHECKS + 1)
  {
    if |ws| == 0 {
      ChainStays(ws, offset, fromDate, 0, MAX_CHAINED_CHECKS + 1);
      return false, fromDate;
    }
    inQuietHours, nextActiveTime := CheckWindowAt(ws, offset, fromDate);
    if !inQuietHours {
      ChainStays(ws, offset, fromDate, 0, MAX_CHAINED_CHECKS + 1);
      return;
    }
    var i := 0;
    assert nextActiveTime == Chain(ws, offset, fromDate, 1);
    while i < MAX_CHAINED_CHECKS
      invariant 0 <= i <= MAX_CHAINED_CHECKS
      invariant nextActiveTime == Chain(ws, offset, fromDate, i + 1)
    {
      var again, next := CheckWindowAt(ws, offset, nextActiveTime);
      if !again {
        ChainStays(ws, offset, fromDate, i + 1, MAX_CHAINED_CHECKS + 1);
        return;
      }
      JumpCovers(ws, offset, nextActiveTime);
      nextActiveTime := next;
      i := i + 1;
    }
  }

  // ---------------------------------------------------------------- one jump

  /** A jump goes forward, by a day at most, to the end minute of a window; everything it skips is covered. */
  lemma JumpCovers(ws: seq<Window>, offset: int, at: int)
    requires ValidWindows(ws) && Covered(ws, offset, at)
    ensures var next := Jump(ws, offset, at);
            && at < next <= at + 86_400_000
            && (next + offset * 60_000) % 60_000 == 0
            && MinuteOfDay(next, offset) == ws[FirstCovering(ws, MinuteOfDay(at, offset))].end
            && MinuteOfDay(next, offset) in EndMinutes(ws)
            && forall u :: at <= u < next ==> Covered(ws, offset, u)
  {
    var local := at + offset * 60_000;
    var m := MinuteOfDay(at, offset);
    var w := ws[FirstCovering(ws, m)];
    var day, inDay := local / 86_400_000, local % 86_400_000;
    var next := Jump(ws, offset, at);
    MinuteBounds(inDay);
    var endLocal := (day + (if m >= w.end then 1 else 0)) * 86_400_000 + w.end * 60_000;
    assert next + offset * 60_000 == endLocal;
    MinuteOfLocal(endLocal, day + (if m >= w.end then 1 else 0), w.end * 60_000);
    forall u | at <= u < next ensures Covered(ws, offset, u) {
      var ul := u + offset * 60_000;
      if ul < (day + 1) * 86_400_000 {
        MinuteOfLocal(ul, day, ul - day * 86_400_000);
        MinuteBounds(ul - day * 86_400_000);
      } else {
        MinuteOfLocal(ul, day + 1, ul - (day + 1) * 86_400_000);
        MinuteBounds(ul - (day + 1) * 86_400_000);
      }
      assert InWindow(w, MinuteOfDay(u, offset));
    }
  }

  function EndMinutes(ws: seq<Window>): (es: set<nat>) {
    set i | 0 <= i < |ws| && ws[i].Window? :: ws[i].end
  }

  lemma MinuteBounds(inDay: int)
    requires 0 <= inDay < 86_400_000
    ensures 0 <= inDay / 60_000 < 1440 && inDay / 60_000 * 60_000 <= inDay < (inDay / 60_000 + 1) * 60_000
  {
  }

  lemma MinuteOfLocal(local: int, day: int, inDay: int)
    requires local == day * 86_400_000 + inDay && 0 <= inDay < 86_400_000
    ensures local / 86_400_000 == day && local % 86_400_000 == inDay
    ensures local % 60_000 == inDay % 60_000
  {
    MinuteWithinDay(day * 1440, inDay);
  }

  lemma MinuteWithinDay(minutes: int, rest: int)
    ensures (minutes * 60_000 + rest) % 60_000 == rest % 60_000
  {
  }

  // ---------------------------------------------------------------- the chain

  lemma {:induction false} ChainStays(ws: seq<Window>, offset: int, at: int, k: nat, n: nat)
    requires k <= n && !Covered(ws, offset, Chain(ws, offset, at, k))
    ensures Chain(ws, offset, at, n) == Chain(ws, offset, at, k)
    decreases n - k
  {
    if k < n {
      assert Chain(ws, offset, at, k + 1) == Chain(ws, offset, at, k);
      ChainStays(ws, offset, at, k + 1, n);
    }
  }

  /** However the chain ends, it never skips an uncovered instant. */
  lemma {:induction false} ChainCovers(ws: seq<Window>, offset: int, at: int, n: nat)
    requires ValidWindows(ws)
    ensures at <= Chain(ws, offset, at, n)
    ensures forall u :: at <= u < Chain(ws, offset, at, n) ==> Covered(ws, offset, u)
  {
    hide Covered;
    if n > 0 {
      ChainCovers(ws, offset, at, n - 1);
      if Covered(ws, offset, Chain(ws, offset, at, n - 1)) {
        JumpCovers(ws, offset, Chain(ws, offset, at, n - 1));
      }
    }
  }

  /** A day without an uncovered instant has no uncovered minute. */
  lemma CoveredDay(ws: seq<Window>, offset: int, from: int, m: nat)
    requires m < 1440 && forall u :: from <= u < from + 86_400_000 ==> Covered(ws, offset, u)
    ensures MinuteCovered(ws, m)
  {
    var local := from + offset * 60_000;
    var day := local / 86_400_000;
    assert local == day * 86_400_000 + local % 86_400_000;
    var first := day * 86_400_000 + m * 60_000;
    var at := if first >= local then first else first + 86_400_000;
    assert MinuteOfDay(at - offset * 60_000, offset) == m by {
      MinuteOfLocal(at, if first >= local then day else day + 1, m * 60_000);
    }
    assert Covered(ws, offset, at - offset * 60_000);
  }

  lemma {:induction false} ChainAdvances(ws: seq<Window>, offset: int, at: int, k: nat, n: nat)
    requires ValidWindows(ws) && k < n
    requires forall j :: k <= j < n ==> Covered(ws, offset, Chain(ws, offset, at, j))
    ensures Chain(ws, offset, at, k) < Chain(ws, offset, at, n)
    decreases n - k
  {
    hide Covered, Jump;
    JumpCovers(ws, offset, Chain(ws, offset, at, k));
    if k + 1 < n {
      ChainAdvances(ws, offset, at, k + 1, n);
    }
  }

  /** Two whole minutes less than a day apart show different minutes of the day. */
  lemma DistinctMinutes(offset: int, a: int, b: int)
    requires a < b < a + 86_400_000 && (a + offset * 60_000) % 60_000 == 0 && (b + offset * 60_000) % 60_000 == 0
    ensures MinuteOfDay(a, offset) != MinuteOfDay(b, offset)
  {
    var la, lb := a + offset * 60_000, b + offset * 60_000;
    assert la == la / 86_400_000 * 86_400_000 + la % 86_400_000 && lb == lb / 86_400_000 * 86_400_000 + lb % 86_400_000;
    MinuteOfLocal(la, la / 86_400_000, la % 86_400_000);
    MinuteOfLocal(lb, lb / 86_400_000, lb % 86_400_000);
    assert MinuteOfDay(a, offset) * 60_000 == la % 86_400_000 && MinuteOfDay(b, offset) * 60_000 == lb % 86_400_000;
  }

  /** While some minute is uncovered, a later jump lands less than a day on, so on another minute. */
  lemma LaterLandingDiffers(ws: seq<Window>, offset: int, at: int, k: nat, n: nat, free: nat)
    requires ValidWindows(ws) && free < 1440 && !MinuteCovered(ws, free) && 1 <= k < n
    requires forall j :: 0 <= j < n ==> Covered(ws, offset, Chain(ws, offset, at, j))
    ensures MinuteOfDay(Chain(ws, offset, at, k), offset) != MinuteOfDay(Chain(ws, offset, at, n), offset)
  {
    hide Covered, Jump, MinuteOfDay;
    var c, last := Chain(ws, offset, at, k), Chain(ws, offset, at, n);
    JumpCovers(ws, offset, Chain(ws, offset, at, k - 1));
    JumpCovers(ws, offset, Chain(ws, offset, at, n - 1));
    ChainAdvances(ws, offset, at, k, n);
    ChainCovers(ws, offset, at, n);
    ChainCovers(ws, offset, at, k);
    if last < c + 86_400_000 {
      DistinctMinutes(offset, c, last);
    } else {
      CoveredDay(ws, offset, c, free);
      assert false;
    }
  }

  /** The `k`th jump of a run of `n` covered ones lands on `m`. */
  ghost predicate LandsOn(ws: seq<Window>, offset: int, at: int, k: nat, m: nat) {
    MinuteOfDay(Chain(ws, offset, at, k), offset) == m
  }

  lemma LandingsDiffer(ws: seq<Window>, offset: int, at: int, k: nat, n: nat, free: nat, a: nat, b: nat)
    requires ValidWindows(ws) && free < 1440 && !MinuteCovered(ws, free) && 1 <= k < n
    requires forall j :: 0 <= j < n ==> Covered(ws, offset, Chain(ws, offset, at, j))
    requires LandsOn(ws, offset, at, k, a) && LandsOn(ws, offset, at, n, b)
    ensures a != b
  {
    LaterLandingDiffers(ws, offset, at, k, n, free);
  }

  lemma NextLanding(ws: seq<Window>, offset: int, at: int, k: nat) returns (m: nat)
    requires ValidWindows(ws) && Covered(ws, offset, Chain(ws, offset, at, k))
    ensures LandsOn(ws, offset, at, k + 1, m) && m in EndMinutes(ws)
  {
    m := MinuteOfDay(Chain(ws, offset, at, k + 1), offset);
    JumpCovers(ws, offset, Chain(ws, offset, at, k));
  }

  lemma {:induction false} LandedMinutes(ws: seq<Window>, offset: int, at: int, n: nat, free: nat) returns (ms: seq<nat>)
    requires ValidWindows(ws) && free < 1440 && !MinuteCovered(ws, free)
    requires forall j :: 0 <= j < n ==> Covered(ws, offset, Chain(ws, offset, at, j))
    ensures |ms| == n
    ensures forall k :: 0 <= k < n ==> LandsOn(ws, offset, at, k + 1, ms[k]) && ms[k] in EndMinutes(ws)
    ensures forall j, k :: 0 <= j < k < n ==> ms[j] != ms[k]
  {
    hide *;
    if n == 0 {
      ms := [];
    } else {
      var before := LandedMinutes(ws, offset, at, n - 1, free);
      var m := NextLanding(ws, offset, at, n - 1);
      forall j | 0 <= j < n - 1 ensures before[j] != m {
        LandingsDiffer(ws, offset, at, j + 1, n, free, before[j], m);
      }
      ms := before + [m];
    }
  }

  /** Pigeonhole: while some minute is uncovered, `n` jumps in a row land on `n` different end minutes. */
  lemma JumpsLandApart(ws: seq<Window>, offset: int, at: int, n: nat, free: nat)
    requires ValidWindows(ws) && free < 1440 && !MinuteCovered(ws, free)
    requires forall j :: 0 <= j < n ==> Covered(ws, offset, Chain(ws, offset, at, j))
    ensures n <= |EndMinutes(ws)|
  {
    var ms := LandedMinutes(ws, offset, at, n, free);
    Pigeonhole(ms, EndMinutes(ws));
  }

  // ---------------------------------------------------------------- main results

  /** The least instant from `from` on that no window covers. */
  ghost predicate IsFirstFree(ws: seq<Window>, offset: int, from: int, at: int) {
    from <= at && !Covered(ws, offset, at) && forall u :: from <= u < at ==> Covered(ws, offset, u)
  }

  function Answer(ws: seq<Window>, offset: int, from: int): (at: int) {
    Chain(ws, offset, from, MAX_CHAINED_CHECKS + 1)
  }

  /** With at most eleven different end times (so with at most eleven windows, overnight and overlapping ones included),
    * the answer is the first free instant exactly when the windows leave some minute free at all. */
  lemma AnswerIsFirstFree(ws: seq<Window>, offset: int, from: int)
    requires ValidWindows(ws) && |EndMinutes(ws)| <= MAX_CHAINED_CHECKS + 1
    ensures IsFirstFree(ws, offset, from, Answer(ws, offset, from)) <==> exists m: nat :: m < 1440 && !MinuteCovered(ws, m)
  {
    var n := MAX_CHAINED_CHECKS + 1;
    ChainCovers(ws, offset, from, n);
    if free: nat :| free < 1440 && !MinuteCovered(ws, free) {
      if Covered(ws, offset, Answer(ws, offset, from)) {
        forall j | 0 <= j < n + 1 ensures Covered(ws, offset, Chain(ws, offset, from, j)) {
          if !Covered(ws, offset, Chain(ws, offset, from, j)) {
            ChainStays(ws, offset, from, j, n);
          }
        }
        JumpsLandApart(ws, offset, from, n + 1, free);
        assert false;
      }
    }
    if !Covered(ws, offset, Answer(ws, offset, from)) {
      assert MinuteOfDay(Answer(ws, offset, from), offset) < 1440;
    }
  }

  lemma {:induction false} EndMinutesAtMost(ws: seq<Window>)
    ensures |EndMinutes(ws)| <= |ws|
  {
    if ws != [] {
      var front := ws[..|ws| - 1];
      EndMinutesAtMost(front);
      var last := if ws[|ws| - 1].Window? then {ws[|ws| - 1].end} else {};
      assert EndMinutes(ws) == EndMinutes(front) + last by {
        forall e | e in EndMinutes(ws) ensures e in EndMinutes(front) + last {
          var i :| 0 <= i < |ws| && ws[i].Window? && ws[i].end == e;
          if i < |front| {
            assert front[i] == ws[i];
          }
        }
        forall e | e in EndMinutes(front) ensures e in EndMinutes(ws) {
          var i :| 0 <= i < |front| && front[i].Window? && front[i].end == e;
          assert ws[i].end == e;
        }
      }
    }
  }

  /** The first free instant is unique, so the answer is the only one that could be right. */
  lemma FirstFreeIsUnique(ws: seq<Window>, offset: int, from: int, a: int, b: int)
    requires IsFirstFree(ws, offset, from, a) && IsFirstFree(ws, offset, from, b)
    ensures a == b
  {
  }

  // ---------------------------------------------------------------- which windows the cap is enough for

  /** Windows that pass an instant on, from the end of one into the next: whatever minute the first is entered at, each is
    * the first in the list to cover the end of the one before. */
  predicate BackToBack(ws: seq<Window>, row: seq<nat>) {
    && (row != [] ==> exists m: nat :: m < 1440 && FirstToCover(ws, row[0], m))
    && (forall k :: 0 <= k < |row| ==> row[k] < |ws| && ws[row[k]].Window?)
    && (forall k :: 0 < k < |row| ==> FirstToCover(ws, row[k], ws[row[k - 1]].end))
  }

  function MinuteChain(ws: seq<Window>, m: nat, n: nat): (c: nat) {
    if n == 0 then m
    else
      var before := MinuteChain(ws, m, n - 1);
      if MinuteCovered(ws, before) then ws[FirstCovering(ws, before)].end else before
  }

  /** Where in the day the chain stands depends on the minute it started at, not on the date or the zone. */
  lemma {:induction false} ChainOfMinutes(ws: seq<Window>, offset: int, from: int, n: nat)
    requires ValidWindows(ws)
    ensures MinuteOfDay(Chain(ws, offset, from, n), offset) == MinuteChain(ws, MinuteOfDay(from, offset), n)
  {
    hide Jump, MinuteOfDay;
    if n > 0 {
      ChainOfMinutes(ws, offset, from, n - 1);
      var before := Chain(ws, offset, from, n - 1);
      if Covered(ws, offset, before) {
        JumpCovers(ws, offset, before);
      } else {
        ChainStays(ws, offset, from, n - 1, n);
      }
    }
  }

  lemma AnswerIsRightByMinute(ws: seq<Window>, offset: int, from: int)
    requires ValidWindows(ws)
    ensures IsFirstFree(ws, offset, from, Answer(ws, offset, from)) <==>
            !MinuteCovered(ws, MinuteChain(ws, MinuteOfDay(from, offset), MAX_CHAINED_CHECKS + 1))
  {
    ChainCovers(ws, offset, from, MAX_CHAINED_CHECKS + 1);
    ChainOfMinutes(ws, offset, from, MAX_CHAINED_CHECKS + 1);
  }

  /** A chain that is still covered after `n` jumps has been covered all along. */
  lemma {:induction false} CoveredAllAlong(ws: seq<Window>, m: nat, k: nat, n: nat)
    requires k <= n && MinuteCovered(ws, MinuteChain(ws, m, n))
    ensures MinuteCovered(ws, MinuteChain(ws, m, k))
    decreases n - k
  {
    hide MinuteCovered;
    if k < n {
      CoveredAllAlong(ws, m, k + 1, n);
      assert MinuteChain(ws, m, k + 1) ==
        if MinuteCovered(ws, MinuteChain(ws, m, k)) then ws[FirstCovering(ws, MinuteChain(ws, m, k))].end else MinuteChain(ws, m, k);
    }
  }

  lemma NextMinute(ws: seq<Window>, m: nat, n: nat, i: nat)
    requires FirstToCover(ws, i, MinuteChain(ws, m, n))
    ensures MinuteCovered(ws, MinuteChain(ws, m, n)) && MinuteChain(ws, m, n + 1) == ws[i].end
  {
    var c := MinuteChain(ws, m, n);
    assert MinuteCovered(ws, c);
    FirstIsUnique(ws, i, FirstCovering(ws, c), c);
  }

  /** The windows such a chain has been through. */
  lemma {:induction false} RowOf(ws: seq<Window>, m: nat, n: nat) returns (row: seq<nat>)
    requires m < 1440 && MinuteCovered(ws, MinuteChain(ws, m, n))
    ensures BackToBack(ws, row) && |row| == n + 1 && FirstToCover(ws, row[n], MinuteChain(ws, m, n))
  {
    hide *;
    var last := LastOf(ws, m, n);
    if n == 0 {
      row := [last];
    } else {
      CoveredAllAlong(ws, m, n - 1, n);
      var before := RowOf(ws, m, n - 1);
      RowExtended(ws, before, last, m, n);
      row := before + [last];
    }
  }

  lemma LastOf(ws: seq<Window>, m: nat, n: nat) returns (last: nat)
    requires m < 1440 && MinuteCovered(ws, MinuteChain(ws, m, n))
    ensures FirstToCover(ws, last, MinuteChain(ws, m, n))
    ensures n == 0 ==> BackToBack(ws, [last])
  {
    last := FirstCovering(ws, MinuteChain(ws, m, n));
    assert [last][0] == last;
  }

  lemma RowExtended(ws: seq<Window>, row: seq<nat>, next: nat, m: nat, n: nat)
    requires BackToBack(ws, row) && |row| == n > 0
    requires FirstToCover(ws, row[n - 1], MinuteChain(ws, m, n - 1)) && FirstToCover(ws, next, MinuteChain(ws, m, n))
    ensures BackToBack(ws, row + [next])
  {
    NextMinute(ws, m, n - 1, row[n - 1]);
    ByAWindow(ws, next, MinuteChain(ws, m, n));
    hide FirstToCover, MinuteChain, MinuteCovered;
    var longer := row + [next];
    assert longer[0] == row[0];
    forall k | 0 < k < |longer|
      ensures FirstToCover(ws, longer[k], ws[longer[k - 1]].end)
    {
      assert longer[k - 1] == row[k - 1];
    }
  }

  lemma ByAWindow(ws: seq<Window>, i: nat, m: int)
    requires FirstToCover(ws, i, m)
    ensures ws[i].Window?
  {
  }

  lemma FirstIsUnique(ws: seq<Window>, i: nat, j: nat, m: int)
    requires FirstToCover(ws, i, m) && FirstToCover(ws, j, m)
    ensures i == j
  {
  }

  /** An instant in the first window of a row stays covered through all of it. */
  lemma {:induction false} RowIsFollowed(ws: seq<Window>, row: seq<nat>, m: nat, k: nat)
    requires BackToBack(ws, row) && k < |row| && FirstToCover(ws, row[0], m)
    ensures FirstToCover(ws, row[k], MinuteChain(ws, m, k)) && MinuteCovered(ws, MinuteChain(ws, m, k))
  {
    hide InWindow;
    if k > 0 {
      RowIsFollowed(ws, row, m, k - 1);
      NextMinute(ws, m, k - 1, row[k - 1]);
    }
  }

  /** For any number of windows, the answer is the first free instant, whatever the zone and the instant asked about,
    * exactly when no twelve windows stand back to back. */
  lemma CapIsRightExactlyWhen(ws: seq<Window>)
    requires ValidWindows(ws)
    ensures (forall offset, from :: IsFirstFree(ws, offset, from, Answer(ws, offset, from))) <==>
            (forall row :: BackToBack(ws, row) ==> |row| <= MAX_CHAINED_CHECKS + 1)
  {
    hide BackToBack, IsFirstFree;
    if row :| BackToBack(ws, row) && |row| > MAX_CHAINED_CHECKS + 1 {
      LongRowMisleads(ws, row);
    } else {
      forall offset, from
        ensures IsFirstFree(ws, offset, from, Answer(ws, offset, from))
      {
        WrongNeedsLongRow(ws, offset, from);
      }
    }
  }

  lemma LongRowMisleads(ws: seq<Window>, row: seq<nat>)
    requires ValidWindows(ws) && BackToBack(ws, row) && |row| > MAX_CHAINED_CHECKS + 1
    ensures exists from :: !IsFirstFree(ws, 0, from, Answer(ws, 0, from))
  {
    var m: nat :| m < 1440 && FirstToCover(ws, row[0], m);
    RowIsFollowed(ws, row, m, MAX_CHAINED_CHECKS + 1);
    MinuteOfLocal(m * 60_000, 0, m * 60_000);
    assert MinuteOfDay(m * 60_000, 0) == m;
    AnswerIsRightByMinute(ws, 0, m * 60_000);
  }

  lemma WrongNeedsLongRow(ws: seq<Window>, offset: int, from: int)
    requires ValidWindows(ws) && forall row :: BackToBack(ws, row) ==> |row| <= MAX_CHAINED_CHECKS + 1
    ensures IsFirstFree(ws, offset, from, Answer(ws, offset, from))
  {
    AnswerIsRightByMinute(ws, offset, from);
    var m := MinuteOfDay(from, offset);
    if MinuteCovered(ws, MinuteChain(ws, m, MAX_CHAINED_CHECKS + 1)) {
      var row := RowOf(ws, m, MAX_CHAINED_CHECKS + 1);
      assert false;
    }
  }

  /** Hourly windows back to back, `n` of them from midnight. */
  function Hourly(n: nat): (ws: seq<Window>) {
    seq(n, i requires 0 <= i < n => Window(i * 60, i * 60 + 60))
  }

  lemma HourlyJump(n: nat, k: nat)
    requires k < n <= 23
    ensures Jump(Hourly(n), 0, k * 3_600_000) == (k + 1) * 3_600_000
  {
    var ws := Hourly(n);
    MinuteOfLocal(k * 3_600_000, 0, k * 3_600_000);
    assert InWindow(ws[k], k * 60);
    assert forall j :: 0 <= j < |ws| && InWindow(ws[j], k * 60) ==> j == k;
  }

  lemma {:induction false} HourlyChain(n: nat, k: nat)
    requires k <= n <= 23
    ensures Chain(Hourly(n), 0, 0, k) == k * 3_600_000
  {
    if k > 0 {
      HourlyChain(n, k - 1);
      HourlyJump(n, k - 1);
    }
  }

  lemma HourlyLeavesNoonFree()
    ensures ValidWindows(Hourly(12)) && !MinuteCovered(Hourly(12), 720)
  {
  }

  /** Twelve back-to-back windows are one too many: the answer is still inside the last of them. */
  lemma TwelveWindowsAreTooMany()
    ensures ValidWindows(Hourly(12)) && !MinuteCovered(Hourly(12), 720)
    ensures Answer(Hourly(12), 0, 0) == 39_600_000 && Covered(Hourly(12), 0, 39_600_000)
  {
    HourlyLeavesNoonFree();
    HourlyChain(12, 11);
    MinuteOfLocal(39_600_000, 0, 39_600_000);
    assert MinuteOfDay(39_600_000, 0) == 660;
    assert InWindow(Hourly(12)[11], 660);
  }
}
