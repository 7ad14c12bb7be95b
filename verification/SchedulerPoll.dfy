/** The loops of the scheduler (src/services/scheduler/main.ts): what one poll does with the members it claimed, and the
  * rebuild of the sorted sets from Postgres, page by page. ReleaseProtocol interleaves their commands with everyone
  * else's; here they are proved to compute what that protocol takes for granted. */
module SchedulerPoll {
  import opened Delivery
  import opened ReleaseProtocol
  import opened ReleaseRuns

  // ---------------------------------------------------------------- planning a release

  /** A claimed sorted-set member, or one whose JSON does not parse. */
  datatype Claim = Garbled | Entry(member: Member)

  /** What a poll is about to do: events per priority lane, rows to delete, members to remove. */
  datatype Plan = Plan(critical: seq<Task>, normal: seq<Task>, low: seq<Task>, cleanup: seq<TaskId>, removals: seq<Member>)

  function Parsed(claims: seq<Claim>): (ms: seq<Member>) {
    if claims == [] then []
    else (if claims[0].Entry? then [claims[0].member] else []) + Parsed(claims[1..])
  }

  /** The tasks of `ms` that have a row, each at its first place. */
  function FirstWithRow(ms: seq<Member>, rows: map<TaskId, Row>): (ids: seq<TaskId>) {
    if ms == [] then []
    else
      var before := FirstWithRow(ms[..|ms| - 1], rows);
      var t := ms[|ms| - 1].task;
      if t in rows && t !in before then before + [t] else before
  }

  /** The events of one lane, in release order. */
  function Lane(ids: seq<TaskId>, rows: map<TaskId, Row>, blocked: set<TaskId>, p: Priority): (lane: seq<Task>)
    requires forall t :: t in ids ==> t in rows
  {
    if ids == [] then []
    else
      var before := Lane(ids[..|ids| - 1], rows, blocked, p);
      var t := ids[|ids| - 1];
      if t !in blocked && rows[t].task.priority == p then before + [rows[t].task] else before
  }

  lemma {:induction false} FirstWithRowHasRows(ms: seq<Member>, rows: map<TaskId, Row>)
    ensures forall t :: t in FirstWithRow(ms, rows) <==> t in rows && exists k :: 0 <= k < |ms| && ms[k].task == t
    ensures forall i, j :: 0 <= i < j < |FirstWithRow(ms, rows)| ==> FirstWithRow(ms, rows)[i] != FirstWithRow(ms, rows)[j]
  {
    if ms != [] {
      var front := ms[..|ms| - 1];
      FirstWithRowHasRows(front, rows);
      forall t | t in rows && exists k :: 0 <= k < |ms| && ms[k].task == t ensures t in FirstWithRow(ms, rows) {
        var k :| 0 <= k < |ms| && ms[k].task == t;
        if k < |ms| - 1 {
          assert front[k].task == t;
        }
      }
      forall t | t in FirstWithRow(ms, rows) ensures t in rows && exists k :: 0 <= k < |ms| && ms[k].task == t {
        if t in FirstWithRow(front, rows) {
          var k :| 0 <= k < |front| && front[k].task == t;
          assert ms[k].task == t;
        } else {
          assert ms[|ms| - 1].task == t;
        }
      }
    }
  }

  function PlanFor(claims: seq<Claim>, rows: map<TaskId, Row>, blocked: set<TaskId>): (plan: Plan) {
    var ms := Parsed(claims);
    var ids := FirstWithRow(ms, rows);
    FirstWithRowHasRows(ms, rows);
    Plan(Lane(ids, rows, blocked, Critical), Lane(ids, rows, blocked, Normal), Lane(ids, rows, blocked, Low), ids, ms)
  }

  lemma {:induction false} ParsedOfPrefix(claims: seq<Claim>, i: nat)
    requires i < |claims|
    ensures Parsed(claims[..i + 1]) == Parsed(claims[..i]) + (if claims[i].Entry? then [claims[i].member] else [])
    decreases i
  {
    if i == 0 {
      assert claims[..1][1..] == [];
      assert claims[..0] == [];
    } else {
      ParsedOfPrefix(claims[1..], i - 1);
      assert claims[..i + 1][1..] == claims[1..][..i];
      assert claims[..i][1..] == claims[1..][..i - 1];
    }
  }

  /** The release loop of a poll. */
  method PlanRelease(claims: seq<Claim>, rows: map<TaskId, Row>, blocked: set<TaskId>) returns (plan: Plan)
    ensures plan == PlanFor(claims, rows, blocked)
  {
    var critical, normal, low, cleanup, removals := [], [], [], [], [];
    var released: set<TaskId> := {};
    var i := 0;
    while i < |claims|
      invariant 0 <= i <= |claims|
      invariant removals == Parsed(claims[..i])
      invariant cleanup == FirstWithRow(removals, rows)
      invariant forall t :: t in released <==> t in cleanup
      invariant forall t :: t in cleanup ==> t in rows
      invariant critical == Lane(cleanup, rows, blocked, Critical)
      invariant normal == Lane(cleanup, rows, blocked, Normal)
      invariant low == Lane(cleanup, rows, blocked, Low)
    {
      ParsedOfPrefix(claims, i);
      if claims[i].Entry? {
        var m := claims[i].member;
        var t := m.task;
        assert (removals + [m])[..|removals|] == removals;
        removals := removals + [m];
        if t !in released && t in rows {
          assert (cleanup + [t])[..|cleanup|] == cleanup;
          released := released + {t};
          cleanup := cleanup + [t];
          if t !in blocked {
            match rows[t].task.priority
            case Critical => critical := critical + [rows[t].task];
            case Normal => normal := normal + [rows[t].task];
            case Low => low := low + [rows[t].task];
          }
        }
      }
      i := i + 1;
    }
    assert claims[..i] == claims;
    plan := Plan(critical, normal, low, cleanup, removals);
  }

  predicate WellKeyed(rows: map<TaskId, Row>) {
    forall t :: t in rows ==> rows[t].task.id == t
  }

  lemma {:induction false} LaneHolds(ids: seq<TaskId>, rows: map<TaskId, Row>, blocked: set<TaskId>, p: Priority)
    requires forall t :: t in ids ==> t in rows
    requires WellKeyed(rows) && forall i, j :: 0 <= i < j < |ids| ==> ids[i] != ids[j]
    ensures var lane := Lane(ids, rows, blocked, p);
            && (forall k :: 0 <= k < |lane| ==> lane[k].id in ids && lane[k].id !in blocked && lane[k].priority == p &&
                                                lane[k] == rows[lane[k].id].task)
            && (forall t :: t in ids && t !in blocked && rows[t].task.priority == p ==> rows[t].task in lane)
            && (forall i, j :: 0 <= i < j < |lane| ==> lane[i].id != lane[j].id)
  {
    if ids != [] {
      LaneHolds(ids[..|ids| - 1], rows, blocked, p);
    }
  }

  lemma CleanupIsWhatWasRead(claims: seq<Claim>, rows: map<TaskId, Row>, p: Poll)
    requires p.Releasing? && p.members == (set m | m in Parsed(claims))
    requires p.rows == map t | t in rows && t in TasksOf(p.members) :: rows[t]
    ensures forall t :: t in FirstWithRow(Parsed(claims), rows) <==> t in p.rows
  {
    var ms := Parsed(claims);
    FirstWithRowHasRows(ms, rows);
    forall t ensures t in FirstWithRow(ms, rows) <==> t in p.rows {
      if t in p.rows {
        var m :| m in p.members && m.task == t;
        var k :| 0 <= k < |ms| && ms[k] == m;
      }
      if t in FirstWithRow(ms, rows) {
        var k :| 0 <= k < |ms| && ms[k].task == t;
        assert ms[k] in p.members;
      }
    }
  }

  lemma InLane(ids: seq<TaskId>, rows: map<TaskId, Row>, blocked: set<TaskId>, p: Priority, t: TaskId)
    requires forall u :: u in ids ==> u in rows
    requires WellKeyed(rows) && (forall i, j :: 0 <= i < j < |ids| ==> ids[i] != ids[j]) && t in rows
    ensures rows[t].task in Lane(ids, rows, blocked, p) <==> t in ids && t !in blocked && rows[t].task.priority == p
  {
    LaneHolds(ids, rows, blocked, p);
    var lane := Lane(ids, rows, blocked, p);
    if rows[t].task in lane {
      var k :| 0 <= k < |lane| && lane[k] == rows[t].task;
      assert lane[k].id == t;
    }
  }

  predicate Publishes(plan: Plan, task: Task) {
    task in plan.critical || task in plan.normal || task in plan.low
  }

  /** What a lane holds, told of all three lanes at once. */
  lemma PlanPublishes(claims: seq<Claim>, rows: map<TaskId, Row>, blocked: set<TaskId>, t: TaskId)
    requires WellKeyed(rows) && t in rows
    ensures var plan := PlanFor(claims, rows, blocked);
            Publishes(plan, rows[t].task) <==> t in plan.cleanup && t !in blocked
  {
    var ids := FirstWithRow(Parsed(claims), rows);
    FirstWithRowHasRows(Parsed(claims), rows);
    InLane(ids, rows, blocked, Critical, t);
    InLane(ids, rows, blocked, Normal, t);
    InLane(ids, rows, blocked, Low, t);
  }

  /** A plan publishes exactly the tasks the protocol requires of a poll, with their rows' payloads; it deletes the rows
    * of those and of the blocked ones; and it removes every member it could read, duplicates included. */
  lemma PlanIsWhatThePollOwes(claims: seq<Claim>, rows: map<TaskId, Row>, blocked: set<TaskId>, p: Poll)
    requires WellKeyed(rows)
    requires p.Releasing? && p.members == (set m | m in Parsed(claims)) && p.blocked == blocked
    requires p.rows == map t | t in rows && t in TasksOf(p.members) :: rows[t]
    ensures var plan := PlanFor(claims, rows, blocked);
            && (forall t :: t in rows ==> (t in ToPublish(p) <==> Publishes(plan, rows[t].task)))
            && (forall t :: t in plan.cleanup <==> t in p.rows)
            && (forall m :: m in plan.removals <==> m in p.members)
  {
    CleanupIsWhatWasRead(claims, rows, p);
    forall t | t in rows
      ensures t in ToPublish(p) <==> Publishes(PlanFor(claims, rows, blocked), rows[t].task)
    {
      PlanPublishes(claims, rows, blocked, t);
    }
  }

  /** No task is released twice by one poll, even when a rebuild has left it two members: within a lane the ids differ,
    * and every event of a lane has that lane's priority. */
  lemma PlanReleasesOnce(claims: seq<Claim>, rows: map<TaskId, Row>, blocked: set<TaskId>)
    requires WellKeyed(rows)
    ensures var plan := PlanFor(claims, rows, blocked);
            && OneLane(plan.critical, Critical) && OneLane(plan.normal, Normal) && OneLane(plan.low, Low)
            && forall i, j :: 0 <= i < j < |plan.cleanup| ==> plan.cleanup[i] != plan.cleanup[j]
  {
    var ids := FirstWithRow(Parsed(claims), rows);
    FirstWithRowHasRows(Parsed(claims), rows);
    LaneIsOne(ids, rows, blocked, Critical);
    LaneIsOne(ids, rows, blocked, Normal);
    LaneIsOne(ids, rows, blocked, Low);
  }

  lemma LaneIsOne(ids: seq<TaskId>, rows: map<TaskId, Row>, blocked: set<TaskId>, p: Priority)
    requires forall u :: u in ids ==> u in rows
    requires WellKeyed(rows) && (forall i, j :: 0 <= i < j < |ids| ==> ids[i] != ids[j])
    ensures OneLane(Lane(ids, rows, blocked, p), p)
  {
    LaneHolds(ids, rows, blocked, p);
  }

  predicate OneLane(lane: seq<Task>, p: Priority) {
    && (forall k :: 0 <= k < |lane| ==> lane[k].priority == p)
    && (forall i, j :: 0 <= i < j < |lane| ==> lane[i].id != lane[j].id)
  }

  // ---------------------------------------------------------------- rebuilding the sorted sets

  /** The keys from `from` on. */
  ghost function KeysFrom(rows: map<TaskId, Row>, from: nat): (ks: set<TaskId>) {
    set t | t in rows && from <= t
  }

  /** `page` is what `ORDER BY task_id LIMIT pageSize` gives after the previous page. */
  ghost predicate IsPage(rows: map<TaskId, Row>, from: nat, pageSize: nat, page: seq<TaskId>) {
    && |page| <= pageSize
    && (forall k :: 0 <= k < |page| ==> page[k] in KeysFrom(rows, from))
    && (forall i, j :: 0 <= i < j < |page| ==> page[i] < page[j])
    && (forall t :: t in KeysFrom(rows, from) && t !in page ==> |page| == pageSize && forall k :: 0 <= k < |page| ==> page[k] < t)
  }

  method Smallest(ks: set<TaskId>) returns (least: TaskId)
    requires ks != {}
    ensures least in ks && forall t :: t in ks ==> least <= t
  {
    least :| least in ks;
    var rest := ks - {least};
    while rest != {}
      invariant rest <= ks && least in ks && forall t :: t in ks && t !in rest ==> least <= t
      decreases rest
    {
      var t :| t in rest;
      if t < least {
        least := t;
      }
      rest := rest - {t};
    }
  }

  method SelectPage(rows: map<TaskId, Row>, from: nat, pageSize: nat) returns (page: seq<TaskId>)
    ensures IsPage(rows, from, pageSize, page)
  {
    page := [];
    var rest := set t | t in rows && from <= t;
    while |page| < pageSize && rest != {}
      invariant |page| <= pageSize
      invariant rest == KeysFrom(rows, from) - IdsOf(page)
      invariant forall k :: 0 <= k < |page| ==> page[k] in KeysFrom(rows, from)
      invariant forall i, j :: 0 <= i < j < |page| ==> page[i] < page[j]
      invariant forall k, t :: 0 <= k < |page| && t in rest ==> page[k] < t
    {
      var least := Smallest(rest);
      page := page + [least];
      rest := rest - {least};
    }
    assert forall t :: t in KeysFrom(rows, from) && t !in page ==> t in rest;
  }

  function IdsOf(page: seq<TaskId>): (ids: set<TaskId>) {
    set t | t in page
  }

  lemma IdsOfPrefix(page: seq<TaskId>, i: nat)
    requires i < |page|
    ensures IdsOf(page[..i + 1]) == IdsOf(page[..i]) + {page[i]}
  {
    assert page[..i + 1] == page[..i] + [page[i]];
  }

  function BareMembers(ids: set<TaskId>): (ms: set<Member>) {
    set t | t in ids :: Member(t, Tag.Rebuilt)
  }

  /** `before` with a bare member for each of `ids`, scored by its row's send time unless it was there already. */
  function WithBareMembers(before: map<Member, nat>, rows: map<TaskId, Row>, ids: set<TaskId>): (after: map<Member, nat>)
    requires ids <= rows.Keys
  {
    map m | m in before.Keys + BareMembers(ids) :: if m in before then before[m] else rows[m.task].sendAt.ms
  }

  lemma BareMembersOfNone(before: map<Member, nat>, rows: map<TaskId, Row>)
    ensures WithBareMembers(before, rows, {}) == before
  {
    assert BareMembers({}) == {};
  }

  lemma BareMembersCompose(before: map<Member, nat>, rows: map<TaskId, Row>, ids: set<TaskId>, more: set<TaskId>)
    requires ids <= rows.Keys && more <= rows.Keys
    ensures WithBareMembers(WithBareMembers(before, rows, ids), rows, more) == WithBareMembers(before, rows, ids + more)
  {
    assert BareMembers(ids + more) == BareMembers(ids) + BareMembers(more);
  }

  /** The tasks `ids` have their bare members, each due at its row's send time unless it was there already, and every other
    * member is as it was. */
  ghost predicate RebuiltFrom(before: map<Member, nat>, rows: map<TaskId, Row>, ids: set<TaskId>, after: map<Member, nat>)
    requires ids <= rows.Keys
  {
    && (forall t :: t in ids ==>
          && Member(t, Tag.Rebuilt) in after
          && after[Member(t, Tag.Rebuilt)] ==
             if Member(t, Tag.Rebuilt) in before then before[Member(t, Tag.Rebuilt)] else rows[t].sendAt.ms)
    && (forall m :: m in before ==> m in after && after[m] == before[m])
    && (forall m :: m in after ==> m in before || (m.tag == Tag.Rebuilt && m.task in ids))
  }

  lemma BareMembersRebuild(before: map<Member, nat>, rows: map<TaskId, Row>, ids: set<TaskId>)
    requires ids <= rows.Keys
    ensures RebuiltFrom(before, rows, ids, WithBareMembers(before, rows, ids))
  {
    assert forall t :: t in ids ==> Member(t, Tag.Rebuilt) in BareMembers(ids);
    var after := WithBareMembers(before, rows, ids);
    forall m | m in after && m !in before
      ensures m.tag == Tag.Rebuilt && m.task in ids
    {
      assert m in BareMembers(ids);
    }
  }

  /** There is only one way to add them. */
  lemma RebuiltIsUnique(before: map<Member, nat>, rows: map<TaskId, Row>, ids: set<TaskId>, after: map<Member, nat>)
    requires ids <= rows.Keys && RebuiltFrom(before, rows, ids, after)
    ensures after == WithBareMembers(before, rows, ids)
  {
    BareMembersRebuild(before, rows, ids);
    var other := WithBareMembers(before, rows, ids);
    forall m
      ensures m in after <==> m in other
      ensures m in after ==> after[m] == other[m]
    {
      assert m.tag == Tag.Rebuilt ==> m == Member(m.task, Tag.Rebuilt);
    }
  }

  lemma OneBareMember(before: map<Member, nat>, rows: map<TaskId, Row>, t: TaskId)
    requires t in rows
    ensures var m := Member(t, Tag.Rebuilt);
      WithBareMembers(before, rows, {t}) == if m in before then before else before[m := rows[t].sendAt.ms]
  {
    assert BareMembers({t}) == {Member(t, Tag.Rebuilt)};
  }

  /** The pages that a rebuild reads from `from` on: each the next `pageSize` keys, a short one being the last. */
  ghost predicate Pages(rows: map<TaskId, Row>, from: nat, pageSize: nat, pages: seq<seq<TaskId>>)
    decreases |pages|
  {
    && pages != [] && IsPage(rows, from, pageSize, pages[0])
    && (if |pages[0]| < pageSize then |pages| == 1
        else pageSize > 0 && Pages(rows, pages[0][|pages[0]| - 1] + 1, pageSize, pages[1..]))
  }

  /** Whatever pages are read from `from` on, with `pages` before them they are those of a whole rebuild. */
  ghost predicate LeadsTo(rows: map<TaskId, Row>, pageSize: nat, pages: seq<seq<TaskId>>, from: nat) {
    forall rest :: Pages(rows, from, pageSize, rest) ==> Pages(rows, 0, pageSize, pages + rest)
  }

  /** The scheduler's two stores. */
  class Stores {
    var rows: map<TaskId, Row>
    var members: map<Member, nat>
    var sentinel: bool

    /** `rebuildScheduledQueue`: page after page, then the sentinel. */
    method Rebuild(pageSize: nat) returns (total: nat, ghost pages: seq<seq<TaskId>>)
      requires pageSize >= 1
      modifies this`members, this`sentinel
      ensures sentinel && RebuiltFrom(old(members), rows, rows.Keys, members)
      ensures Pages(rows, 0, pageSize, pages)
      ensures total == |rows|
    {
      hide Pages, LeadsTo, WithBareMembers, RebuiltFrom, KeysFrom, IdsOf, IsPage;
      total, pages := 0, [];
      var from, more := 0, true;
      ghost var done: set<TaskId> := {};
      ghost var before, all := members, rows;
      BareMembersOfNone(before, rows);
      NoPagesYet(rows, pageSize);
      while more
        invariant rows == all && done <= all.Keys && total == |done|
        invariant members == WithBareMembers(before, all, done)
        invariant if more then LeadsTo(all, pageSize, pages, from) && done == all.Keys - KeysFrom(all, from)
                  else Pages(all, 0, pageSize, pages) && done == all.Keys
        decreases more, KeysFrom(all, from)
      {
        var page := SelectPage(rows, from, pageSize);
        MorePages(all, from, pageSize, pages, page);
        PageCovers(all, from, pageSize, page);
        BareMembersCompose(before, all, done, IdsOf(page));
        ghost var earlier := members;
        AddPage(page);
        RebuiltIsUnique(earlier, all, IdsOf(page), members);
        pages := pages + [page];
        done := done + IdsOf(page);
        total := total + |page|;
        more := |page| == pageSize;
        if more {
          from := page[|page| - 1] + 1;
        }
      }
      BareMembersRebuild(before, all, all.Keys);
      sentinel := true;
    }

    /** One pipeline of `ZADD NX`: the page's tasks get their bare members. */
    method AddPage(page: seq<TaskId>)
      requires forall t :: t in page ==> t in rows
      modifies this`members
      ensures RebuiltFrom(old(members), rows, IdsOf(page), members)
    {
      hide WithBareMembers, IdsOf, RebuiltFrom;
      var i := 0;
      NoIds(page, rows);
      BareMembersOfNone(members, rows);
      while i < |page|
        invariant 0 <= i <= |page| && IdsOf(page[..i]) <= rows.Keys
        invariant members == WithBareMembers(old(members), rows, IdsOf(page[..i]))
      {
        var m := Member(page[i], Tag.Rebuilt);
        BareMembersCompose(old(members), rows, IdsOf(page[..i]), {page[i]});
        OneBareMember(members, rows, page[i]);
        if m !in members {
          members := members[m := rows[page[i]].sendAt.ms];
        }
        IdsOfPrefix(page, i);
        i := i + 1;
      }
      assert page[..i] == page;
      BareMembersRebuild(old(members), rows, IdsOf(page));
    }
  }

  lemma NoIds(page: seq<TaskId>, rows: map<TaskId, Row>)
    ensures IdsOf(page[..0]) == {} <= rows.Keys
  {
  }

  lemma NoPagesYet(rows: map<TaskId, Row>, pageSize: nat)
    ensures LeadsTo(rows, pageSize, [], 0)
    ensures KeysFrom(rows, 0) == rows.Keys
  {
    forall rest | Pages(rows, 0, pageSize, rest)
      ensures Pages(rows, 0, pageSize, [] + rest)
    {
      assert [] + rest == rest;
    }
  }

  /** A page read after `pages` is the last one when it is short, and can be followed by more when it is not. */
  lemma MorePages(rows: map<TaskId, Row>, from: nat, pageSize: nat, pages: seq<seq<TaskId>>, page: seq<TaskId>)
    requires pageSize >= 1 && IsPage(rows, from, pageSize, page)
    requires LeadsTo(rows, pageSize, pages, from)
    ensures |page| < pageSize ==> Pages(rows, 0, pageSize, pages + [page])
    ensures |page| == pageSize ==> LeadsTo(rows, pageSize, pages + [page], page[|page| - 1] + 1)
  {
    if |page| < pageSize {
      assert Pages(rows, from, pageSize, [page]);
    } else {
      forall rest | Pages(rows, page[|page| - 1] + 1, pageSize, rest)
        ensures Pages(rows, 0, pageSize, pages + [page] + rest)
      {
        assert ([page] + rest)[1..] == rest;
        assert Pages(rows, from, pageSize, [page] + rest);
        assert pages + [page] + rest == pages + ([page] + rest);
      }
    }
  }

  /** A page takes the keys from `from` to its last one, and all of them when it is short. */
  lemma PageCovers(rows: map<TaskId, Row>, from: nat, pageSize: nat, page: seq<TaskId>)
    requires IsPage(rows, from, pageSize, page) && pageSize > 0
    ensures var done := rows.Keys - KeysFrom(rows, from);
            && IdsOf(page) <= rows.Keys && done <= rows.Keys && (forall t :: t in page ==> t in rows)
            && |done + IdsOf(page)| == |done| + |page|
            && (|page| < pageSize ==> done + IdsOf(page) == rows.Keys)
            && (|page| == pageSize ==>
                  var next := page[|page| - 1] + 1;
                  && rows.Keys - KeysFrom(rows, next) == done + IdsOf(page)
                  && KeysFrom(rows, next) < KeysFrom(rows, from))
  {
    PageIsCut(rows, from, pageSize, page, NextFrom(from, page));
    DistinctSize(page);
    hide IsPage;
    assert (rows.Keys - KeysFrom(rows, from)) !! IdsOf(page);
    if |page| == pageSize {
      var last := page[|page| - 1];
      assert last in KeysFrom(rows, from) && last !in KeysFrom(rows, last + 1);
    }
  }

  lemma {:induction false} DistinctSize(page: seq<TaskId>)
    requires forall i, j :: 0 <= i < j < |page| ==> page[i] < page[j]
    ensures |IdsOf(page)| == |page|
  {
    if page != [] {
      var last := |page| - 1;
      DistinctSize(page[..last]);
      IdsOfPrefix(page, last);
      assert page[..last + 1] == page;
      assert page[last] !in page[..last];
    }
  }

  // ---------------------------------------------------------------- the rebuild among everyone else

  /** One `ZADD NX` after the other. */
  function Restores(a: ActorId, page: seq<TaskId>): (steps: seq<Step>) {
    if page == [] then [] else [OfRebuild(RestoreMember(a, page[0]))] + Restores(a, page[1..])
  }

  /** Reading a page and restoring its members. */
  function PageSteps(a: ActorId, cursor: nat, exhausted: bool, page: seq<TaskId>): (steps: seq<Step>) {
    [OfRebuild(ReadPage(a, cursor, exhausted))] + Restores(a, page)
  }

  /** The commands of a rebuild that reads `pages`. */
  function RebuildSteps(a: ActorId, from: nat, pageSize: nat, pages: seq<seq<TaskId>>): (steps: seq<Step>)
    decreases |pages|
  {
    if pages == [] then [OfRebuild(SetSentinel(a)), OfRebuild(EndRebuild(a))]
    else
      var page, next := pages[0], NextFrom(from, pages[0]);
      PageSteps(a, next, |page| < pageSize, page) + RebuildSteps(a, next, pageSize, pages[1..])
  }

  lemma RestoreDoes(s: World, a: ActorId, t: TaskId)
    requires a in s.rebuilds && t in s.rebuilds[a].pending && t in s.rows && s.rebuilds[a].pending[t] == s.rows[t].sendAt.ms
    ensures Enabled(s, OfRebuild(RestoreMember(a, t)))
    ensures var r := s.rebuilds[a];
      Apply(s, OfRebuild(RestoreMember(a, t))) ==
      s.(members := WithBareMembers(s.members, s.rows, {t}), rebuilds := s.rebuilds[a := r.(pending := r.pending - {t})])
  {
    assert BareMembers({t}) == {Member(t, Tag.Rebuilt)};
  }

  lemma FirstId(page: seq<TaskId>)
    requires page != [] && forall i, j :: 0 <= i < j < |page| ==> page[i] < page[j]
    ensures IdsOf(page) == {page[0]} + IdsOf(page[1..]) && page[0] !in IdsOf(page[1..])
  {
  }

  lemma NothingRestored(s: World, a: ActorId)
    requires a in s.rebuilds && s.rebuilds[a].pending.Keys == IdsOf([])
    ensures s == s.(members := WithBareMembers(s.members, s.rows, IdsOf([])),
                    rebuilds := s.rebuilds[a := s.rebuilds[a].(pending := map[])])
  {
    BareMembersOfNone(s.members, s.rows);
    assert IdsOf([]) == {};
    assert s.rebuilds[a].pending == map[];
  }

  /** What the store holds once the page's tasks are all restored: a bare member each, at the score read with the page. */
  lemma {:induction false} RestoresDo(s: World, a: ActorId, cursor: nat, exhausted: bool, page: seq<TaskId>)
    requires a in s.rebuilds && s.rebuilds[a].cursor == cursor && s.rebuilds[a].exhausted == exhausted
    requires forall i, j :: 0 <= i < j < |page| ==> page[i] < page[j]
    requires s.rebuilds[a].pending.Keys == IdsOf(page) <= s.rows.Keys
    requires forall t :: t in s.rebuilds[a].pending ==> s.rebuilds[a].pending[t] == s.rows[t].sendAt.ms
    ensures Run(s, Restores(a, page))
    ensures After(s, Restores(a, page)) ==
            s.(members := WithBareMembers(s.members, s.rows, IdsOf(page)),
               rebuilds := s.rebuilds[a := Rebuild(cursor, exhausted, map[])])
    decreases |page|
  {
    hide WithBareMembers, Apply, Enabled, Run, After, IdsOf;
    if page == [] {
      RunNil(s);
      NothingRestored(s, a);
    } else {
      var t := page[0];
      FirstId(page);
      RestoreDoes(s, a, t);
      var u := Apply(s, OfRebuild(RestoreMember(a, t)));
      assert u.rebuilds[a].pending.Keys == IdsOf(page[1..]);
      BareMembersCompose(s.members, s.rows, {t}, IdsOf(page[1..]));
      RestoresDo(u, a, cursor, exhausted, page[1..]);
      RunCons(s, OfRebuild(RestoreMember(a, t)), u, Restores(a, page[1..]));
    }
  }

  /** A page as the database selects it is the page that the protocol reads. */
  lemma PageIsRead(s: World, from: nat, pageSize: nat, page: seq<TaskId>)
    requires IsPage(s.rows, from, pageSize, page) && pageSize >= 1
    ensures var next := NextFrom(from, page);
      var read := PageOf(s, Rebuild(from, false, map[]), next, |page| < pageSize);
      && from <= next && read.Keys == IdsOf(page) && IdsOf(page) <= s.rows.Keys
      && (forall t :: t in read ==> read[t] == s.rows[t].sendAt.ms)
      && KeysFrom(s.rows, from) == IdsOf(page) + KeysFrom(s.rows, next)
  {
    PageIsCut(s.rows, from, pageSize, page, NextFrom(from, page));
    hide IsPage;
    assert page != [] ==> page[|page| - 1] in page;
  }

  lemma PageIsCut(rows: map<TaskId, Row>, from: nat, pageSize: nat, page: seq<TaskId>, next: nat)
    requires IsPage(rows, from, pageSize, page) && next == NextFrom(from, page)
    ensures forall t :: t in rows && from <= t < next <==> t in page
    ensures |page| < pageSize ==> forall t :: t in rows && from <= t ==> t in page
  {
    forall t | t in page
      ensures t in rows && from <= t < next
    {
      var k :| 0 <= k < |page| && page[k] == t;
      assert page[k] in KeysFrom(rows, from);
    }
    forall t | t in rows && from <= t
      ensures (t < next || |page| < pageSize) ==> t in page
    {
      assert t in KeysFrom(rows, from);
    }
  }

  /** Where the next page starts. */
  function NextFrom(from: nat, page: seq<TaskId>): (next: nat) {
    if page == [] then from else page[|page| - 1] + 1
  }

  lemma PageStepsDo(s: World, a: ActorId, from: nat, pageSize: nat, page: seq<TaskId>)
    requires pageSize >= 1 && a in s.rebuilds && s.rebuilds[a] == Rebuild(from, false, map[])
    requires IsPage(s.rows, from, pageSize, page)
    ensures var next := NextFrom(from, page);
      var steps := PageSteps(a, next, |page| < pageSize, page);
      && IdsOf(page) <= s.rows.Keys && Run(s, steps)
      && After(s, steps) == s.(members := WithBareMembers(s.members, s.rows, IdsOf(page)),
                               rebuilds := s.rebuilds[a := Rebuild(next, |page| < pageSize, map[])])
  {
    var next, exhausted := NextFrom(from, page), |page| < pageSize;
    var step := OfRebuild(ReadPage(a, next, exhausted));
    PageIsRead(s, from, pageSize, page);
    var read := Apply(s, step);
    assert Enabled(s, step);
    hide Apply, Enabled, Run, After, WithBareMembers, IdsOf;
    assert read.rebuilds[a := Rebuild(next, exhausted, map[])] == s.rebuilds[a := Rebuild(next, exhausted, map[])];
    RestoresDo(read, a, next, exhausted, page);
    RunCons(s, step, read, Restores(a, page));
  }

  lemma SentinelSet(s: World, a: ActorId)
    requires a in s.rebuilds && s.rebuilds[a].pending == map[] && s.rebuilds[a].exhausted
    ensures var steps := [OfRebuild(SetSentinel(a)), OfRebuild(EndRebuild(a))];
      Run(s, steps) && After(s, steps) == s.(sentinel := true, rebuilds := s.rebuilds - {a})
  {
    var t := RebuildApply(s, SetSentinel(a));
    var u := RebuildApply(t, EndRebuild(a));
    var steps := RunTwo(s, OfRebuild(SetSentinel(a)), t, OfRebuild(EndRebuild(a)), u);
  }

  lemma LastPage(rows: map<TaskId, Row>, from: nat, pageSize: nat, page: seq<TaskId>)
    requires IsPage(rows, from, pageSize, page) && |page| < pageSize
    ensures KeysFrom(rows, from) == IdsOf(page)
  {
    PageIsCut(rows, from, pageSize, page, NextFrom(from, page));
  }

  /** What rebuild `a` leaves when it has restored the members of these tasks and is over. */
  function Finished(s: World, a: ActorId, ids: set<TaskId>): (t: World)
    requires ids <= s.rows.Keys
  {
    s.(members := WithBareMembers(s.members, s.rows, ids), sentinel := true, rebuilds := s.rebuilds - {a})
  }

  lemma FinishedAfterPage(s: World, a: ActorId, ids: set<TaskId>, r: ReleaseProtocol.Rebuild, more: set<TaskId>)
    requires ids <= s.rows.Keys && more <= s.rows.Keys
    ensures var t := s.(members := WithBareMembers(s.members, s.rows, ids), rebuilds := s.rebuilds[a := r]);
      Finished(t, a, more) == Finished(s, a, ids + more)
  {
    hide WithBareMembers;
    assert s.rebuilds[a := r] - {a} == s.rebuilds - {a};
    BareMembersCompose(s.members, s.rows, ids, more);
  }

  lemma NoMore(s: World, a: ActorId)
    ensures Finished(s, a, {}) == s.(sentinel := true, rebuilds := s.rebuilds - {a})
  {
    BareMembersOfNone(s.members, s.rows);
  }

  lemma {:induction false} RebuildStepsDo(s: World, a: ActorId, from: nat, pageSize: nat, pages: seq<seq<TaskId>>)
    requires pageSize >= 1 && a in s.rebuilds && s.rebuilds[a] == Rebuild(from, false, map[])
    requires Pages(s.rows, from, pageSize, pages)
    ensures KeysFrom(s.rows, from) <= s.rows.Keys
    ensures Run(s, RebuildSteps(a, from, pageSize, pages))
    ensures After(s, RebuildSteps(a, from, pageSize, pages)) == Finished(s, a, KeysFrom(s.rows, from))
    decreases |pages|
  {
    hide PageSteps, Run, After, WithBareMembers, IsPage, IdsOf, PageOf, KeysFrom, NextFrom, Finished;
    var page, next := pages[0], NextFrom(from, pages[0]);
    PageStepsDo(s, a, from, pageSize, page);
    PageIsRead(s, from, pageSize, page);
    var first := PageSteps(a, next, |page| < pageSize, page);
    var t := After(s, first);
    var rest := RebuildSteps(a, next, pageSize, pages[1..]);
    if |page| < pageSize {
      LastPage(s.rows, from, pageSize, page);
      assert pages[1..] == [];
      SentinelSet(t, a);
      NoMore(t, a);
      FinishedAfterPage(s, a, IdsOf(page), t.rebuilds[a], {});
      assert IdsOf(page) + {} == IdsOf(page);
    } else {
      FullPage(s.rows, from, pageSize, pages);
      RebuildStepsDo(t, a, next, pageSize, pages[1..]);
      FinishedAfterPage(s, a, IdsOf(page), t.rebuilds[a], KeysFrom(s.rows, next));
    }
    RunConcat(s, first, rest);
  }

  lemma FullPage(rows: map<TaskId, Row>, from: nat, pageSize: nat, pages: seq<seq<TaskId>>)
    requires Pages(rows, from, pageSize, pages) && |pages[0]| >= pageSize
    ensures Pages(rows, NextFrom(from, pages[0]), pageSize, pages[1..])
  {
  }

  /** The loop of a rebuild is the rebuild of `ReleaseProtocol`: the commands for the pages it reads are steps the protocol
    * allows whenever the sentinel is missing, and with nobody else at work they leave what the loop leaves, the sentinel
    * set and every row with its bare member, due at its send time. */
  lemma RebuildIsTheProtocols(s: World, a: ActorId, pageSize: nat, pages: seq<seq<TaskId>>)
    requires pageSize >= 1 && !s.sentinel && a !in s.rebuilds && Pages(s.rows, 0, pageSize, pages)
    ensures var steps := [OfRebuild(StartRebuild(a))] + RebuildSteps(a, 0, pageSize, pages);
      && Run(s, steps)
      && var t := After(s, steps);
         RebuiltFrom(s.members, s.rows, s.rows.Keys, t.members) && t == s.(members := t.members, sentinel := true)
  {
    var step := OfRebuild(StartRebuild(a));
    var u := s.(rebuilds := s.rebuilds[a := Rebuild(0, false, map[])]);
    assert Enabled(s, step) && Apply(s, step) == u;
    assert u.rebuilds - {a} == s.rebuilds;
    assert KeysFrom(s.rows, 0) == s.rows.Keys;
    hide Apply, Enabled, Run, After, WithBareMembers, RebuiltFrom, Pages, KeysFrom;
    RebuildStepsDo(u, a, 0, pageSize, pages);
    RunCons(s, step, u, RebuildSteps(a, 0, pageSize, pages));
    BareMembersRebuild(s.members, s.rows, s.rows.Keys);
  }
}
