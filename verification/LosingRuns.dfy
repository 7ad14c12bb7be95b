/** Two runs of the release protocol that lose a task: one by a wipe of Redis in the middle of a poll, one by an engine
  * marker that outlives the handler that set it. */
module LosingRuns {
  import opened ReleaseProtocol
  import opened ReleaseRuns

  /** The poll has published the task and not yet deleted its row. */
  function PublishedNotDeleted(): World {
    ClaimedOnce().(outbound := map[5 := DEFERRED], next := 6,
                   polls := map[0 := Poll.Releasing({OLD_MEMBER}, ParkedOnce().rows, {}, {1}, 5)])
  }

  lemma PublishingOnce() returns (steps: seq<Step>)
    ensures Run(ClaimedOnce(), steps) && After(ClaimedOnce(), steps) == PublishedNotDeleted()
  {
    var s := ClaimedOnce();
    assert OLD_MEMBER.task in TasksOf({OLD_MEMBER});
    assert 1 in ToPublish(s.polls[0]);
    assert s.polls[0].published + {1} == {1};
    assert PollApply(s, PublishOne(0, 1)).polls == PublishedNotDeleted().polls;
    RunNil(PublishedNotDeleted());
    RunCons(s, OfPoll(PublishOne(0, 1)), PublishedNotDeleted(), []);
    steps := [OfPoll(PublishOne(0, 1))] + [];
  }

  lemma WipingThenDeleting()
    ensures var s := PublishedNotDeleted();
      && 1 in s.known && 1 in s.rows && NotLost(s, 1) && Enabled(s, Wipe)
      && var t := Apply(s, Wipe);
         Enabled(t, OfPoll(DeleteRows(0))) && !NotLost(Apply(t, OfPoll(DeleteRows(0))), 1)
  {
    var s := PublishedNotDeleted();
    assert 5 in s.outbound;
    assert OLD_MEMBER.task in TasksOf({OLD_MEMBER});
    assert 1 in TasksOf({OLD_MEMBER});
  }

  /** Redis is wiped when a poll has published a parked task and not yet deleted its row: the delete then takes the last
    * copy. */
  lemma AWipeLosesAParkedTask() returns (steps: seq<Step>)
    ensures Run(Init(), steps)
    ensures var s := After(Init(), steps);
      && 1 in s.known && 1 in s.rows && NotLost(s, 1) && Enabled(s, Wipe)
      && var t := Apply(s, Wipe);
         Enabled(t, OfPoll(DeleteRows(0))) && !NotLost(Apply(t, OfPoll(DeleteRows(0))), 1)
  {
    var d := Dispatching();
    var p := Parking(OnStream(), 2, DEFERRED, false, 100, ParkedOnce());
    WipingThenDeleting();
    hide Enabled, Apply, Init, Run, After, OnStream, ParkedOnce, ClaimedOnce, PublishedNotDeleted, NotLost;
    var c := ClaimingOnce();
    var q := PublishingOnce();
    RunConcat(ParkedOnce(), c, q);
    RunConcat(OnStream(), p, c + q);
    RunConcat(Init(), d, p + (c + q));
    steps := d + (p + (c + q));
  }

  // ---------------------------------------------------------------- a late marker

  function SentinelSet(): World {
    Init().(sentinel := true, rebuilds := map[0 := Rebuild(0, true, map[])])
  }

  lemma SettingSentinel() returns (steps: seq<Step>)
    ensures Run(Init(), steps) && After(Init(), steps) == SentinelSet()
  {
    var s1 := Init().(rebuilds := map[0 := Rebuild(0, false, map[])]);
    var s2 := Init().(rebuilds := map[0 := Rebuild(0, true, map[])]);
    assert PageOf(s1, s1.rebuilds[0], 0, true) == map[];
    assert RebuildApply(s1, ReadPage(0, 0, true)) == s2;
    RunNil(SentinelSet());
    RunCons(s2, OfRebuild(SetSentinel(0)), SentinelSet(), []);
    RunCons(s1, OfRebuild(ReadPage(0, 0, true)), s2, [OfRebuild(SetSentinel(0))] + []);
    RunCons(Init(), OfRebuild(StartRebuild(0)), s1,
            [OfRebuild(ReadPage(0, 0, true))] + ([OfRebuild(SetSentinel(0))] + []));
    steps := [OfRebuild(StartRebuild(0))] + ([OfRebuild(ReadPage(0, 0, true))] + ([OfRebuild(SetSentinel(0))] + []));
  }

  const ORDER := EngineOrder(FIRST_TRY, SendTime(9, 1), 1)

  /** An engine handler has inserted the row of its order and died. */
  function InsertedOnly(): World {
    SentinelSet().(upstream := map[1 := ORDER], origin := map[1 := FIRST_TRY], marked := {1},
                   rows := map[1 := Row(FIRST_TRY, SendTime(9, 1))], earliest := map[1 := 9], next := 2)
  }

  lemma Inserting() returns (steps: seq<Step>)
    ensures Run(SentinelSet(), steps) && After(SentinelSet(), steps) == InsertedOnly()
  {
    var s1 := SentinelSet().(upstream := map[1 := ORDER], origin := map[1 := FIRST_TRY], next := 2);
    var s2 := s1.(engines := map[0 := Deciding(ORDER)], marked := {1});
    var s3 := InsertedOnly().(engines := map[0 := Inserted(ORDER)]);
    assert EngineApply(s2, EngineStep.InsertRow(0)) == s3;
    assert EngineApply(s3, EngineCrash(0)) == InsertedOnly();
    RunNil(InsertedOnly());
    RunCons(s3, OfEngine(EngineCrash(0)), InsertedOnly(), []);
    steps := [OfEngine(EngineCrash(0))] + [];
    RunCons(s2, OfEngine(EngineStep.InsertRow(0)), s3, steps);
    steps := [OfEngine(EngineStep.InsertRow(0))] + steps;
    RunCons(s1, OfEngine(TakeOrder(0, 1)), s2, steps);
    steps := [OfEngine(TakeOrder(0, 1))] + steps;
    RunCons(SentinelSet(), OfEngine(Arrive(FIRST_TRY, 9)), s1, steps);
    steps := [OfEngine(Arrive(FIRST_TRY, 9))] + steps;
  }

  /** The engine dies between its row and its event, and its entry is redelivered while its marker still stands: the ack of
    * the supposed duplicate leaves a row that no poll will ever find. */
  lemma ALateMarkerLosesATask() returns (steps: seq<Step>)
    ensures Run(Init(), steps)
    ensures var s := After(Init(), steps);
      && 1 in s.origin && 1 in s.rows && s.sentinel && Enabled(s, OfEngine(AckDuplicate(1)))
      && var t := Apply(s, OfEngine(AckDuplicate(1)));
         1 !in t.upstream && 1 !in t.gone && t.engines == map[] && !NotLost(t, 1)
  {
    var a := SettingSentinel();
    var b := Inserting();
    RunConcat(Init(), a, b);
    steps := a + b;
  }
}
