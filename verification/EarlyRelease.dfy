/** A run of the release protocol in which a task parked a second time is released at the time of its first parking: a
  * poll that dies between its publish and its clean-up leaves a sorted-set member behind, and that member brings the
  * later version of the row before a poll too soon. */
module EarlyRelease {
  import opened Delivery
  import opened ReleaseProtocol
  import opened ReleaseRuns

  const RETRIED := Task(1, Normal, [], true, 3, 1, 1)

  /** A poll has published it at 100 ms and died: row and member are still there, the member due again a minute later. */
  function PublishedOnce(): World {
    ParkedOnce().(now := 100, scheduled := map[], members := map[OLD_MEMBER := 60_100], outbound := map[5 := DEFERRED],
                  next := 6)
  }

  /** It has failed, and been parked again until 10 000 s, which overwrites the row. */
  function ParkedTwice(): World {
    PublishedOnce().(rows := map[1 := Row(RETRIED, SendTime(10_000_000, 6))],
                     scheduled := map[7 := Scheduled(1, 7, 10_000_000, false)],
                     outbound := map[], settled := {2, 5}, next := 8)
  }

  /** The poll publishes the task and dies. */
  lemma FirstRelease() returns (steps: seq<Step>)
    ensures Run(ParkedOnce(), steps) && After(ParkedOnce(), steps) == PublishedOnce()
  {
    var claim := ClaimingOnce();
    var die := Dying(ClaimedOnce());
    RunConcat(ParkedOnce(), claim, die);
    steps := claim + die;
  }

  lemma Dying(s: World) returns (steps: seq<Step>)
    requires s == ClaimedOnce()
    ensures Run(s, steps) && After(s, steps) == PublishedOnce()
  {
    var p := s.polls[0];
    assert 1 in TasksOf({OLD_MEMBER});
    assert 1 in ToPublish(p);
    var t := PollApply(s, PublishOne(0, 1));
    assert PollApply(t, EndPoll(0)) == PublishedOnce();
    RunNil(PublishedOnce());
    RunCons(t, OfPoll(EndPoll(0)), PublishedOnce(), []);
    RunCons(s, OfPoll(PublishOne(0, 1)), t, [OfPoll(EndPoll(0))] + []);
    steps := [OfPoll(PublishOne(0, 1))] + ([OfPoll(EndPoll(0))] + []);
  }

  function ClaimedAgain(): World {
    ParkedTwice().(now := 60_100, members := map[OLD_MEMBER := 120_100],
                   polls := map[1 := Poll.Releasing({OLD_MEMBER}, ParkedTwice().rows, {}, {}, 8)])
  }

  lemma ClaimingAgain() returns (steps: seq<Step>)
    ensures Run(ParkedTwice(), steps) && After(ParkedTwice(), steps) == ClaimedAgain()
  {
    var s := ParkedTwice().(now := 60_100);
    steps := Claiming(s, 1);
    RunCons(ParkedTwice(), Tick(60_000), s, steps);
    steps := [Tick(60_000)] + steps;
  }

  lemma TooEarly()
    ensures var s := ClaimedAgain();
      && Enabled(s, OfPoll(PublishOne(1, 1)))
      && 1 in s.rows && s.polls[1].rows[1] == s.rows[1] && s.rows[1].sendAt.ms == 10_000_000 && s.now == 60_100
  {
    assert 1 in TasksOf({OLD_MEMBER});
    assert 1 in ToPublish(ClaimedAgain().polls[1]);
  }

  /** A poll may publish a task long before the send time of the very row it has read: here 9939.9 s too soon. */
  lemma AnOldMemberReleasesEarly() returns (steps: seq<Step>)
    ensures Run(Init(), steps)
    ensures var s := After(Init(), steps);
      && Enabled(s, OfPoll(PublishOne(1, 1)))
      && 1 in s.rows && s.polls[1].rows[1] == s.rows[1] && s.rows[1].sendAt.ms == 10_000_000 && s.now == 60_100
  {
    TooEarly();
    var d := Dispatching();
    var p := Parking(OnStream(), 2, DEFERRED, false, 100, ParkedOnce());
    var r := FirstRelease();
    var q := Parking(PublishedOnce(), 5, RETRIED, true, 10_000_000, ParkedTwice());
    hide Enabled, Apply, Init, Run, After, OnStream, ParkedOnce, PublishedOnce, ParkedTwice, ClaimedAgain;
    var c := ClaimingAgain();
    RunConcat(PublishedOnce(), q, c);
    RunConcat(ParkedOnce(), r, q + c);
    RunConcat(OnStream(), p, r + (q + c));
    RunConcat(Init(), d, p + (r + (q + c)));
    steps := d + (p + (r + (q + c)));
  }
}
