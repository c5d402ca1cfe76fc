/** A run that elects a leader, bootstraps the topology and moves a map to its standby. */
module ProtocolExample {
  import opened Text
  import opened Topologies
  import opened Stores
  import opened Electors
  import opened Coordinators
  import opened Protocol

  const BUILT := Topology(1, 0, map["m" := "a"], map["m" := 1], 1)
  const FIRST := Topology(1, 1, map["m" := "a"], map["m" := 1], 1)
  const SECOND := Topology(2, 1, map["m" := "b"], map["m" := 2], 1)

  // `saved` is what the first owner stores.
  function Labels(saved: Checkpoint): seq<Label> {
    [BeginCampaign("c"), Acquire("c", true), Assign("c"),
     BootStart(0, "c"), BootBuild(0, BUILT), BootConfirm(0), CommitBootstrap(0),
     Refresh("b", 0), Label.SaveCheckpoint("a", 1, saved),
     Start(1, "c", "m", "a"), LoadAndChoose(1, "b"), CheckCheckpoint(1), Promote(1, true), Confirm(1), CommitFailover(1, 1)]
  }

  function ElectorAt(k: nat): Elector {
    if k == 1 then Elector(false, 0, false, true, None)
    else if k == 2 then Elector(false, 0, false, true, Some(1))
    else Elector(true, 1, true, false, None)
  }

  function RedisAt(saved: Checkpoint, k: nat): Redis {
    if k < 2 then EMPTY_REDIS
    else if k < 7 then EMPTY_REDIS.(term := 1, lease := Some("c"))
    else
      Redis(Some(Json(if k < 15 then FIRST else SECOND)),
            map["m" := Json(if k < 15 then Fence("a", 1) else Fence("b", 2))], map[],
            if k < 9 then map[] else map["m" := Json(saved)], 1, Some("c"))
  }

  function TasksAt(saved: Checkpoint, k: nat): map<nat, Task> {
    if k == 4 then map[0 := BootStarted("c", 1)]
    else if k == 5 then map[0 := BootBuilt("c", 1, BUILT)]
    else if k == 6 then map[0 := BootConfirmed("c", 1, FIRST)]
    else if k == 10 then map[1 := Started("c", 1, "m", "a")]
    else if k == 11 then map[1 := Chosen("c", 1, "m", "a", FIRST, "b")]
    else if k == 12 then map[1 := Checked("c", 1, "m", "a", FIRST, "b", saved)]
    else if k == 13 then map[1 := Promoted("c", 1, "m", "a", FIRST, "b", saved)]
    else if k == 14 then map[1 := Confirmed("c", 1, "m", "a", FIRST, "b", saved)]
    else map[]
  }

  function CommitsAt(k: nat): seq<Commit> {
    if k < 7 then []
    else if k < 15 then [Commit(FIRST, Bootstrap("c", 1), 1)]
    else [Commit(FIRST, Bootstrap("c", 1), 1), Commit(SECOND, Failover("c", 1, "m", "a", "b"), 1)]
  }

  function At(saved: Checkpoint, k: nat): Sys {
    Sys(RedisAt(saved, k), if k == 0 then map[] else map["c" := ElectorAt(k)], TasksAt(saved, k),
        if k < 8 then map[] else map["b" := FIRST], CommitsAt(k), if k < 2 then [] else ["c"],
        if k < 13 then [] else [Promotion("b", "m", 2, saved, 1)])
  }

  lemma BothValid()
    ensures Valid(BUILT, None) && Valid(FIRST, None) && Valid(SECOND, None)
  {
    assert Legal("m") && Legal("a") && Legal("b");
  }

  lemma Election(saved: Checkpoint, k: nat)
    requires k < 3
    ensures Do(At(saved, k), Labels(saved)[k]) == At(saved, k + 1)
  {
    hide CasVerdict, Load, Valid;
  }

  lemma BootStarts(saved: Checkpoint)
    ensures Do(At(saved, 3), Labels(saved)[3]) == At(saved, 4)
  {
    hide CasVerdict, Load;
    assert Do(At(saved, 3), BootStart(0, "c")) == At(saved, 4);
  }

  lemma BootBuilds(saved: Checkpoint)
    ensures Do(At(saved, 4), Labels(saved)[4]) == At(saved, 5)
  {
    hide CasVerdict;
    assert Do(At(saved, 4), BootBuild(0, BUILT)) == At(saved, 5);
  }

  lemma BootConfirms(saved: Checkpoint)
    ensures Do(At(saved, 5), Labels(saved)[5]) == At(saved, 6)
  {
    hide CasVerdict, Load;
    assert Do(At(saved, 5), BootConfirm(0)) == At(saved, 6);
  }

  lemma BootCommits(saved: Checkpoint)
    ensures Do(At(saved, 6), CommitBootstrap(0)) == At(saved, 7)
  {
    BothValid();
    hide Valid;
    assert LeaderVerdict(RedisAt(saved, 6), 0, FIRST, None, 1).Saved?;
    hide LeaderVerdict, CasVerdict;
    assert WithFences(map[], FIRST) == map["m" := Json(Fence("a", 1))];
    assert CasEffect(RedisAt(saved, 6), FIRST, None) == RedisAt(saved, 7);
    assert TasksAt(saved, 6) - {0} == map[];
  }

  lemma Saving(saved: Checkpoint, k: nat)
    requires Usable(saved)
    requires 7 <= k < 9
    ensures Do(At(saved, k), Labels(saved)[k]) == At(saved, k + 1)
  {
    hide CasVerdict, Load, Valid;
  }

  lemma Starting(saved: Checkpoint)
    ensures Do(At(saved, 9), Labels(saved)[9]) == At(saved, 10)
  {
    hide CasVerdict, Load;
    assert Do(At(saved, 9), Start(1, "c", "m", "a")) == At(saved, 10);
  }

  lemma Choosing(saved: Checkpoint)
    ensures Do(At(saved, 10), Labels(saved)[10]) == At(saved, 11)
  {
    BothValid();
    hide CasVerdict, Valid;
    assert Do(At(saved, 10), LoadAndChoose(1, "b")) == At(saved, 11);
  }

  lemma Checking(saved: Checkpoint)
    requires Usable(saved)
    ensures Do(At(saved, 11), Labels(saved)[11]) == At(saved, 12)
  {
    hide CasVerdict, Load;
    assert Do(At(saved, 11), CheckCheckpoint(1)) == At(saved, 12);
  }

  lemma Promoting(saved: Checkpoint)
    requires Usable(saved)
    ensures Do(At(saved, 12), Labels(saved)[12]) == At(saved, 13)
  {
    hide CasVerdict, Load;
    assert Do(At(saved, 12), Promote(1, true)) == At(saved, 13);
  }

  lemma Confirming(saved: Checkpoint)
    ensures Do(At(saved, 13), Labels(saved)[13]) == At(saved, 14)
  {
    hide CasVerdict, Load;
    assert Do(At(saved, 13), Confirm(1)) == At(saved, 14);
  }

  lemma SecondIsSaved(saved: Checkpoint)
    ensures LeaderVerdict(RedisAt(saved, 14), 1, SECOND, Some(Migration("m", "a", "b")), 1).Saved?
  {
    BothValid();
    hide Valid;
    assert EpochKept(FIRST, SECOND, "m");
  }

  lemma Committing(saved: Checkpoint)
    ensures Do(At(saved, 14), CommitFailover(1, 1)) == At(saved, 15)
  {
    var mig := Some(Migration("m", "a", "b"));
    assert FailoverProposal(TasksAt(saved, 14)[1], 1) == SECOND;
    SecondIsSaved(saved);
    hide LeaderVerdict, CasVerdict;
    assert WithFences(RedisAt(saved, 14).fences, SECOND) == map["m" := Json(Fence("b", 2))];
    assert Migrate(map[], mig) == map[];
    assert CasEffect(RedisAt(saved, 14), SECOND, mig) == RedisAt(saved, 15);
    assert TasksAt(saved, 14) - {1} == map[];
  }

  predicate Usable(saved: Checkpoint) { UsableCheckpoint(saved, "m", "a", 1) }

  lemma StepAt(saved: Checkpoint, k: nat)
    requires Usable(saved) && k < 15
    ensures Do(At(saved, k), Labels(saved)[k]) == At(saved, k + 1)
  {
    hide Do, At;
    if k < 3 { Election(saved, k); } else if k == 3 { BootStarts(saved); } else if k == 4 { BootBuilds(saved); }
    else if k == 5 { BootConfirms(saved); } else if k == 6 { BootCommits(saved); } else if k < 9 { Saving(saved, k); }
    else if k == 9 { Starting(saved); } else if k == 10 { Choosing(saved); } else if k == 11 { Checking(saved); }
    else if k == 12 { Promoting(saved); } else if k == 13 { Confirming(saved); } else { Committing(saved); }
  }

  lemma {:induction false} RunAt(saved: Checkpoint, k: nat)
    requires Usable(saved) && k <= 15
    ensures Run(Labels(saved)[..k]) == At(saved, k)
  {
    hide Do;
    if k > 0 {
      RunAt(saved, k - 1);
      assert Labels(saved)[..k][..k - 1] == Labels(saved)[..k - 1] && Labels(saved)[..k][k - 1] == Labels(saved)[k - 1];
      StepAt(saved, k - 1);
      hide At;
    }
  }

  // A failover can be committed: coordinators alone bring a map from its first owner to the standby, from whatever
  // checkpoint the owner stored.
  lemma AFailoverHappens(saved: Checkpoint)
    requires Usable(saved)
    ensures CoordinatorsOnly(Labels(saved))
    ensures Run(Labels(saved)).commits ==
            [Commit(FIRST, Bootstrap("c", 1), 1), Commit(SECOND, Failover("c", 1, "m", "a", "b"), 1)]
    ensures Run(Labels(saved)).redis.fences == map["m" := Json(Fence("b", 2))]
    ensures Run(Labels(saved)).promotions == [Promotion("b", "m", 2, saved, 1)]
  {
    hide Run, Do;
    RunAt(saved, 15);
    assert Labels(saved)[..15] == Labels(saved);
  }
}
