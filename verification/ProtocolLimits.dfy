/** Where the control plane's promises stop: commits that no coordinator made. */
module ProtocolLimits {
  import opened Text
  import opened WorldData
  import opened Topologies
  import opened Stores
  import opened Protocol
  import opened ProtocolInvariants
  import opened ProtocolTheorems
  import opened CoordinatorRuns

  // ---- a term past the counter ----

  const REPAIRED := Topology(1, 7, map["a" := "n"], map["a" := 1], 1)

  // A repair names its leader term freely, so the committed term may pass the counter of issued terms.
  lemma RepairCanPassTheCounter()
    ensures var s := Run([CommitRepair(0, REPAIRED, None)]);
            Current(s.commits).leaderTerm == 7 && s.redis.term == 0
  {
    var l := CommitRepair(0, REPAIRED, None);
    assert [l][..0] == [];
    assert Run([]) == INIT;
    ValidRepaired();
    assert Run([l]) == Do(INIT, l);
  }

  lemma ValidRepaired()
    ensures Valid(REPAIRED, None)
  {
    assert Legal("a") && Legal("n");
  }

  // Until as many terms are issued, no commit of a leader gets through.
  lemma LeadersWaitForTheCounter(labels: seq<Label>, expected: nat, next: Topology, mig: Option<Migration>, term: nat)
    ensures var s := Run(labels);
            Current(s.commits).leaderTerm > s.redis.term && term != 0 ==> !LeaderVerdict(s.redis, expected, next, mig, term).Saved?
  {
    hide Do;
    var s := Run(labels);
    RunsAreGood(labels);
    if term != 0 && LeaderVerdict(s.redis, expected, next, mig, term).Saved? { SavedMeans(s, expected, next, mig, term); }
  }

  // Over any history, terms stay within the counter at each commit exactly when those of the repairs do.
  lemma TermsWithinCounterIff(labels: seq<Label>)
    ensures var commits := Run(labels).commits;
            (forall k | 0 <= k < |commits| :: commits[k].topology.leaderTerm <= commits[k].counter)
            <==> RepairsWithinCounter(commits)
  {
    hide Do;
    RunsAreGood(labels);
    var s := Run(labels);
    forall k | 0 <= k < |s.commits| && !s.commits[k].cause.Repair? ensures s.commits[k].topology.leaderTerm <= s.commits[k].counter {
      assert CommitTermOk(s.acquirers, s.commits[k]);
    }
  }

  predicate RepairsWithinCounter(commits: seq<Commit>) {
    forall k | 0 <= k < |commits| && commits[k].cause.Repair? :: commits[k].topology.leaderTerm <= commits[k].counter
  }

  // The committed term is above the counter exactly when the last commit is a repair whose term is.
  lemma TermAboveCounterIff(labels: seq<Label>)
    ensures var s := Run(labels);
            Current(s.commits).leaderTerm > s.redis.term <==>
              && s.commits != [] && s.commits[|s.commits| - 1].cause.Repair?
              && s.commits[|s.commits| - 1].topology.leaderTerm > s.redis.term
  {
    hide Do;
    RunsAreGood(labels);
    var s := Run(labels);
    if s.commits != [] { assert CommitTermOk(s.acquirers, s.commits[|s.commits| - 1]); }
  }

  ghost predicate WithinCounter(s: Sys) { Current(s.commits).leaderTerm <= s.redis.term }

  // At every moment of a run the committed term is within the counter exactly when each repair named a term that
  // was, at that repair.
  lemma AlwaysWithinCounterIff(labels: seq<Label>)
    ensures (forall n | 0 <= n <= |labels| :: WithinCounter(Run(labels[..n]))) <==> RepairsWithinCounter(Run(labels).commits)
  {
    hide Do, Run;
    var commits := Run(labels).commits;
    if RepairsWithinCounter(commits) {
      forall n | 0 <= n <= |labels| ensures WithinCounter(Run(labels[..n])) { RepairsKeepWithinCounter(labels, n); }
    }
    if forall n | 0 <= n <= |labels| :: WithinCounter(Run(labels[..n])) {
      forall k | 0 <= k < |commits| && commits[k].cause.Repair? ensures commits[k].topology.leaderTerm <= commits[k].counter {
        var n := MomentOfCommit(labels, k);
        assert WithinCounter(Run(labels[..n]));
      }
    }
  }

  lemma RepairsKeepWithinCounter(labels: seq<Label>, n: nat)
    requires n <= |labels| && RepairsWithinCounter(Run(labels).commits)
    ensures WithinCounter(Run(labels[..n]))
  {
    hide Do;
    var s := Run(labels[..n]);
    assert labels[..n] + labels[n..] == labels;
    CommitsGrow(labels[..n], labels[n..]);
    assert forall k | 0 <= k < |s.commits| :: s.commits[k] == Run(labels).commits[k];
    TermsWithinCounterIff(labels[..n]);
    RunsAreGood(labels[..n]);
    if s.commits != [] { assert CommitTermOk(s.acquirers, s.commits[|s.commits| - 1]); }
  }

  // The moment right after commit k.
  lemma {:induction false} MomentOfCommit(labels: seq<Label>, k: nat) returns (n: nat)
    requires k < |Run(labels).commits|
    ensures n <= |labels| && |Run(labels[..n]).commits| == k + 1 && Run(labels[..n]).commits[k] == Run(labels).commits[k]
    ensures Run(labels[..n]).redis.term == Run(labels).commits[k].counter
  {
    hide Do;
    assert labels != [];
    var before, l := labels[..|labels| - 1], labels[|labels| - 1];
    OneStepLogsTheCounter(Run(before), l);
    CommitKeepsCounter(Run(before), l);
    if k < |Run(before).commits| {
      n := MomentOfCommit(before, k);
      assert labels[..n] == before[..n];
    } else {
      n := |labels|;
      assert labels[..n] == labels;
    }
  }

  lemma CommitKeepsCounter(s: Sys, l: Label)
    ensures Do(s, l).commits != s.commits ==> Do(s, l).redis.term == s.redis.term
  {
    if Writes(l) {
      hide CasVerdict, WithFences, Migrate, CheckpointAccepted;
    } else {
      hide Do;
      QuietStepGrows(s, l);
    }
  }

  // ---- a map dropped from the owners ----

  const LISTED := Topology(1, 0, map["a" := "n"], map["a" := 1], 1)
  const DROPPED := Topology(2, 0, map[], map["a" := 2], 1)
  const LATE := MapCheckpoint("a", "n", 1, 5, [], [], [], [])

  // The commit that drops a map writes no fence for it, so the node that lost it still stores a checkpoint at its
  // old epoch.
  lemma DroppedOwnerStillSaves()
    ensures var s := Run([CommitRepair(0, LISTED, None), CommitRepair(1, DROPPED, None)]);
            && Current(s.commits).OwnerOf("a") == "" && Current(s.commits).EpochOf("a") == 2
            && AfterSave(s.redis, LATE, "n", 1).checkpoints == map["a" := Json(LATE)]
  {
    var first, second := CommitRepair(0, LISTED, None), CommitRepair(1, DROPPED, None);
    ListedIsCommitted();
    hide Do;
    assert [first][..0] == [] && [first, second][..1] == [first];
    assert Run([]) == INIT && Run([first]) == Do(INIT, first);
    DroppedIsCommitted(Run([first]));
    assert Run([first, second]) == Do(Run([first]), second);
  }

  lemma ListedIsCommitted()
    ensures var s := Do(INIT, CommitRepair(0, LISTED, None));
            s.redis.topology == Some(Json(LISTED)) && s.redis.fences == map["a" := Json(Fence("n", 1))] && s.redis.checkpoints == map[]
  {
    assert Legal("a") && Legal("n") && Valid(LISTED, None);
  }

  lemma DroppedIsCommitted(s: Sys)
    requires s.redis.topology == Some(Json(LISTED))
    ensures var t := Do(s, CommitRepair(1, DROPPED, None));
            && Current(t.commits) == DROPPED
            && t.redis.fences == s.redis.fences && t.redis.checkpoints == s.redis.checkpoints
  {
    assert Legal("a") && Valid(DROPPED, None) && EpochKept(LISTED, DROPPED, "a");
  }
}
