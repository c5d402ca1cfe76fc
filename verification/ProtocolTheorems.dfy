/** What holds in every run of the control plane, whatever the interleaving. */
module ProtocolTheorems {
  import opened Text
  import opened Topologies
  import opened Stores
  import opened Electors
  import opened Authorities
  import opened Coordinators
  import opened Protocol
  import opened ProtocolInvariants

  // ---- one owner per map and epoch, over the whole history ----

  lemma {:induction false} EpochsOnlyGrow(commits: seq<Commit>, i: nat, j: nat, m: MapId)
    requires i <= j < |commits| && forall k: nat | k + 1 < |commits| :: Follows(commits, k)
    ensures commits[i].topology.EpochOf(m) <= commits[j].topology.EpochOf(m)
    ensures commits[i].topology.EpochOf(m) == commits[j].topology.EpochOf(m) != 0 ==>
              commits[i].topology.OwnerOf(m) == commits[j].topology.OwnerOf(m)
    ensures commits[i].topology.leaderTerm <= commits[j].topology.leaderTerm && commits[i].counter <= commits[j].counter
  {
    if i < j {
      EpochsOnlyGrow(commits, i, j - 1, m);
      assert Follows(commits, j - 1);
      if m in commits[j - 1].topology.mapEpochs {
        assert EpochKept(commits[j - 1].topology, commits[j].topology, m);
      }
    }
  }

  lemma OneOwnerPerEpoch(labels: seq<Label>, i: nat, j: nat, m: MapId)
    ensures var commits := Run(labels).commits;
            i < |commits| && j < |commits| && commits[i].topology.EpochOf(m) == commits[j].topology.EpochOf(m) != 0 ==>
              commits[i].topology.OwnerOf(m) == commits[j].topology.OwnerOf(m)
  {
    hide Do;
    RunsAreGood(labels);
    var commits := Run(labels).commits;
    if i <= j < |commits| { EpochsOnlyGrow(commits, i, j, m); }
    if j <= i < |commits| { EpochsOnlyGrow(commits, j, i, m); }
  }

  // However stale their caches, two nodes never both take themselves for the owner at one epoch.
  lemma NoTwoAuthorities(labels: seq<Label>, a: NodeId, b: NodeId, m: MapId, epoch: nat)
    ensures var caches := Run(labels).caches;
            a in caches && b in caches && Owns(caches[a], a, m, epoch) && Owns(caches[b], b, m, epoch) ==> a == b
  {
    hide Do;
    var s := Run(labels);
    RunsAreGood(labels);
    if a in s.caches && b in s.caches {
      OneOwnerPerEpoch(labels, s.caches[a].version - 1, s.caches[b].version - 1, m);
    }
  }

  // ---- fences and checkpoints ----

  lemma FencesAgreeWithTopology(labels: seq<Label>, m: MapId)
    ensures var s := Run(labels);
            m in Current(s.commits).owners ==>
              m in s.redis.fences && s.redis.fences[m] == Json(Fence(Current(s.commits).owners[m], Current(s.commits).EpochOf(m)))
    ensures var s := Run(labels);
            m in s.redis.checkpoints ==>
              && m in s.redis.fences && s.redis.checkpoints[m].Json? && s.redis.fences[m].Json?
              && var cp, fence := s.redis.checkpoints[m].value, s.redis.fences[m].value;
                 cp.mapEpoch <= fence.epoch && (cp.mapEpoch == fence.epoch ==> cp.nodeId == fence.owner)
  {
    hide Do;
    RunsAreGood(labels);
    if m in Run(labels).redis.checkpoints {
      assert CheckpointOk(Run(labels).redis.checkpoints, Run(labels).redis.fences, m);
    }
  }

  // t is a later state than s: logs extended, and neither fences, checkpoints nor the term counter went back.
  ghost predicate Advances(s: Sys, t: Sys) {
    && s.commits <= t.commits && s.acquirers <= t.acquirers && s.promotions <= t.promotions
    && s.redis.term <= t.redis.term
    && (forall m | m in s.redis.fences :: m in t.redis.fences && FenceAdvances(s.redis.fences[m], t.redis.fences[m]))
    && (forall m | m in s.redis.checkpoints ::
          m in t.redis.checkpoints && CheckpointAdvances(s.redis.checkpoints[m], t.redis.checkpoints[m]))
  }

  ghost predicate FenceAdvances(f: Doc<Fence>, g: Doc<Fence>) {
    f.Json? && g.Json? && f.value.epoch <= g.value.epoch && (f.value.epoch == g.value.epoch ==> f == g)
  }

  ghost predicate CheckpointAdvances(c: Doc<Checkpoint>, d: Doc<Checkpoint>) {
    c.Json? && d.Json? && c.value.mapEpoch <= d.value.mapEpoch
    && (c.value.mapEpoch == d.value.mapEpoch ==> c.value.nodeId == d.value.nodeId)
  }

  lemma CommitAdvances(s: Sys, tasks: map<nat, Task>, code: CasCode, expected: nat, next: Topology, mig: Option<Migration>,
                       term: nat, cause: Cause)
    requires Good(s) && (code.Saved? ==> CasVerdict(s.redis, expected, next, mig, term).Saved?)
    ensures Advances(s, Logged(s.(tasks := tasks), code, next, mig, cause))
  {
    hide Terms, Evidence, Checkpoints, CasVerdict, Migrate;
    StayingAdvances(s);
    if code.Saved? {
      SavedMeans(s, expected, next, mig, term);
      CommitKeepsFences(s.redis.fences, Current(s.commits), next);
    }
  }

  lemma StayingAdvances(s: Sys)
    requires Good(s)
    ensures Advances(s, s)
  {
    forall m | m in s.redis.fences ensures s.redis.fences[m].Json? { assert FenceOk(s.redis.fences, Current(s.commits), m); }
    forall m | m in s.redis.checkpoints ensures s.redis.checkpoints[m].Json? {
      assert CheckpointOk(s.redis.checkpoints, s.redis.fences, m);
    }
  }

  lemma SaveAdvances(s: Sys, n: NodeId, epoch: nat, cp: Checkpoint)
    requires Good(s)
    ensures Advances(s, s.(redis := AfterSave(s.redis, cp, n, epoch)))
  {
    StayingAdvances(s);
    if CheckpointAccepted(s.redis.fences, cp, n, epoch) && cp.mapId in s.redis.checkpoints {
      assert CheckpointOk(s.redis.checkpoints, s.redis.fences, cp.mapId);
    }
  }

  lemma StepAdvances(s: Sys, l: Label)
    requires Good(s)
    ensures Advances(s, Do(s, l))
  {
    hide Good, Advances, CasVerdict, AfterSave, Logged;
    if !Writes(l) {
      hide Do;
      QuietStepGrows(s, l);
      GrowingAdvances(s, Do(s, l));
      return;
    }
    match l
    case CommitFailover(id, now) => FailoverAdvances(s, id, now);
    case CommitBootstrap(id) => BootstrapAdvances(s, id);
    case CommitRepair(expected, next, mig) =>
      CommitAdvances(s, s.tasks, CasVerdict(s.redis, expected, next, mig, 0), expected, next, mig, 0, Repair);
    case SaveCheckpoint(n, epoch, cp) => SaveAdvances(s, n, epoch, cp);
  }

  predicate Writes(l: Label) { l.CommitFailover? || l.CommitBootstrap? || l.CommitRepair? || l.SaveCheckpoint? }

  lemma QuietStepGrows(s: Sys, l: Label)
    requires !Writes(l)
    ensures var t := Do(s, l);
            && t.commits == s.commits && t.redis.topology == s.redis.topology
            && t.redis.fences == s.redis.fences && t.redis.checkpoints == s.redis.checkpoints
            && s.acquirers <= t.acquirers && s.promotions <= t.promotions && s.redis.term <= t.redis.term
  {
    hide DoCommitFailover, DoCommitBootstrap, DoCommitRepair, AfterSave, Load, MayPromote, HoldsTerm, UsableCheckpoint, IsInitial;
  }

  lemma FailoverAdvances(s: Sys, id: nat, now: nat)
    requires Good(s)
    ensures Advances(s, DoCommitFailover(s, id, now))
  {
    hide Good, Advances, CasVerdict, Logged;
    StayingAdvances(s);
    if id in s.tasks && s.tasks[id].Confirmed? {
      var t := s.tasks[id];
      var next, mig := FailoverProposal(t, now), FailoverMigration(t);
      CommitAdvances(s, s.tasks - {id}, LeaderVerdict(s.redis, t.topology.version, next, mig, t.term),
                     t.topology.version, next, mig, t.term, Failover(t.coord, t.term, t.mapId, t.failed, t.standby));
    }
  }

  lemma BootstrapAdvances(s: Sys, id: nat)
    requires Good(s)
    ensures Advances(s, DoCommitBootstrap(s, id))
  {
    hide Good, Advances, CasVerdict, Logged;
    StayingAdvances(s);
    if id in s.tasks && s.tasks[id].BootConfirmed? {
      var t := s.tasks[id];
      CommitAdvances(s, s.tasks - {id}, LeaderVerdict(s.redis, 0, t.topology, None, t.term), 0, t.topology, None, t.term,
                     Bootstrap(t.coord, t.term));
    }
  }

  lemma GrowingAdvances(s: Sys, t: Sys)
    requires Good(s) && t.commits == s.commits && t.redis.fences == s.redis.fences && t.redis.checkpoints == s.redis.checkpoints
    requires s.acquirers <= t.acquirers && s.promotions <= t.promotions && s.redis.term <= t.redis.term
    ensures Advances(s, t)
  {
    StayingAdvances(s);
  }

  lemma {:induction false} RunsOnlyAdvance(labels: seq<Label>, more: seq<Label>)
    ensures Advances(Run(labels), Run(labels + more))
  {
    hide Do, Advances, Good;
    if more == [] {
      assert labels + more == labels;
      RunsAreGood(labels);
      StayingAdvances(Run(labels));
    } else {
      var last := |more| - 1;
      var all := labels + more;
      assert all[..|all| - 1] == labels + more[..last] && all[|all| - 1] == more[last];
      RunsOnlyAdvance(labels, more[..last]);
      RunsAreGood(labels + more[..last]);
      StepAdvances(Run(labels + more[..last]), more[last]);
      AdvancesTransitive(Run(labels), Run(labels + more[..last]), Run(all));
    }
  }

  // The committed leader term never decreases, along the log and along the run.
  lemma LeaderTermNeverDecreases(labels: seq<Label>, more: seq<Label>, i: nat, j: nat)
    ensures var commits := Run(labels).commits;
            i <= j < |commits| ==> commits[i].topology.leaderTerm <= commits[j].topology.leaderTerm
    ensures Current(Run(labels).commits).leaderTerm <= Current(Run(labels + more).commits).leaderTerm
  {
    hide Do;
    var now, later := Run(labels).commits, Run(labels + more).commits;
    RunsAreGood(labels);
    RunsAreGood(labels + more);
    RunsOnlyAdvance(labels, more);
    if i <= j < |now| { EpochsOnlyGrow(now, i, j, ""); }
    if now != [] { EpochsOnlyGrow(later, |now| - 1, |later| - 1, ""); }
  }

  lemma AdvancesTransitive(s: Sys, t: Sys, u: Sys)
    requires Advances(s, t) && Advances(t, u)
    ensures Advances(s, u)
  {
  }

  // From the commit that replaces it on, an owner never stores another checkpoint of the map.
  lemma SupersededOwnerHasNoDurableEffect(labels: seq<Label>, more: seq<Label>, cp: Checkpoint, n: NodeId, epoch: nat)
    ensures var then_, now := Current(Run(labels).commits), Run(labels + more).redis;
            cp.mapId in then_.owners && epoch < then_.EpochOf(cp.mapId) ==> AfterSave(now, cp, n, epoch) == now
  {
    hide Do;
    FencesAgreeWithTopology(labels, cp.mapId);
    RunsOnlyAdvance(labels, more);
  }

  // A world write passes the fence only on the node that the committed topology names.
  lemma GuardedWritesAreTheOwners(labels: seq<Label>, m: MapId, n: NodeId, epoch: nat)
    ensures var s := Run(labels);
            m in Current(s.commits).owners ==>
              (FenceHolds(s.redis, m, n, epoch) <==> m != "" && n != "" && Owns(Current(s.commits), n, m, epoch))
  {
    hide Do;
    FencesAgreeWithTopology(labels, m);
  }

  // ---- leader terms ----

  // Each term was issued to one coordinator; whoever leads holds a term issued to it.
  lemma LeadersHoldDifferentTerms(labels: seq<Label>, c: CoordId, d: CoordId)
    ensures var s := Run(labels);
            c != d && TermOf(ElectorOf(s, c)) != 0 && TermOf(ElectorOf(s, d)) != 0 ==>
              TermOf(ElectorOf(s, c)) != TermOf(ElectorOf(s, d))
    ensures var s := Run(labels);
            TermOf(ElectorOf(s, c)) != 0 ==> Issued(s.acquirers, c, TermOf(ElectorOf(s, c)))
  {
    hide Do;
    RunsAreGood(labels);
  }

  lemma LeaseBelongsToTheLatestTerm(labels: seq<Label>)
    ensures var s := Run(labels);
            |s.acquirers| == s.redis.term && (s.redis.lease.Some? ==> Issued(s.acquirers, s.redis.lease.value, s.redis.term))
  {
    hide Do;
    RunsAreGood(labels);
  }

  // Every coordinator commit carries a term issued to its author, the newest one at that moment.
  lemma CommitsCarryTheirAuthorsTerm(labels: seq<Label>, k: nat)
    ensures var s := Run(labels);
            k < |s.commits| && !s.commits[k].cause.Repair? ==>
              && Issued(s.acquirers, s.commits[k].cause.coord, s.commits[k].cause.term)
              && s.commits[k].topology.leaderTerm == s.commits[k].cause.term == s.commits[k].counter
  {
    hide Do;
    RunsAreGood(labels);
    if k < |Run(labels).commits| { assert CommitTermOk(Run(labels).acquirers, Run(labels).commits[k]); }
  }

  lemma {:induction false} LaterCommitsSeeTheCounter(labels: seq<Label>, more: seq<Label>, k: nat)
    ensures |Run(labels).commits| <= k < |Run(labels + more).commits| ==>
              Run(labels + more).commits[k].counter >= Run(labels).redis.term
  {
    hide Do;
    if more == [] {
      assert labels + more == labels;
    } else {
      var last := |more| - 1;
      var all := labels + more;
      var s := Run(labels + more[..last]);
      assert all[..|all| - 1] == labels + more[..last] && all[|all| - 1] == more[last];
      LaterCommitsSeeTheCounter(labels, more[..last], k);
      RunsOnlyAdvance(labels, more[..last]);
      OneStepLogsTheCounter(s, more[last]);
      assert Run(all) == Do(s, more[last]);
    }
  }

  lemma OneStepLogsTheCounter(s: Sys, l: Label)
    ensures var t := Do(s, l);
            t.commits == s.commits || (|t.commits| == |s.commits| + 1 && t.commits[..|s.commits|] == s.commits
                                       && t.commits[|s.commits|].counter == s.redis.term)
    ensures !l.CommitRepair? && Do(s, l).commits != s.commits ==> !Do(s, l).commits[|s.commits|].cause.Repair?
  {
    hide CasEffect, CasVerdict, Load, Valid, AfterSave;
  }

  // Once term T has been issued, no coordinator commits under a smaller one any more.
  lemma StaleTermsNeverCommit(labels: seq<Label>, more: seq<Label>, k: nat)
    ensures var before, after := Run(labels), Run(labels + more);
            |before.commits| <= k < |after.commits| && !after.commits[k].cause.Repair? ==>
              after.commits[k].cause.term >= before.redis.term
  {
    hide Do;
    LaterCommitsSeeTheCounter(labels, more, k);
    CommitsCarryTheirAuthorsTerm(labels + more, k);
  }

  // ---- failover ----

  // Each failover moved one map by one epoch to a node that had accepted, before, a promotion to exactly that
  // epoch from a checkpoint of the old owner at the old epoch.
  lemma FailoverFollowsPromotion(labels: seq<Label>, k: nat)
    ensures var s := Run(labels);
            k < |s.commits| && s.commits[k].cause.Failover? ==> FailoverOk(s.commits, s.promotions, k)
  {
    hide Do;
    RunsAreGood(labels);
    if k < |Run(labels).commits| { assert CauseOk(Run(labels).commits, Run(labels).promotions, k); }
  }

  // The compare-and-swap never refuses a coordinator for its epochs.
  lemma ProposalsNeverBreakEpochs(labels: seq<Label>, id: nat, now: nat)
    ensures var s := Run(labels);
            id in s.tasks && s.tasks[id].Confirmed? ==>
              var t := s.tasks[id];
              !LeaderVerdict(s.redis, t.topology.version, FailoverProposal(t, now), FailoverMigration(t), t.term).EpochInvariant?
  {
    hide Do;
    var s := Run(labels);
    RunsAreGood(labels);
    if id in s.tasks && s.tasks[id].Confirmed? {
      var t := s.tasks[id];
      assert TaskOk(s.commits, s.promotions, t);
      if t.topology.version == |s.commits| {
        assert t.topology == Current(s.commits);
        RefusedForEpochs(s.redis, t.topology, t.mapId, t.standby, t.term, now);
      }
    }
  }

  lemma FailoverStepKeepsSessionsOnOwners(labels: seq<Label>, id: nat, now: nat)
    ensures var s := Run(labels);
            var t := DoCommitFailover(s, id, now);
            SessionsOnOwners(s.redis.sessions, Current(s.commits)) ==> SessionsOnOwners(t.redis.sessions, Current(t.commits))
  {
    hide Do, Good, CasEffect, CasVerdict, SessionsOnOwners;
    var s := Run(labels);
    RunsAreGood(labels);
    if id in s.tasks && s.tasks[id].Confirmed? {
      var t := s.tasks[id];
      var next, mig := FailoverProposal(t, now), FailoverMigration(t);
      if LeaderVerdict(s.redis, t.topology.version, next, mig, t.term).Saved? {
        SavedFailoverStartsFromCurrent(s, id, now);
        if SessionsOnOwners(s.redis.sessions, t.topology) {
          FailoverKeepsSessionsOnOwners(s.redis, t.topology, t.mapId, t.standby, t.term, now);
        }
      }
    }
  }

  lemma SavedFailoverStartsFromCurrent(s: Sys, id: nat, now: nat)
    requires Good(s) && id in s.tasks && s.tasks[id].Confirmed?
    requires var t := s.tasks[id];
             LeaderVerdict(s.redis, t.topology.version, FailoverProposal(t, now), FailoverMigration(t), t.term).Saved?
    ensures var t := s.tasks[id];
            s.redis.topology == Some(Json(t.topology)) && Current(s.commits) == t.topology
            && t.mapId in t.topology.owners && t.topology.owners[t.mapId] == t.failed
  {
    assert TaskOk(s.commits, s.promotions, s.tasks[id]);
  }
}
