/** Whom the fences admit, and what runs add in which only coordinators commit. */
module CoordinatorRuns {
  import opened Text
  import opened Topologies
  import opened Stores
  import opened Authorities
  import opened Coordinators
  import opened Protocol
  import opened ProtocolInvariants
  import opened ProtocolTheorems

  // ---- whom a fence admits, in any run ----

  // The entry of the last commit that listed the map among the owners.
  function LastListing(commits: seq<Commit>, m: MapId): Option<Fence> {
    if commits == [] then None
    else
      var last := Current(commits);
      if m in last.owners then Some(Fence(last.owners[m], last.EpochOf(m)))
      else LastListing(commits[..|commits| - 1], m)
  }

  ghost predicate FenceIsListing(fences: map<MapId, Doc<Fence>>, commits: seq<Commit>, m: MapId) {
    match LastListing(commits, m)
    case None => m !in fences
    case Some(fence) => m in fences && fences[m] == Json(fence)
  }

  // A step commits and rewrites the fences together, or does neither.
  ghost predicate FencesFollow(s: Sys, t: Sys) {
    || (t.commits == s.commits && t.redis.fences == s.redis.fences)
    || (t.commits != [] && t.commits[..|t.commits| - 1] == s.commits
        && t.redis.fences == WithFences(s.redis.fences, Current(t.commits)))
  }

  lemma CommitFencesFollow(s: Sys, tasks: map<nat, Task>, code: CasCode, next: Topology, mig: Option<Migration>, cause: Cause)
    ensures FencesFollow(s, Logged(s.(tasks := tasks), code, next, mig, cause))
  {
    hide WithFences, Migrate;
  }

  lemma StepFencesFollow(s: Sys, l: Label)
    ensures FencesFollow(s, Do(s, l))
  {
    hide CasVerdict, Logged, FencesFollow;
    if !Writes(l) {
      hide Do;
      QuietStepGrows(s, l);
      StandingFencesFollow(s, Do(s, l));
      return;
    }
    match l
    case CommitFailover(id, now) => FailoverFencesFollow(s, id, now);
    case CommitBootstrap(id) => BootstrapFencesFollow(s, id);
    case CommitRepair(expected, next, mig) =>
      CommitFencesFollow(s, s.tasks, CasVerdict(s.redis, expected, next, mig, 0), next, mig, Repair);
    case SaveCheckpoint(_, _, _) => StandingFencesFollow(s, Do(s, l));
  }

  lemma FailoverFencesFollow(s: Sys, id: nat, now: nat)
    ensures FencesFollow(s, DoCommitFailover(s, id, now))
  {
    hide CasVerdict, Logged;
    if id in s.tasks && s.tasks[id].Confirmed? {
      var t := s.tasks[id];
      var next, mig := FailoverProposal(t, now), FailoverMigration(t);
      CommitFencesFollow(s, s.tasks - {id}, LeaderVerdict(s.redis, t.topology.version, next, mig, t.term), next, mig,
                         Failover(t.coord, t.term, t.mapId, t.failed, t.standby));
    }
  }

  lemma BootstrapFencesFollow(s: Sys, id: nat)
    ensures FencesFollow(s, DoCommitBootstrap(s, id))
  {
    hide CasVerdict, Logged;
    if id in s.tasks && s.tasks[id].BootConfirmed? {
      var t := s.tasks[id];
      CommitFencesFollow(s, s.tasks - {id}, LeaderVerdict(s.redis, 0, t.topology, None, t.term), t.topology, None,
                         Bootstrap(t.coord, t.term));
    }
  }

  lemma StandingFencesFollow(s: Sys, t: Sys)
    requires t.commits == s.commits && t.redis.fences == s.redis.fences
    ensures FencesFollow(s, t)
  {
  }

  lemma {:induction false} FencesComeFromListings(labels: seq<Label>, m: MapId)
    ensures FenceIsListing(Run(labels).redis.fences, Run(labels).commits, m)
  {
    hide Do;
    if labels != [] {
      var s, l := Run(labels[..|labels| - 1]), labels[|labels| - 1];
      FencesComeFromListings(labels[..|labels| - 1], m);
      StepFencesFollow(s, l);
    }
  }

  // A checkpoint is admitted exactly from the owner and epoch of the last commit that listed the map: a commit
  // that drops the map from the owners leaves its last owner admitted.
  lemma AdmittedIffLastListed(labels: seq<Label>, cp: Checkpoint, n: NodeId, epoch: nat)
    ensures var s := Run(labels);
            CheckpointAccepted(s.redis.fences, cp, n, epoch) <==>
              && LastListing(s.commits, cp.mapId) == Some(Fence(n, epoch))
              && cp.nodeId == n && cp.mapEpoch == epoch && cp.mapId != "" && n != "" && epoch != 0
  {
    hide Do;
    FencesComeFromListings(labels, cp.mapId);
  }

  // ---- only coordinators commit ----

  lemma {:induction false} CoordinatorsCommitted(labels: seq<Label>, k: nat)
    requires CoordinatorsOnly(labels) && k < |Run(labels).commits|
    ensures !Run(labels).commits[k].cause.Repair?
  {
    hide Do;
    if labels != [] {
      var before, l := labels[..|labels| - 1], labels[|labels| - 1];
      assert l in labels && forall other | other in before :: other in labels;
      OneStepLogsTheCounter(Run(before), l);
      if k < |Run(before).commits| { CoordinatorsCommitted(before, k); }
    }
  }

  // The first commit is a bootstrap, every later one a failover.
  ghost predicate History(commits: seq<Commit>, promotions: seq<Promotion>) {
    forall k: nat | k < |commits| ::
      if k == 0 then IsInitial(commits[k].topology) else commits[k].cause.Failover? && FailoverOk(commits, promotions, k)
  }

  lemma CoordinatorHistory(labels: seq<Label>)
    requires CoordinatorsOnly(labels)
    ensures History(Run(labels).commits, Run(labels).promotions)
  {
    hide Do, HasBacking, IsInitial;
    RunsAreGood(labels);
    var s := Run(labels);
    forall k: nat | k < |s.commits|
      ensures if k == 0 then IsInitial(s.commits[k].topology)
              else s.commits[k].cause.Failover? && FailoverOk(s.commits, s.promotions, k)
    {
      CoordinatorsCommitted(labels, k);
      assert CauseOk(s.commits, s.promotions, k);
    }
  }

  function OwnerChanges(commits: seq<Commit>, m: MapId): nat {
    if |commits| < 2 then 0
    else
      var last := |commits| - 1;
      OwnerChanges(commits[..last], m) +
      if commits[last - 1].topology.OwnerOf(m) == commits[last].topology.OwnerOf(m) then 0 else 1
  }

  // The sum over all maps of epoch - 1.
  ghost function Excess(epochs: map<MapId, nat>): int {
    if epochs == map[] then 0
    else var m :| m in epochs; epochs[m] - 1 + Excess(epochs - {m})
  }

  lemma {:induction false} ExcessAnyOrder(epochs: map<MapId, nat>, m: MapId)
    requires m in epochs
    ensures Excess(epochs) == epochs[m] - 1 + Excess(epochs - {m})
  {
    var first :| first in epochs && Excess(epochs) == epochs[first] - 1 + Excess(epochs - {first});
    if first != m {
      ExcessAnyOrder(epochs - {first}, m);
      ExcessAnyOrder(epochs - {m}, first);
      assert epochs - {first} - {m} == epochs - {m} - {first};
    }
  }

  lemma ExcessUpdated(epochs: map<MapId, nat>, m: MapId, epoch: nat)
    requires m in epochs
    ensures Excess(epochs[m := epoch]) == Excess(epochs) - epochs[m] + epoch
  {
    ExcessAnyOrder(epochs, m);
    ExcessAnyOrder(epochs[m := epoch], m);
    assert epochs[m := epoch] - {m} == epochs - {m};
  }

  lemma {:induction false} ExcessOfOnes(epochs: map<MapId, nat>)
    requires forall m | m in epochs :: epochs[m] == 1
    ensures Excess(epochs) == 0
  {
    if epochs != map[] {
      var m :| m in epochs && Excess(epochs) == epochs[m] - 1 + Excess(epochs - {m});
      ExcessOfOnes(epochs - {m});
    }
  }

  ghost predicate Counted(commits: seq<Commit>) {
    var t := Current(commits);
    && t.owners.Keys == t.mapEpochs.Keys
    && |commits| - 1 == Excess(t.mapEpochs)
    && forall m | m in t.mapEpochs :: t.mapEpochs[m] == OwnerChanges(commits, m) + 1
  }

  lemma {:induction false} HistoryIsCounted(commits: seq<Commit>, promotions: seq<Promotion>)
    requires commits != [] && History(commits, promotions)
    ensures Counted(commits)
  {
    var last := |commits| - 1;
    if last == 0 {
      assert IsInitial(commits[0].topology);
      ExcessOfOnes(commits[0].topology.mapEpochs);
    } else {
      HistoryPrefix(commits, promotions);
      HistoryIsCounted(commits[..last], promotions);
      assert FailoverOk(commits, promotions, last);
      FailoverIsCounted(commits, promotions);
    }
  }

  lemma FailoverIsCounted(commits: seq<Commit>, promotions: seq<Promotion>)
    requires |commits| > 1 && Counted(commits[..|commits| - 1])
    requires commits[|commits| - 1].cause.Failover? && FailoverOk(commits, promotions, |commits| - 1)
    ensures Counted(commits)
  {
    hide HasBacking;
    var last := |commits| - 1;
    var before := commits[..last];
    var cur, next := Current(before), Current(commits);
    assert commits[last - 1].topology == cur;
    var m := commits[last].cause.mapId;
    ExcessUpdated(cur.mapEpochs, m, cur.EpochOf(m) + 1);
    forall n | n in next.mapEpochs ensures next.mapEpochs[n] == OwnerChanges(commits, n) + 1 {
      assert OwnerChanges(commits, n) == OwnerChanges(before, n) + if cur.OwnerOf(n) == next.OwnerOf(n) then 0 else 1;
    }
  }

  lemma HistoryPrefix(commits: seq<Commit>, promotions: seq<Promotion>)
    requires commits != [] && History(commits, promotions)
    ensures History(commits[..|commits| - 1], promotions)
  {
    var before := commits[..|commits| - 1];
    forall k: nat | 0 < k < |before| ensures FailoverOk(before, promotions, k) {
      assert FailoverOk(commits, promotions, k);
      assert before[k] == commits[k] && before[k - 1] == commits[k - 1];
    }
  }

  // With only coordinators at work each map's epoch counts its owners, and the version counts all failovers.
  lemma EpochsCountOwnerChanges(labels: seq<Label>)
    requires CoordinatorsOnly(labels) && Run(labels).commits != []
    ensures var commits := Run(labels).commits;
            var t := Current(commits);
            && t.version - 1 == Excess(t.mapEpochs)
            && t.owners.Keys == t.mapEpochs.Keys == commits[0].topology.owners.Keys
            && forall m | m in t.mapEpochs :: t.mapEpochs[m] == 1 + OwnerChanges(commits, m)
  {
    hide Do;
    var s := Run(labels);
    RunsAreGood(labels);
    CoordinatorHistory(labels);
    HistoryIsCounted(s.commits, s.promotions);
    MapsStay(s.commits, s.promotions);
  }

  lemma {:induction false} MapsStay(commits: seq<Commit>, promotions: seq<Promotion>)
    requires commits != [] && History(commits, promotions)
    ensures Current(commits).owners.Keys == commits[0].topology.owners.Keys
  {
    hide History, Counted, FailoverOk, IsInitial;
    var last := |commits| - 1;
    if last > 0 {
      HistoryPrefix(commits, promotions);
      HistoryIsCounted(commits[..last], promotions);
      MapsStay(commits[..last], promotions);
      CountedMeans(commits[..last]);
      assert Current(commits[..last]) == commits[last - 1].topology;
      LastFailover(commits, promotions);
      FailoverKeepsMaps(commits, promotions, last);
    }
  }

  lemma FailoverKeepsMaps(commits: seq<Commit>, promotions: seq<Promotion>, k: nat)
    requires 0 < k < |commits| && commits[k].cause.Failover? && FailoverOk(commits, promotions, k)
    requires commits[k - 1].topology.owners.Keys == commits[k - 1].topology.mapEpochs.Keys
    ensures commits[k].topology.owners.Keys == commits[k - 1].topology.owners.Keys
  {
    hide HasBacking;
  }

  lemma LastFailover(commits: seq<Commit>, promotions: seq<Promotion>)
    requires |commits| > 1 && History(commits, promotions)
    ensures commits[|commits| - 1].cause.Failover? && FailoverOk(commits, promotions, |commits| - 1)
  {
    hide FailoverOk, IsInitial;
  }

  lemma CountedMeans(commits: seq<Commit>)
    requires Counted(commits)
    ensures Current(commits).owners.Keys == Current(commits).mapEpochs.Keys
  {
  }

  // Then no map is ever dropped, and the fence admits exactly the committed owner.
  lemma AdmittedIffCommittedOwner(labels: seq<Label>, cp: Checkpoint, n: NodeId, epoch: nat)
    requires CoordinatorsOnly(labels)
    ensures var s := Run(labels);
            CheckpointAccepted(s.redis.fences, cp, n, epoch) <==>
              && Owns(Current(s.commits), n, cp.mapId, epoch)
              && cp.nodeId == n && cp.mapEpoch == epoch && cp.mapId != "" && n != ""
  {
    hide Do;
    var s := Run(labels);
    FencesComeFromListings(labels, cp.mapId);
    if s.commits != [] { EpochsCountOwnerChanges(labels); }
    if cp.mapId in s.redis.fences { FenceNeedsListing(s.commits, s.promotions, cp.mapId, labels); }
  }

  lemma {:induction false} FenceNeedsListing(commits: seq<Commit>, promotions: seq<Promotion>, m: MapId, labels: seq<Label>)
    requires CoordinatorsOnly(labels) && commits == Run(labels).commits && m in Run(labels).redis.fences
    ensures m in Current(commits).owners
  {
    hide Do;
    RunsAreGood(labels);
    assert FenceOk(Run(labels).redis.fences, Current(commits), m);
    if commits != [] { EpochsCountOwnerChanges(labels); }
  }

  // The committed term never passes the durable counter.
  lemma CommittedTermWithinCounter(labels: seq<Label>)
    requires CoordinatorsOnly(labels)
    ensures Current(Run(labels).commits).leaderTerm <= Run(labels).redis.term
  {
    hide Do;
    var s := Run(labels);
    RunsAreGood(labels);
    if s.commits != [] {
      CoordinatorsCommitted(labels, |s.commits| - 1);
      assert CommitTermOk(s.acquirers, s.commits[|s.commits| - 1]);
    }
  }

  // Exactly when the last step of a failover saves.
  lemma FailoverSavedIff(labels: seq<Label>, id: nat, now: nat)
    requires CoordinatorsOnly(labels) && id in Run(labels).tasks && Run(labels).tasks[id].Confirmed?
    ensures var s := Run(labels);
            var t := s.tasks[id];
            LeaderVerdict(s.redis, t.topology.version, FailoverProposal(t, now), FailoverMigration(t), t.term).Saved? <==>
              && t.term == s.redis.term                  // no newer term was issued
              && t.topology == Current(s.commits)        // nothing was committed since the load
              && Legal(t.standby) && t.failed != "" && now != 0
              && SessionsDecode(s.redis.sessions)
  {
    hide Do, Good, CasVerdict, History, TaskOk;
    var s := Run(labels);
    var t := s.tasks[id];
    RunsAreGood(labels);
    ConfirmedFacts(s, id);
    CommittedTermWithinCounter(labels);
    if t.topology == Current(s.commits) {
      EpochsCountOwnerChanges(labels);
      VerdictOnCurrent(s.redis, t.topology, t, now);
    } else {
      StaleLoadIsRefused(s, id, now);
    }
  }

  lemma ConfirmedFacts(s: Sys, id: nat)
    requires Good(s) && id in s.tasks && s.tasks[id].Confirmed?
    ensures var t := s.tasks[id];
            && t.term > 0 && t.topology.EpochOf(t.mapId) != 0
            && t.topology.OwnerOf(t.mapId) == t.failed != t.standby
            && Valid(t.topology, None) && s.commits != []
            && s.redis.topology == Some(Json(Current(s.commits)))
  {
    assert TaskOk(s.commits, s.promotions, s.tasks[id]);
    assert Issued(s.acquirers, s.tasks[id].coord, s.tasks[id].term);
  }

  lemma StaleLoadIsRefused(s: Sys, id: nat, now: nat)
    requires Good(s) && id in s.tasks && s.tasks[id].Confirmed? && s.tasks[id].topology != Current(s.commits)
    ensures var t := s.tasks[id];
            !LeaderVerdict(s.redis, t.topology.version, FailoverProposal(t, now), FailoverMigration(t), t.term).Saved?
  {
    assert TaskOk(s.commits, s.promotions, s.tasks[id]);
  }

  lemma VerdictOnCurrent(r: Redis, loaded: Topology, t: Task, now: nat)
    requires t.Confirmed? && t.topology == loaded && r.topology == Some(Json(loaded)) && Valid(loaded, None)
    requires t.mapId in loaded.owners && loaded.owners[t.mapId] == t.failed != t.standby && t.term > 0
    requires loaded.leaderTerm <= r.term
    ensures LeaderVerdict(r, loaded.version, FailoverProposal(t, now), FailoverMigration(t), t.term).Saved? <==>
              t.term == r.term && Legal(t.standby) && t.failed != "" && now != 0 && SessionsDecode(r.sessions)
  {
    assert ValidMap(loaded, t.mapId, None) by { assert t.mapId in loaded.owners.Keys + loaded.mapEpochs.Keys; }
    ProposalMeetsEpochGuard(loaded, t.mapId, t.standby, t.term, now);
    ProposalValidIff(loaded, t.mapId, t.standby, t.term, now);
    hide Valid, EpochGuard, SessionsDecode;
  }

  lemma ProposalValidIff(loaded: Topology, m: MapId, standby: NodeId, term: nat, now: nat)
    requires Valid(loaded, None) && m in loaded.owners
    ensures Valid(Proposal(loaded, m, standby, term, now), None) <==> now != 0 && (standby == "" || Legal(standby))
  {
    var next := Proposal(loaded, m, standby, term, now);
    assert ValidMap(loaded, m, None) by { assert m in loaded.owners.Keys + loaded.mapEpochs.Keys; }
    assert m in next.owners.Keys + next.mapEpochs.Keys;
    forall other | other in next.owners.Keys + next.mapEpochs.Keys && other != m ensures ValidMap(next, other, None) {
      assert other in loaded.owners.Keys + loaded.mapEpochs.Keys;
    }
    assert ValidMap(next, m, None) <==> (standby == "" || Legal(standby));
  }

  // ---- sessions over whole runs ----

  // What the gateway writes: a session of a routed map names the map's committed owner.
  predicate NamesOwner(s: Sys, session: Doc<Session>) {
    session.Json? && session.value.mapId in Current(s.commits).owners ==>
      session.value.nodeId == Current(s.commits).owners[session.value.mapId]
  }

  ghost predicate WritesNameOwners(labels: seq<Label>, more: seq<Label>) {
    forall i | 0 <= i < |more| && more[i].WriteSession? :: NamesOwner(Run(labels + more[..i]), more[i].session)
  }

  // Once a topology is committed and every session is on the owner of its map, failovers, writes and deletions
  // keep it so.
  lemma {:induction false} SessionsStayOnOwners(labels: seq<Label>, more: seq<Label>)
    requires Run(labels).commits != [] && CoordinatorsOnly(more) && WritesNameOwners(labels, more)
    requires SessionsOnOwners(Run(labels).redis.sessions, Current(Run(labels).commits))
    ensures SessionsOnOwners(Run(labels + more).redis.sessions, Current(Run(labels + more).commits))
  {
    hide Do, SessionsOnOwners, NamesOwner, Advances;
    if more == [] {
      assert labels + more == labels;
    } else {
      var last, all := |more| - 1, labels + more;
      var before := labels + more[..last];
      assert all[..|all| - 1] == before && all[|all| - 1] == more[last];
      assert more[last] in more && forall l | l in more[..last] :: l in more;
      assert forall i | 0 <= i < last :: more[..last][..i] == more[..i];
      SessionsStayOnOwners(labels, more[..last]);
      CommitsGrow(labels, more[..last]);
      StepKeepsSessionsOnOwners(before, more[last]);
      assert Run(all) == Do(Run(before), more[last]);
    }
  }

  lemma CommitsGrow(labels: seq<Label>, more: seq<Label>)
    ensures Run(labels).commits <= Run(labels + more).commits
  {
    hide Do;
    RunsOnlyAdvance(labels, more);
  }

  lemma StepKeepsSessionsOnOwners(labels: seq<Label>, l: Label)
    requires var s := Run(labels);
             && s.commits != [] && !l.CommitRepair? && (l.WriteSession? ==> NamesOwner(s, l.session))
             && SessionsOnOwners(s.redis.sessions, Current(s.commits))
    ensures var t := Do(Run(labels), l);
            SessionsOnOwners(t.redis.sessions, Current(t.commits))
  {
    hide Run;
    var s := Run(labels);
    match l
    case CommitFailover(id, now) =>
      hide Do, SessionsOnOwners;
      FailoverStepKeepsSessionsOnOwners(labels, id, now);
      assert Do(s, l) == DoCommitFailover(s, id, now) by { FailoverIsItsStep(s, id, now); }
    case CommitBootstrap(id) =>
      hide Do, SessionsOnOwners;
      RunsAreGood(labels);
      SecondBootstrapChangesNothing(s, id);
    case WriteSession(_, _) => hide CasVerdict;
    case DeleteSession(_) => hide CasVerdict;
    case _ =>
      hide Do, SessionsOnOwners;
      OtherStepsLeaveSessions(s, l);
  }

  lemma FailoverIsItsStep(s: Sys, id: nat, now: nat)
    ensures Do(s, CommitFailover(id, now)) == DoCommitFailover(s, id, now)
  {
    hide DoCommitFailover;
  }

  lemma SecondBootstrapChangesNothing(s: Sys, id: nat)
    requires Good(s) && s.commits != []
    ensures var t := Do(s, CommitBootstrap(id)); t.redis == s.redis && t.commits == s.commits
  {
    hide CasVerdict, Fences, Checkpoints, Terms, Evidence;
    if id in s.tasks && s.tasks[id].BootConfirmed? {
      OnlyTheFirstCommitStartsAtZero(s.redis, s.tasks[id].topology, s.tasks[id].term);
    }
  }

  lemma OtherStepsLeaveSessions(s: Sys, l: Label)
    requires !l.CommitFailover? && !l.CommitBootstrap? && !l.CommitRepair? && !l.WriteSession? && !l.DeleteSession?
    ensures Do(s, l).redis.sessions == s.redis.sessions && Do(s, l).commits == s.commits
  {
    hide Load, MayPromote, UsableCheckpoint, CheckpointAccepted, IsInitial, DoCommitFailover, DoCommitBootstrap, DoCommitRepair;
  }
}
