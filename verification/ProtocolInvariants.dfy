/** What every step of the control plane keeps. */
module ProtocolInvariants {
  import opened Text
  import opened Topologies
  import opened Stores
  import opened Electors
  import opened Coordinators
  import opened Protocol

  const NO_TOPOLOGY := Topology(0, 0, map[], map[], 0)

  function Current(commits: seq<Commit>): Topology {
    if commits == [] then NO_TOPOLOGY else commits[|commits| - 1].topology
  }

  // ---- the ledger: every commit extends the one before ----

  ghost predicate Follows(commits: seq<Commit>, k: nat)
    requires k + 1 < |commits|
  {
    var cur, next := commits[k].topology, commits[k + 1].topology;
    EpochGuard(cur, next) && cur.leaderTerm <= next.leaderTerm && commits[k].counter <= commits[k + 1].counter
  }

  ghost predicate Ledger(stored: Option<Doc<Topology>>, commits: seq<Commit>) {
    && stored == (if commits == [] then None else Some(Json(Current(commits))))
    && (forall k | 0 <= k < |commits| :: Valid(commits[k].topology, None) && commits[k].topology.version == k + 1)
    && (forall k: nat | k + 1 < |commits| :: Follows(commits, k))
  }

  // ---- fences and checkpoints against the current topology ----

  ghost predicate FenceOk(fences: map<MapId, Doc<Fence>>, cur: Topology, m: MapId)
    requires m in fences
  {
    && fences[m].Json?
    && var f := fences[m].value;
    && m in cur.mapEpochs && 0 < f.epoch <= cur.mapEpochs[m]
    && (f.epoch == cur.mapEpochs[m] ==> f.owner == cur.OwnerOf(m))
  }

  ghost predicate Fences(fences: map<MapId, Doc<Fence>>, cur: Topology) {
    && (forall m | m in fences :: FenceOk(fences, cur, m))
    && (forall m | m in cur.owners :: m in fences && fences[m] == Json(Fence(cur.owners[m], cur.EpochOf(m))))
  }

  ghost predicate CheckpointOk(checkpoints: map<MapId, Doc<Checkpoint>>, fences: map<MapId, Doc<Fence>>, m: MapId)
    requires m in checkpoints
  {
    && checkpoints[m].Json? && m in fences && fences[m].Json?
    && var cp, f := checkpoints[m].value, fences[m].value;
    && cp.mapId == m && 0 < cp.mapEpoch <= f.epoch
    && (cp.mapEpoch == f.epoch ==> cp.nodeId == f.owner)
  }

  ghost predicate Checkpoints(checkpoints: map<MapId, Doc<Checkpoint>>, fences: map<MapId, Doc<Fence>>) {
    forall m | m in checkpoints :: CheckpointOk(checkpoints, fences, m)
  }

  // ---- leader terms ----

  predicate Issued(acquirers: seq<CoordId>, c: CoordId, term: nat) {
    1 <= term <= |acquirers| && acquirers[term - 1] == c
  }

  predicate ElectorOk(acquirers: seq<CoordId>, c: CoordId, e: Elector) {
    && (e.leader ==> Issued(acquirers, c, e.term))
    && (e.acquired.Some? ==> Issued(acquirers, c, e.acquired.value))
  }

  ghost predicate CommitTermOk(acquirers: seq<CoordId>, commit: Commit) {
    && commit.counter <= |acquirers|
    && (!commit.cause.Repair? ==>
          && Issued(acquirers, commit.cause.coord, commit.cause.term)
          && commit.topology.leaderTerm == commit.cause.term == commit.counter)
  }

  ghost predicate Terms(s: Sys) {
    && |s.acquirers| == s.redis.term
    && (s.redis.lease.Some? ==> Issued(s.acquirers, s.redis.lease.value, s.redis.term))
    && (forall c | c in s.electors :: ElectorOk(s.acquirers, c, s.electors[c]))
    && (forall id | id in s.tasks :: Issued(s.acquirers, s.tasks[id].coord, s.tasks[id].term))
    && (forall k | 0 <= k < |s.commits| :: CommitTermOk(s.acquirers, s.commits[k]))
  }

  // ---- what runs and caches rest on ----

  ghost predicate InLedger(commits: seq<Commit>, t: Topology) {
    1 <= t.version <= |commits| && commits[t.version - 1].topology == t
  }

  ghost predicate Backs(p: Promotion, m: MapId, from: NodeId, to: NodeId, epoch: nat, before: nat) {
    && p.node == to && p.mapId == m && p.target == epoch + 1 && p.before <= before
    && p.cp.mapId == m && p.cp.nodeId == from && p.cp.mapEpoch == epoch && p.cp.version > 0
  }

  ghost predicate HasBacking(promotions: seq<Promotion>, m: MapId, from: NodeId, to: NodeId, epoch: nat, before: nat) {
    exists i | 0 <= i < |promotions| :: Backs(promotions[i], m, from, to, epoch, before)
  }

  ghost predicate TaskOk(commits: seq<Commit>, promotions: seq<Promotion>, t: Task) {
    && (t.BootBuilt? ==> IsInitial(t.topology))
    && (t.BootConfirmed? ==> IsInitial(t.topology) && t.topology.leaderTerm == t.term)
    && (t.Chosen? || t.Checked? || t.Promoted? || t.Confirmed? ==>
          && InLedger(commits, t.topology)
          && t.topology.OwnerOf(t.mapId) == t.failed && t.topology.EpochOf(t.mapId) != 0 && t.standby != t.failed)
    && (t.Checked? || t.Promoted? || t.Confirmed? ==>
          UsableCheckpoint(t.cp, t.mapId, t.failed, t.topology.EpochOf(t.mapId)))
    && (t.Promoted? || t.Confirmed? ==>
          HasBacking(promotions, t.mapId, t.failed, t.standby, t.topology.EpochOf(t.mapId), |commits|))
  }

  // A failover commit moved one map by one epoch, and its new owner had been promoted for it before.
  ghost predicate FailoverOk(commits: seq<Commit>, promotions: seq<Promotion>, k: nat)
    requires k < |commits| && commits[k].cause.Failover?
  {
    var c := commits[k].cause;
    && k > 0
    && var cur, next := commits[k - 1].topology, commits[k].topology;
    && cur.OwnerOf(c.mapId) == c.from != c.to && cur.EpochOf(c.mapId) != 0
    && next.owners == cur.owners[c.mapId := c.to]
    && next.mapEpochs == cur.mapEpochs[c.mapId := cur.EpochOf(c.mapId) + 1]
    && HasBacking(promotions, c.mapId, c.from, c.to, cur.EpochOf(c.mapId), k)
  }

  ghost predicate CauseOk(commits: seq<Commit>, promotions: seq<Promotion>, k: nat)
    requires k < |commits|
  {
    && (commits[k].cause.Failover? ==> FailoverOk(commits, promotions, k))
    && (commits[k].cause.Bootstrap? ==> k == 0 && IsInitial(commits[k].topology))
  }

  ghost predicate Evidence(s: Sys) {
    && (forall n | n in s.caches :: InLedger(s.commits, s.caches[n]))
    && (forall id | id in s.tasks :: TaskOk(s.commits, s.promotions, s.tasks[id]))
    && (forall k: nat | k < |s.commits| :: CauseOk(s.commits, s.promotions, k))
  }

  ghost predicate Good(s: Sys) {
    && Ledger(s.redis.topology, s.commits)
    && Fences(s.redis.fences, Current(s.commits))
    && Checkpoints(s.redis.checkpoints, s.redis.fences)
    && Terms(s)
    && Evidence(s)
  }

  // ---- one commit ----

  // The guards a saved commit has passed, against the ledger's current topology.
  lemma SavedMeans(s: Sys, expected: nat, next: Topology, mig: Option<Migration>, term: nat)
    requires Ledger(s.redis.topology, s.commits)
    requires CasVerdict(s.redis, expected, next, mig, term).Saved?
    ensures Valid(next, None) && expected == |s.commits| && next.version == |s.commits| + 1
    ensures s.commits != [] ==> EpochGuard(Current(s.commits), next) && Current(s.commits).leaderTerm <= next.leaderTerm
    ensures term != 0 ==> term == s.redis.term == next.leaderTerm
  {
  }

  lemma CommitKeepsLedger(s: Sys, next: Topology, cause: Cause)
    requires Ledger(s.redis.topology, s.commits)
    requires Valid(next, None) && next.version == |s.commits| + 1
    requires s.commits != [] ==> EpochGuard(Current(s.commits), next) && Current(s.commits).leaderTerm <= next.leaderTerm
    requires forall k | 0 <= k < |s.commits| :: s.commits[k].counter <= s.redis.term
    ensures Ledger(Some(Json(next)), s.commits + [Commit(next, cause, s.redis.term)])
  {
    var commits := s.commits + [Commit(next, cause, s.redis.term)];
    forall k: nat | k + 1 < |commits| ensures Follows(commits, k) {
      if k + 1 < |s.commits| { assert Follows(s.commits, k); }
    }
  }

  lemma CommitKeepsFences(fences: map<MapId, Doc<Fence>>, cur: Topology, next: Topology)
    requires Fences(fences, cur) && Valid(next, None)
    requires cur == NO_TOPOLOGY || EpochGuard(cur, next)
    ensures Fences(WithFences(fences, next), next)
    ensures forall m | m in fences :: WithFences(fences, next)[m].Json?
              && fences[m].value.epoch <= WithFences(fences, next)[m].value.epoch
              && (fences[m].value.epoch == WithFences(fences, next)[m].value.epoch ==> fences[m] == WithFences(fences, next)[m])
  {
    var after := WithFences(fences, next);
    forall m | m in next.owners ensures ValidMap(next, m, None) && m in next.mapEpochs {
      assert m in next.owners.Keys + next.mapEpochs.Keys;
    }
    forall m | m in after ensures FenceOk(after, next, m) {
      if m in fences { assert FenceOk(fences, cur, m) && EpochKept(cur, next, m); }
    }
    forall m | m in fences
      ensures after[m].Json? && fences[m].value.epoch <= after[m].value.epoch
      ensures fences[m].value.epoch == after[m].value.epoch ==> fences[m] == after[m]
    {
      assert FenceOk(fences, cur, m) && EpochKept(cur, next, m);
    }
  }

  lemma CommitKeepsCheckpoints(checkpoints: map<MapId, Doc<Checkpoint>>, fences: map<MapId, Doc<Fence>>, cur: Topology, next: Topology)
    requires Checkpoints(checkpoints, fences) && Fences(fences, cur) && Valid(next, None)
    requires cur == NO_TOPOLOGY || EpochGuard(cur, next)
    ensures Checkpoints(checkpoints, WithFences(fences, next))
  {
    CommitKeepsFences(fences, cur, next);
    forall m | m in checkpoints ensures CheckpointOk(checkpoints, WithFences(fences, next), m) {
      assert CheckpointOk(checkpoints, fences, m);
    }
  }

  // A log that grows keeps what rested on it.
  lemma GrowingLogKeepsEvidence(commits: seq<Commit>, promotions: seq<Promotion>, more: seq<Commit>, accepted: seq<Promotion>)
    ensures forall t :: InLedger(commits, t) ==> InLedger(commits + more, t)
    ensures forall t :: TaskOk(commits, promotions, t) ==> TaskOk(commits + more, promotions + accepted, t)
    ensures forall k: nat | k < |commits| && CauseOk(commits, promotions, k) :: CauseOk(commits + more, promotions + accepted, k)
  {
    forall m, from, to, epoch: nat, before: nat, later: nat | HasBacking(promotions, m, from, to, epoch, before) && before <= later
      ensures HasBacking(promotions + accepted, m, from, to, epoch, later)
    {
      var i :| 0 <= i < |promotions| && Backs(promotions[i], m, from, to, epoch, before);
      assert Backs((promotions + accepted)[i], m, from, to, epoch, later);
    }
  }

  // Any of the three committing steps, given what its cause claims.
  lemma CommitKeepsGood(s: Sys, tasks: map<nat, Task>, expected: nat, next: Topology, mig: Option<Migration>, term: nat, cause: Cause)
    requires Good(s) && tasks.Keys <= s.tasks.Keys && forall id | id in tasks :: tasks[id] == s.tasks[id]
    requires CasVerdict(s.redis, expected, next, mig, term).Saved?
    requires !cause.Repair? ==> term == cause.term == next.leaderTerm && term != 0 && Issued(s.acquirers, cause.coord, term)
    requires cause.Bootstrap? ==> expected == 0 && IsInitial(next)
    requires cause.Failover? ==> FailoverOk(s.commits + [Commit(next, cause, s.redis.term)], s.promotions, |s.commits|)
    ensures Good(Logged(s.(tasks := tasks), Saved, next, mig, cause))
  {
    var commit := Commit(next, cause, s.redis.term);
    SavedMeans(s, expected, next, mig, term);
    CommitKeepsLedger(s, next, cause);
    CommitKeepsFences(s.redis.fences, Current(s.commits), next);
    CommitKeepsCheckpoints(s.redis.checkpoints, s.redis.fences, Current(s.commits), next);
    GrowingLogKeepsEvidence(s.commits, s.promotions, [commit], []);
    assert s.promotions + [] == s.promotions;
    CommitKeepsEvidence(s, tasks, next, mig, cause);
  }

  lemma CommitKeepsEvidence(s: Sys, tasks: map<nat, Task>, next: Topology, mig: Option<Migration>, cause: Cause)
    requires Evidence(s) && tasks.Keys <= s.tasks.Keys && forall id | id in tasks :: tasks[id] == s.tasks[id]
    requires cause.Bootstrap? ==> s.commits == [] && IsInitial(next)
    requires cause.Failover? ==> FailoverOk(s.commits + [Commit(next, cause, s.redis.term)], s.promotions, |s.commits|)
    ensures Evidence(Logged(s.(tasks := tasks), Saved, next, mig, cause))
  {
    var commit := Commit(next, cause, s.redis.term);
    var commits := s.commits + [commit];
    GrowingLogKeepsEvidence(s.commits, s.promotions, [commit], []);
    assert s.promotions + [] == s.promotions;
    forall k: nat | k < |commits| ensures CauseOk(commits, s.promotions, k) {
      if k < |s.commits| { assert CauseOk(s.commits, s.promotions, k); }
    }
  }

  // ---- every step ----

  lemma AcquireKeepsGood(s: Sys, c: CoordId, replied: bool)
    requires Good(s)
    ensures Good(DoAcquire(s, c, replied))
  {
  }

  lemma ElectionKeepsGood(s: Sys, c: CoordId, e: Elector)
    requires Good(s)
    requires ElectorOk(s.acquirers, c, e)
    ensures Good(WithElector(s, c, e))
  {
  }

  lemma TaskKeepsGood(s: Sys, id: nat, t: Task)
    requires Good(s)
    requires TaskOk(s.commits, s.promotions, t) && Issued(s.acquirers, t.coord, t.term)
    ensures Good(s.(tasks := s.tasks[id := t]))
  {
  }

  lemma PromoteKeepsGood(s: Sys, id: nat, replied: bool)
    requires Good(s)
    ensures Good(DoPromote(s, id, replied))
  {
    var s' := DoPromote(s, id, replied);
    if s' != s {
      var t := s.tasks[id];
      var accepted := s'.promotions[|s.promotions|];
      assert s'.promotions == s.promotions + [accepted];
      GrowingLogKeepsEvidence(s.commits, s.promotions, [], [accepted]);
      assert s.commits + [] == s.commits;
      assert Backs(s'.promotions[|s.promotions|], t.mapId, t.failed, t.standby, t.topology.EpochOf(t.mapId), |s.commits|);
    }
  }

  lemma SaveKeepsGood(s: Sys, n: NodeId, epoch: nat, cp: Checkpoint)
    requires Good(s)
    ensures Good(s.(redis := AfterSave(s.redis, cp, n, epoch)))
  {
    var after := AfterSave(s.redis, cp, n, epoch);
    forall m | m in after.checkpoints ensures CheckpointOk(after.checkpoints, after.fences, m) {
      if m in s.redis.checkpoints { assert CheckpointOk(s.redis.checkpoints, s.redis.fences, m); }
    }
  }

  lemma CommitFailoverKeepsGood(s: Sys, id: nat, now: nat)
    requires Good(s)
    ensures Good(DoCommitFailover(s, id, now))
  {
    if id in s.tasks && s.tasks[id].Confirmed? {
      var t := s.tasks[id];
      var next, mig := FailoverProposal(t, now), FailoverMigration(t);
      var cause := Failover(t.coord, t.term, t.mapId, t.failed, t.standby);
      if LeaderVerdict(s.redis, t.topology.version, next, mig, t.term).Saved? {
        SavedMeans(s, t.topology.version, next, mig, t.term);
        assert t.topology == Current(s.commits);
        var commits := s.commits + [Commit(next, cause, s.redis.term)];
        assert FailoverOk(commits, s.promotions, |s.commits|);
        CommitKeepsGood(s, s.tasks - {id}, t.topology.version, next, mig, t.term, cause);
      }
    }
  }

  lemma CommitBootstrapKeepsGood(s: Sys, id: nat)
    requires Good(s)
    ensures Good(DoCommitBootstrap(s, id))
  {
    if id in s.tasks && s.tasks[id].BootConfirmed? {
      var t := s.tasks[id];
      if LeaderVerdict(s.redis, 0, t.topology, None, t.term).Saved? {
        CommitKeepsGood(s, s.tasks - {id}, 0, t.topology, None, t.term, Bootstrap(t.coord, t.term));
      }
    }
  }

  lemma CommitRepairKeepsGood(s: Sys, expected: nat, next: Topology, mig: Option<Migration>)
    requires Good(s)
    ensures Good(DoCommitRepair(s, expected, next, mig))
  {
    if CasVerdict(s.redis, expected, next, mig, 0).Saved? {
      CommitKeepsGood(s, s.tasks, expected, next, mig, 0, Repair);
    }
  }

  lemma LoadKeepsGood(s: Sys, id: nat, standby: NodeId)
    requires Good(s)
    ensures Good(DoLoadAndChoose(s, id, standby))
  {
    var s' := DoLoadAndChoose(s, id, standby);
    if s' != s {
      assert Load(s.redis).topology == Current(s.commits);
      TaskKeepsGood(s, id, s'.tasks[id]);
    }
  }

  predicate IsElection(l: Label) {
    l.BeginCampaign? || l.Acquire? || l.Assign? || l.CancelCampaign? || l.Lose? || l.CancelContext? || l.Renew?
    || l.Release? || l.ExpireLease?
  }

  lemma FreeLeaseKeepsGood(s: Sys)
    requires Good(s)
    ensures Good(s.(redis := s.redis.(lease := None)))
  {
  }

  lemma ElectionStepKeepsGood(s: Sys, l: Label)
    requires Good(s) && IsElection(l)
    ensures Good(Do(s, l))
  {
    hide Good;
    if l.BeginCampaign? || l.Assign? || l.CancelCampaign? {
      CampaignStepKeepsGood(s, l);
    } else if l.Lose? || l.CancelContext? || l.Renew? {
      LosingStepKeepsGood(s, l);
    } else if l.Acquire? {
      AcquireKeepsGood(s, l.c, l.replied);
    } else {
      assert s.(redis := s.redis.(lease := s.redis.lease)) == s;
      FreeLeaseKeepsGood(s);
    }
  }

  lemma CampaignStepKeepsGood(s: Sys, l: Label)
    requires Good(s) && (l.BeginCampaign? || l.Assign? || l.CancelCampaign?)
    ensures Good(Do(s, l))
  {
    hide Ledger, Fences, Checkpoints, Evidence, CommitTermOk;
    match l
    case BeginCampaign(c) => ElectionKeepsGood(s, c, Begun(ElectorOf(s, c)));
    case Assign(c) => ElectionKeepsGood(s, c, Assigned(ElectorOf(s, c)));
    case CancelCampaign(c) => ElectionKeepsGood(s, c, ElectorOf(s, c).(campaigning := false));
  }

  lemma LosingStepKeepsGood(s: Sys, l: Label)
    requires Good(s) && (l.Lose? || l.CancelContext? || l.Renew?)
    ensures Good(Do(s, l))
  {
    hide Ledger, Fences, Checkpoints, Evidence, CommitTermOk;
    match l
    case Lose(c) => ElectionKeepsGood(s, c, Lost(ElectorOf(s, c)));
    case CancelContext(c) => ElectionKeepsGood(s, c, ElectorOf(s, c).(live := false));
    case Renew(c) => ElectionKeepsGood(s, c, Lost(ElectorOf(s, c)));
  }

  predicate IsTaskStep(l: Label) {
    l.Start? || l.CheckCheckpoint? || l.Confirm? || l.BootStart? || l.BootBuild? || l.BootConfirm?
  }

  // These labels only replace one run by its next stage.
  lemma TaskStepKeepsGood(s: Sys, l: Label)
    requires Good(s) && IsTaskStep(l)
    ensures Good(Do(s, l))
  {
    hide Good, Do;
    if Do(s, l) != s {
      TaskStepIsBacked(s, l);
      TaskStepIsIssued(s, l);
      TaskKeepsGood(s, l.id, Do(s, l).tasks[l.id]);
    }
  }

  lemma TaskStepIsBacked(s: Sys, l: Label)
    requires Good(s) && IsTaskStep(l) && Do(s, l) != s
    ensures var s' := Do(s, l);
            l.id in s'.tasks && s' == s.(tasks := s.tasks[l.id := s'.tasks[l.id]])
            && TaskOk(s.commits, s.promotions, s'.tasks[l.id])
  {
    hide Ledger, Fences, Checkpoints, Terms, Load, InLedger, HasBacking;
  }

  lemma TaskStepIsIssued(s: Sys, l: Label)
    requires Good(s) && IsTaskStep(l) && Do(s, l) != s
    ensures l.id in Do(s, l).tasks
    ensures Issued(s.acquirers, Do(s, l).tasks[l.id].coord, Do(s, l).tasks[l.id].term)
  {
    hide Ledger, Fences, Checkpoints, Evidence, Load, CommitTermOk, IsInitial, UsableCheckpoint;
  }

  lemma AbandonKeepsGood(s: Sys, id: nat)
    requires Good(s)
    ensures Good(s.(tasks := s.tasks - {id}))
  {
  }

  lemma SessionsKeepGood(s: Sys, sessions: map<string, Doc<Session>>)
    requires Good(s)
    ensures Good(s.(redis := s.redis.(sessions := sessions)))
  {
  }

  lemma RefreshKeepsGood(s: Sys, n: NodeId, k: nat)
    requires Good(s)
    ensures Good(DoRefresh(s, n, k))
  {
  }

  lemma StepKeepsGood(s: Sys, l: Label)
    requires Good(s)
    ensures Good(Do(s, l))
  {
    hide Good;
    if IsElection(l) {
      ElectionStepKeepsGood(s, l);
    } else if IsTaskStep(l) {
      TaskStepKeepsGood(s, l);
    } else {
      match l
      case LoadAndChoose(id, standby) => LoadKeepsGood(s, id, standby);
      case Promote(id, replied) => PromoteKeepsGood(s, id, replied);
      case CommitFailover(id, now) => CommitFailoverKeepsGood(s, id, now);
      case CommitBootstrap(id) => CommitBootstrapKeepsGood(s, id);
      case CommitRepair(expected, next, mig) => CommitRepairKeepsGood(s, expected, next, mig);
      case SaveCheckpoint(n, epoch, cp) => SaveKeepsGood(s, n, epoch, cp);
      case Abandon(id) => AbandonKeepsGood(s, id);
      case Refresh(n, k) => RefreshKeepsGood(s, n, k);
      case WriteSession(_, _) => SessionsKeepGood(s, Do(s, l).redis.sessions);
      case DeleteSession(_) => SessionsKeepGood(s, Do(s, l).redis.sessions);
    }
  }

  lemma {:induction false} RunsAreGood(labels: seq<Label>)
    ensures Good(Run(labels))
  {
    if labels != [] {
      hide Do, Good;
      RunsAreGood(labels[..|labels| - 1]);
      StepKeepsGood(Run(labels[..|labels| - 1]), labels[|labels| - 1]);
    }
  }
}
