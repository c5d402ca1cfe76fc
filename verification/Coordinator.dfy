/** A coordinator's writes to the topology: the first one, and the failover of one map. */
module Coordinators {
  import opened Text
  import opened Topologies
  import opened Stores
  import opened Electors

  // The topology failoverMap proposes: one map goes to the standby, one epoch up.
  function Proposal(loaded: Topology, m: MapId, standby: NodeId, term: nat, now: nat): Topology {
    Topology(loaded.version + 1, term, loaded.owners[m := standby], loaded.mapEpochs[m := loaded.EpochOf(m) + 1], now)
  }

  function InitialProposal(initial: Topology, term: nat): Topology { initial.(leaderTerm := term) }

  predicate UsableCheckpoint(cp: Checkpoint, m: MapId, owner: NodeId, epoch: nat) {
    cp.mapId == m && cp.nodeId == owner && cp.mapEpoch == epoch && cp.version > 0
  }

  ghost function Eligible(nodes: seq<Registration>, healthy: set<NodeId>, m: MapId, excluded: NodeId): set<NodeId> {
    set r | r in nodes && r.id != excluded && !r.draining && r.mapId == m && r.id in healthy :: r.id
  }

  // The least eligible id, whatever order and however often the registrations come.
  method SelectStandby(nodes: seq<Registration>, healthy: set<NodeId>, m: MapId, excluded: NodeId)
    returns (standby: Option<NodeId>)
    ensures standby.None? <==> Eligible(nodes, healthy, m, excluded) == {}
    ensures standby.Some? ==> IsLeast(standby.value, Eligible(nodes, healthy, m, excluded))
    ensures standby.None? <==> forall r | r in nodes :: r.id == excluded || r.draining || r.mapId != m || r.id !in healthy
    ensures standby.Some? ==>
              && (exists r :: r in nodes && r.id == standby.value && !r.draining && r.mapId == m && r.id in healthy)
              && standby.value != excluded
              && forall r | r in nodes && r.id != excluded && !r.draining && r.mapId == m && r.id in healthy :: Le(standby.value, r.id)
  {
    var candidates: seq<NodeId> := [];
    var seen: set<NodeId> := {};
    for i := 0 to |nodes|
      invariant seen == Eligible(nodes[..i], healthy, m, excluded)
      invariant Distinct(candidates, Itself) && forall id :: id in candidates <==> id in seen
    {
      var node := nodes[i];
      EligibleExtended(nodes[..i], node, healthy, m, excluded);
      assert nodes[..i + 1] == nodes[..i] + [node];
      if node.id == excluded || node.draining || node.mapId != m { continue; }
      if node.id in seen { continue; }
      if node.id !in healthy { continue; }
      AppendKeepsDistinct(candidates, node.id, Itself);
      seen := seen + {node.id};
      candidates := candidates + [node.id];
    }
    assert nodes[..|nodes|] == nodes;
    forall r | r in nodes && r.id != excluded && !r.draining && r.mapId == m && r.id in healthy ensures r.id in seen {}
    if candidates == [] {
      assert forall id :: id !in seen;
      return None;
    }
    var sorted := SortStrings(candidates);
    assert candidates[0] in sorted && sorted[0] in candidates;
    forall other | other in seen ensures Le(sorted[0], other) {
      var k :| 0 <= k < |sorted| && sorted[k] == other;
      LeTotal(other, other);
      if k > 0 { assert Le(Itself(sorted[0]), Itself(sorted[k])); }
    }
    return Some(sorted[0]);
  }

  lemma EligibleExtended(nodes: seq<Registration>, node: Registration, healthy: set<NodeId>, m: MapId, excluded: NodeId)
    ensures Eligible(nodes + [node], healthy, m, excluded) == Eligible(nodes, healthy, m, excluded) +
            if node.id != excluded && !node.draining && node.mapId == m && node.id in healthy then {node.id} else {}
  {
    assert forall r :: r in nodes + [node] <==> r in nodes || r == node;
  }

  // Against the topology it was built from, a failover proposal always meets the epoch guard.
  lemma ProposalMeetsEpochGuard(loaded: Topology, m: MapId, standby: NodeId, term: nat, now: nat)
    requires loaded.EpochOf(m) != 0
    ensures EpochGuard(loaded, Proposal(loaded, m, standby, term, now)) <==> standby != loaded.OwnerOf(m)
  {
    var next := Proposal(loaded, m, standby, term, now);
    assert EpochKept(loaded, next, m) <==> standby != loaded.OwnerOf(m);
    assert forall other | other in loaded.mapEpochs && other != m :: EpochKept(loaded, next, other);
  }

  lemma ProposalFields(loaded: Topology, m: MapId, standby: NodeId, term: nat, now: nat)
    ensures Proposal(loaded, m, standby, term, now) ==
            loaded.(version := loaded.version + 1, owners := loaded.owners[m := standby],
              mapEpochs := loaded.mapEpochs[m := loaded.EpochOf(m) + 1], leaderTerm := term, updatedAt := now)
  {
  }

  lemma RefusedForEpochs(r: Redis, loaded: Topology, m: MapId, standby: NodeId, term: nat, now: nat)
    requires loaded.EpochOf(m) != 0 && standby != loaded.OwnerOf(m)
    requires r.topology == Some(Json(loaded))
    ensures forall mig :: !LeaderVerdict(r, loaded.version, Proposal(loaded, m, standby, term, now), mig, term).EpochInvariant?
  {
    ProposalMeetsEpochGuard(loaded, m, standby, term, now);
  }

  lemma OnlyTheFirstCommitStartsAtZero(r: Redis, next: Topology, term: nat)
    ensures LeaderVerdict(r, 0, next, None, term).Saved? ==> r.topology.None? && r.term == term == next.leaderTerm
  {
  }

  // and it keeps every session on its map's owner.
  lemma FailoverKeepsSessionsOnOwners(r: Redis, loaded: Topology, m: MapId, standby: NodeId, term: nat, now: nat)
    requires r.topology == Some(Json(loaded)) && m in loaded.owners
    requires SessionsOnOwners(r.sessions, loaded)
    ensures var next := Proposal(loaded, m, standby, term, now);
            var mig := Some(Migration(m, loaded.owners[m], standby));
            LeaderVerdict(r, loaded.version, next, mig, term).Saved? ==>
              SessionsOnOwners(AfterLeaderCas(r, loaded.version, next, mig, term).sessions, next)
  {
  }

  datatype Outcome =
    | NotLeader | NoTopology | OwnerChanged | NoEpoch | NoStandby | NoCheckpoint | UnknownMap
    | PromoteFailed | LeaseLost | CasRefused(code: CasCode) | Committed

  // What one run sees of the shared state: at the start, at the load, at the checkpoint read, after the Promote
  // call, and at the compare-and-swap; the elector at the start and right before the commit. Anything may happen
  // in between.
  datatype Seen = Seen(
    leader: Elector, start: Redis, load: Redis, checkpoint: Redis, promote: Redis, confirm: Elector, commit: Redis)

  predicate HasCheckpoint(r: Redis, m: MapId, owner: NodeId, epoch: nat) {
    m in r.checkpoints && r.checkpoints[m].Json? && UsableCheckpoint(r.checkpoints[m].value, m, owner, epoch)
  }

  // How a failover of the map ends, given what it saw: the first thing missing, else as its second half says for
  // the least eligible standby.
  ghost predicate EndsAs(r: Outcome, m: MapId, failed: NodeId, eligible: set<NodeId>, known: bool, promoted: bool, now: nat,
                         seen: Seen, standby: NodeId) {
    var load := Load(seen.load);
    if TermOf(seen.leader) == 0 then r.NotLeader?
    else if !load.Found? then r.NoTopology?
    else if load.topology.OwnerOf(m) != failed then r.OwnerChanged?
    else if load.topology.EpochOf(m) == 0 then r.NoEpoch?
    else if eligible == {} then r.NoStandby?
    else IsLeast(standby, eligible) && EndsWith(r, load.topology, m, failed, known, promoted, now, seen, standby)
  }

  // The second half, from the checkpoint on, ends with the verdict of the script on the proposal.
  ghost predicate EndsWith(r: Outcome, topology: Topology, m: MapId, failed: NodeId, known: bool, promoted: bool, now: nat,
                           seen: Seen, standby: NodeId) {
    var term := TermOf(seen.leader);
    if !HasCheckpoint(seen.checkpoint, m, failed, topology.EpochOf(m)) then r.NoCheckpoint?
    else if !known then r.UnknownMap?
    else if !promoted then r.PromoteFailed?
    else if !HoldsTerm(seen.confirm, term) then r.LeaseLost?
    else
      var next, mig := Proposal(topology, m, standby, term, now), Some(Migration(m, failed, standby));
      var verdict := LeaderVerdict(seen.commit, topology.version, next, mig, term);
      r == if verdict.Saved? then Committed else CasRefused(verdict)
  }

  // Only a commit writes: every other end leaves the store as it was last seen.
  ghost predicate Leaves(r: Outcome, m: MapId, failed: NodeId, now: nat, seen: Seen, standby: NodeId, after: Redis) {
    match r
    case NotLeader => after == seen.start
    case NoTopology => after == seen.load
    case OwnerChanged => after == seen.load
    case NoEpoch => after == seen.load
    case NoStandby => after == seen.load
    case NoCheckpoint => after == seen.checkpoint
    case UnknownMap => after == seen.checkpoint
    case PromoteFailed => after == seen.promote
    case LeaseLost => after == seen.promote
    case CasRefused(_) => after == seen.commit
    case Committed =>
      Load(seen.load).Found? ==>
        after == CasEffect(seen.commit, Proposal(Load(seen.load).topology, m, standby, TermOf(seen.leader), now),
                           Some(Migration(m, failed, standby)))
  }

  // The compare-and-swap never refuses a proposal for its epochs while the stored topology is the loaded one.
  lemma EpochRefusalMeansChange(r: Outcome, m: MapId, failed: NodeId, eligible: set<NodeId>, known: bool, promoted: bool, now: nat,
                                seen: Seen, standby: NodeId)
    requires EndsAs(r, m, failed, eligible, known, promoted, now, seen, standby) && failed !in eligible
    ensures r == CasRefused(EpochInvariant) ==> seen.commit.topology != seen.load.topology
  {
    var load := Load(seen.load);
    if load.Found? && load.topology.OwnerOf(m) == failed && load.topology.EpochOf(m) != 0 && standby != failed
       && seen.commit.topology == seen.load.topology {
      RefusedForEpochs(seen.commit, load.topology, m, standby, TermOf(seen.leader), now);
    }
  }

  // A failover that commits gives the map to a registered, healthy node that declared the map and is not draining, the
  // least of these, and to none of them only when there is none.
  lemma FailoverTakesARegisteredNode(r: Outcome, m: MapId, failed: NodeId, nodes: seq<Registration>, healthy: set<NodeId>,
                                     known: bool, promoted: bool, now: nat, seen: Seen, standby: NodeId, other: Registration)
    requires EndsAs(r, m, failed, Eligible(nodes, healthy, m, failed), known, promoted, now, seen, standby)
    ensures r.Committed? ==>
              && standby != failed && (exists n :: n in nodes && n.id == standby && !n.draining && n.mapId == m && n.id in healthy)
              && (other in nodes && other.id != failed && !other.draining && other.mapId == m && other.id in healthy ==>
                    Le(standby, other.id))
    ensures r.NoStandby? ==> other in nodes ==> other.id == failed || other.draining || other.mapId != m || other.id !in healthy
  {
    var eligible := Eligible(nodes, healthy, m, failed);
    if other in nodes && other.id != failed && !other.draining && other.mapId == m && other.id in healthy {
      assert other.id in eligible;
    }
    if r.Committed? {
      assert standby in eligible;
      var n :| n in nodes && n.id != failed && !n.draining && n.mapId == m && n.id in healthy && n.id == standby;
    }
  }

  // It goes past the checkpoint exactly with one of the map by the failed node at the epoch of the loaded topology.
  lemma FailoverNeedsItsCheckpoint(r: Outcome, m: MapId, failed: NodeId, eligible: set<NodeId>, known: bool, promoted: bool, now: nat,
                                   seen: Seen, standby: NodeId)
    requires EndsAs(r, m, failed, eligible, known, promoted, now, seen, standby)
    ensures var found := && m in seen.checkpoint.checkpoints && seen.checkpoint.checkpoints[m].Json?
                         && Load(seen.load).Found? && m in Load(seen.load).topology.mapEpochs
                         && var cp := seen.checkpoint.checkpoints[m].value;
                            cp.mapId == m && cp.nodeId == failed && cp.mapEpoch == Load(seen.load).topology.mapEpochs[m] && cp.version > 0;
            && (r.NoCheckpoint? ==> !found)
            && (r.UnknownMap? || r.PromoteFailed? || r.LeaseLost? || r.CasRefused? || r.Committed? ==> found)
  {
  }

  // Each end says what was missing, and a compare-and-swap that nothing was.
  lemma EndsTellWhy(r: Outcome, m: MapId, failed: NodeId, eligible: set<NodeId>, known: bool, promoted: bool, now: nat,
                    seen: Seen, standby: NodeId)
    requires EndsAs(r, m, failed, eligible, known, promoted, now, seen, standby)
    ensures var leads := seen.leader.leader && seen.leader.live && seen.leader.term > 0;
            var loaded := Load(seen.load);
            match r
            case NotLeader => !leads
            case NoTopology => leads && !loaded.Found?
            case OwnerChanged => leads && loaded.Found? && (m !in loaded.topology.owners || loaded.topology.owners[m] != failed || failed == "")
            case NoEpoch => leads && loaded.Found? && (m !in loaded.topology.mapEpochs || loaded.topology.mapEpochs[m] == 0)
            case NoStandby => leads && eligible == {}
            case NoCheckpoint => leads && standby in eligible
            case UnknownMap => leads && standby in eligible && !known
            case PromoteFailed => leads && standby in eligible && known && !promoted
            case LeaseLost =>
              leads && known && promoted
              && !(seen.confirm.leader && seen.confirm.live && seen.confirm.term == seen.leader.term)
            case CasRefused(code) => leads && known && promoted && !code.Saved?
                                     && seen.confirm.leader && seen.confirm.live && seen.confirm.term == seen.leader.term
            case Committed => leads && known && promoted
                              && seen.confirm.leader && seen.confirm.live && seen.confirm.term == seen.leader.term
  {
    hide CasVerdict, Load, Proposal;
  }

  // A first topology leaves every map a standby: whoever owns it, another registered node can take over while it is
  // healthy and not draining.
  lemma FirstTopologyHasStandbys(known: set<MapId>, nodes: seq<Registration>, now: nat, built: BuildResult, m: MapId)
    requires BuildOutcome(known, nodes, now, built) && built.Ready? && m in known
    ensures m in built.topology.owners && built.topology.updatedAt == now > 0
    ensures exists r :: r in nodes && r.mapId == m && r.id != built.topology.owners[m]
    ensures exists r :: r in nodes && r.mapId == m && r.id == built.topology.owners[m]
  {
    var owner, candidates := built.topology.owners[m], Candidates(nodes, m);
    assert |candidates| >= 2 && owner in candidates;
    assert candidates == (candidates - {owner}) + {owner};
    assert |candidates - {owner}| >= 1;
    var id :| id in candidates && id != owner;
    var r :| r in nodes && r.mapId == m && r.id == id;
    var q :| q in nodes && q.mapId == m && q.id == owner;
  }

  datatype BootOutcome =
    | BootNotLeader | BootUnreadable | BootPresent | BootInvalid | BootNotReady | BootLeaseLost
    | BootRefused(code: CasCode) | BootCommitted

  ghost predicate BootEndsAs(r: BootOutcome, seen: Seen, built: BuildResult) {
    var term, load := TermOf(seen.leader), Load(seen.load);
    if term == 0 then r.BootNotLeader?
    else if load.LoadFailed? then r.BootUnreadable?
    else if load.Found? then r.BootPresent?
    else if built.BuildError? then r.BootInvalid?
    else if built.NotReady? then r.BootNotReady?
    else if !HoldsTerm(seen.confirm, term) then r.BootLeaseLost?
    else
      var verdict := LeaderVerdict(seen.commit, 0, InitialProposal(built.topology, term), None, term);
      r == if verdict.Saved? then BootCommitted else BootRefused(verdict)
  }

  class Coordinator {
    const store: Store
    const elector: RedisElector
    const configs: set<MapId>
    ghost var attempts: seq<MapId>    // the maps FailoverMap was called for

    constructor (store: Store, elector: RedisElector, configs: set<MapId>)
      ensures this.store == store && this.elector == elector && this.configs == configs && attempts == []
    {
      this.store, this.elector, this.configs := store, elector, configs;
      attempts := [];
    }

    // Everything other processes may do between two calls of this one: nothing is known afterwards.
    method Interference()
      modifies store, elector
    {
    }

    // Whatever the registry, the health checks, the network and the clock may answer.
    method Environment() returns (nodes: seq<Registration>, healthy: set<NodeId>, promoted: bool, now: nat) {
      nodes, healthy, promoted, now := *, *, *, *;
    }

    // Every map of the failed node, in order; a map that cannot move does not stop the others.
    method FailoverNode(failed: NodeId) returns (ghost load: LoadResult)
      modifies this, store, elector
      ensures old(TermOf(elector.State())) == 0 || !load.Found? ==> attempts == old(attempts)
      ensures old(TermOf(elector.State())) != 0 && load.Found? ==>
        exists ids: seq<MapId> ::
          && attempts == old(attempts) + ids
          && SortedBy(ids, Itself) && Distinct(ids, Itself)
          && forall m :: m in ids <==> m in load.topology.owners && load.topology.owners[m] == failed
    {
      load := Absent;
      var t := elector.Term();
      if t == 0 { return; }
      Interference();
      var loaded := store.LoadTopology();
      load := loaded;
      if !loaded.Found? { return; }
      var ids := MapsOf(loaded.topology, failed);
      for i := 0 to |ids|
        invariant attempts == old(attempts) + ids[..i]
      {
        var nodes, healthy, promoted, now := Environment();
        var r;
        ghost var standby, seen;
        r, standby, seen := FailoverMap(ids[i], failed, nodes, healthy, promoted, now);
        assert ids[..i + 1] == ids[..i] + [ids[i]];
      }
      assert ids[..|ids|] == ids;
    }

    static method MapsOf(t: Topology, owner: NodeId) returns (ids: seq<MapId>)
      ensures SortedBy(ids, Itself) && Distinct(ids, Itself)
      ensures forall m :: m in ids <==> m in t.owners && t.owners[m] == owner
    {
      ids := SortedMembers(set m | m in t.owners && t.owners[m] == owner);
    }

    // `promoted` is the reply of the Promote call.
    method FailoverMap(m: MapId, failed: NodeId, nodes: seq<Registration>, healthy: set<NodeId>, promoted: bool, now: nat)
      returns (r: Outcome, ghost standby: NodeId, ghost seen: Seen)
      modifies this, store, elector
      ensures attempts == old(attempts) + [m]
      ensures seen.leader == old(elector.State()) && seen.start == old(store.State())
      ensures EndsAs(r, m, failed, Eligible(nodes, healthy, m, failed), m in configs, promoted, now, seen, standby)
      ensures Leaves(r, m, failed, now, seen, standby, store.State())
    {
      hide LeaderVerdict, CasEffect, Proposal, Load, Valid, UsableCheckpoint, Eligible;
      attempts := attempts + [m];
      standby := "";
      seen := Seen(elector.State(), store.State(), store.State(), store.State(), store.State(), elector.State(), store.State());
      var term := elector.Term();
      if term == 0 { return NotLeader, standby, seen; }
      Interference();
      seen := seen.(load := store.State());
      var load := store.LoadTopology();
      if !load.Found? { return NoTopology, standby, seen; }
      var topology := load.topology;
      if topology.OwnerOf(m) != failed { return OwnerChanged, standby, seen; }
      var oldEpoch := topology.EpochOf(m);
      if oldEpoch == 0 { return NoEpoch, standby, seen; }

      var chosen := SelectStandby(nodes, healthy, m, failed);
      if chosen.None? { return NoStandby, standby, seen; }
      standby := chosen.value;
      r, seen := PromoteAndCommit(topology, m, failed, chosen.value, term, promoted, now, seen);
    }

    method PromoteAndCommit(topology: Topology, m: MapId, failed: NodeId, standby: NodeId, term: nat, promoted: bool, now: nat,
                            ghost before: Seen)
      returns (r: Outcome, ghost seen: Seen)
      requires term > 0 && term == TermOf(before.leader) && Load(before.load) == Found(topology)
      modifies store, elector
      ensures seen.leader == before.leader && seen.start == before.start && seen.load == before.load
      ensures EndsWith(r, topology, m, failed, m in configs, promoted, now, seen, standby)
      ensures Leaves(r, m, failed, now, seen, standby, store.State())
      ensures !r.NotLeader? && !r.NoTopology? && !r.OwnerChanged? && !r.NoEpoch? && !r.NoStandby?
    {
      hide LeaderVerdict, CasEffect, Proposal, Load, Valid, UsableCheckpoint;
      Interference();
      seen := before.(checkpoint := store.State());
      if m !in store.checkpoints || store.checkpoints[m].Corrupt? { return NoCheckpoint, seen; }
      var usable := IsUsable(store.checkpoints[m].value, m, failed, topology.EpochOf(m));
      if !usable { return NoCheckpoint, seen; }
      if m !in configs { return UnknownMap, seen; }
      Interference();
      seen := seen.(promote := store.State());
      if !promoted { return PromoteFailed, seen; }
      ghost var confirm, commit;
      r, confirm, commit := CommitFailover(topology, m, failed, standby, term, now);
      seen := seen.(confirm := confirm, commit := commit);
    }

    // The lease is confirmed once more, then the script decides.
    method CommitFailover(topology: Topology, m: MapId, failed: NodeId, standby: NodeId, term: nat, now: nat)
      returns (r: Outcome, ghost confirm: Elector, ghost commit: Redis)
      requires term > 0
      modifies store, elector
      ensures confirm == old(elector.State())
      ensures var next, mig := Proposal(topology, m, standby, term, now), Some(Migration(m, failed, standby));
              var verdict := LeaderVerdict(commit, topology.version, next, mig, term);
              if !HoldsTerm(confirm, term) then r.LeaseLost? && store.State() == old(store.State())
              else if verdict.Saved? then r.Committed? && store.State() == CasEffect(commit, next, mig)
              else r == CasRefused(verdict) && store.State() == commit
    {
      hide CasVerdict, CasEffect, Proposal;
      confirm, commit := elector.State(), store.State();
      var next := topology;
      next := next.(version := topology.version + 1);
      next := next.(owners := next.owners[m := standby]);
      next := next.(mapEpochs := next.mapEpochs[m := topology.EpochOf(m) + 1]);
      next := next.(leaderTerm := term, updatedAt := now);
      ProposalFields(topology, m, standby, term, now);
      var again := elector.Term();
      if again != term { return LeaseLost, confirm, commit; }
      Interference();
      commit := store.State();
      var code := store.CompareAndSaveForLeader(topology.version, next, Some(Migration(m, failed, standby)), term);
      return if code.Saved? then Committed else CasRefused(code), confirm, commit;
    }

    static method IsUsable(cp: Checkpoint, m: MapId, owner: NodeId, epoch: nat) returns (ok: bool)
      ensures ok <==> UsableCheckpoint(cp, m, owner, epoch)
      ensures ok <==> cp.mapId == m && cp.nodeId == owner && cp.mapEpoch == epoch && cp.version > 0
    {
      return !(cp.mapId != m || cp.nodeId != owner || cp.mapEpoch != epoch || cp.version <= 0);
    }

    // Writes version 1 only where no topology was found; losing the race is not an error.
    method BootstrapTopologyIfAbsent(nodes: seq<Registration>, now: nat)
      returns (r: BootOutcome, ghost built: BuildResult, ghost seen: Seen)
      modifies store, elector
      ensures seen.leader == old(elector.State()) && seen.start == old(store.State())
      ensures BuildOutcome(configs, nodes, now, built) && BootEndsAs(r, seen, built)
      ensures r.BootNotLeader? ==> store.State() == seen.start
      ensures !r.BootNotLeader? && !r.BootRefused? && !r.BootCommitted? ==> store.State() == seen.load
      ensures r.BootRefused? ==> store.State() == seen.commit
      ensures r.BootCommitted? && built.Ready? ==>
        && seen.commit.topology.None? && seen.commit.term == TermOf(seen.leader) > 0
        && store.State() == CasEffect(seen.commit, InitialProposal(built.topology, TermOf(seen.leader)), None)
    {
      hide CasVerdict, CasEffect, BuildOutcome, Valid, Load;
      seen := Seen(elector.State(), store.State(), store.State(), store.State(), store.State(), elector.State(), store.State());
      var result := BuildInitialTopology(configs, nodes, now);
      built := result;
      var term := elector.Term();
      if term == 0 { return BootNotLeader, built, seen; }
      Interference();
      seen := seen.(load := store.State());
      var load := store.LoadTopology();
      if load.LoadFailed? { return BootUnreadable, built, seen; }
      if load.Found? { return BootPresent, built, seen; }
      if result.BuildError? { return BootInvalid, built, seen; }
      if result.NotReady? { return BootNotReady, built, seen; }
      seen := seen.(confirm := elector.State());
      var again := elector.Term();
      if again != term { return BootLeaseLost, built, seen; }
      Interference();
      seen := seen.(commit := store.State());
      var initial := result.topology.(leaderTerm := term);
      OnlyTheFirstCommitStartsAtZero(seen.commit, initial, term);
      var code := store.CompareAndSaveForLeader(0, initial, None, term);
      if !code.Saved? { return BootRefused(code), built, seen; }
      return BootCommitted, built, seen;
    }
  }
}
