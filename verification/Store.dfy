/** The shared Redis state and the scripts that read and write it. Each script is one atomic step. */
module Stores {
  import opened Text
  import opened Topologies
  import WorldData

  // A stored document either decodes or does not.
  datatype Doc<+T> = Corrupt | Json(value: T)

  datatype Fence = Fence(owner: NodeId, epoch: nat)
  datatype Session = Session(mapId: MapId, nodeId: NodeId, version: int)
  type Checkpoint = WorldData.MapCheckpoint
  datatype Migration = Migration(mapId: MapId, oldNodeId: NodeId, newNodeId: NodeId)

  datatype Redis = Redis(
    topology: Option<Doc<Topology>>,
    fences: map<MapId, Doc<Fence>>,
    sessions: map<string, Doc<Session>>,
    checkpoints: map<MapId, Doc<Checkpoint>>,
    term: nat,                 // the durable leader term counter; a missing key reads as 0
    lease: Option<string>)     // the token that holds the leader lease

  const EMPTY_REDIS := Redis(None, map[], map[], map[], 0, None)

  datatype CasCode =
    | Saved            // 1
    | VersionConflict  // 0
    | TopologyCorrupt  // -1
    | SessionCorrupt   // -2
    | EpochInvariant   // -3
    | TermInvariant    // -4
    | Invalid          // refused before the script runs

  // ---- what the compare-and-swap script decides ----

  // One map's owner and epoch move together: a new owner takes the next epoch, the same owner keeps it.
  predicate EpochKept(cur: Topology, next: Topology, m: MapId)
    requires m in cur.mapEpochs
  {
    && m in next.mapEpochs
    && next.mapEpochs[m] == cur.mapEpochs[m] + if cur.OwnerOf(m) == next.OwnerOf(m) then 0 else 1
  }

  ghost predicate EpochGuard(cur: Topology, next: Topology) {
    && (forall m | m in cur.mapEpochs :: EpochKept(cur, next, m))
    && (forall m | m in next.mapEpochs && m !in cur.mapEpochs :: next.mapEpochs[m] == 1)
  }

  predicate Affected(s: Session, mig: Migration) {
    s.mapId == mig.mapId && s.nodeId == mig.oldNodeId
  }

  function Moved(s: Session, mig: Migration): Session {
    if Affected(s, mig) then s.(nodeId := mig.newNodeId, version := s.version + 1) else s
  }

  ghost predicate SessionsDecode(sessions: map<string, Doc<Session>>) {
    forall u | u in sessions :: sessions[u].Json?
  }

  ghost function Migrate(sessions: map<string, Doc<Session>>, mig: Option<Migration>): map<string, Doc<Session>> {
    if mig.None? then sessions
    else map u | u in sessions :: if sessions[u].Json? then Json(Moved(sessions[u].value, mig.value)) else Corrupt
  }

  ghost function WithFences(fences: map<MapId, Doc<Fence>>, next: Topology): map<MapId, Doc<Fence>> {
    map m | m in fences.Keys + next.owners.Keys ::
      if m in next.owners then Json(Fence(next.owners[m], next.EpochOf(m))) else fences[m]
  }

  // leaderTerm 0 is a commit without a term fence.
  ghost function CasVerdict(r: Redis, expected: nat, next: Topology, mig: Option<Migration>, leaderTerm: nat): CasCode {
    if mig.Some? && (mig.value.mapId == "" || mig.value.oldNodeId == "" || mig.value.newNodeId == "") then Invalid
    else if !Valid(next, None) || next.version != expected + 1 then Invalid
    else if leaderTerm != 0 && (r.term != leaderTerm || next.leaderTerm != r.term) then TermInvariant
    else if r.topology.None? && expected != 0 then VersionConflict
    else if r.topology.Some? && r.topology.value.Corrupt? then TopologyCorrupt
    else if r.topology.Some? && r.topology.value.value.version == 0 then TopologyCorrupt
    else if r.topology.Some? && r.topology.value.value.version != expected then VersionConflict
    else if r.topology.Some? && next.leaderTerm < r.topology.value.value.leaderTerm then TermInvariant
    else if r.topology.Some? && !EpochGuard(r.topology.value.value, next) then EpochInvariant
    else if mig.Some? && !SessionsDecode(r.sessions) then SessionCorrupt
    else Saved
  }

  ghost function CasEffect(r: Redis, next: Topology, mig: Option<Migration>): Redis {
    r.(topology := Some(Json(next)),
       fences := WithFences(r.fences, next),
       sessions := Migrate(r.sessions, mig))
  }

  ghost function AfterCas(r: Redis, expected: nat, next: Topology, mig: Option<Migration>, leaderTerm: nat): Redis {
    if CasVerdict(r, expected, next, mig, leaderTerm).Saved? then CasEffect(r, next, mig) else r
  }

  // ---- the other scripts ----

  predicate CheckpointAccepted(fences: map<MapId, Doc<Fence>>, cp: Checkpoint, nodeId: NodeId, epoch: nat) {
    && cp.mapId != "" && nodeId != "" && epoch != 0
    && cp.nodeId == nodeId && cp.mapEpoch == epoch
    && cp.mapId in fences && fences[cp.mapId] == Json(Fence(nodeId, epoch))
  }

  function AfterSave(r: Redis, cp: Checkpoint, nodeId: NodeId, epoch: nat): Redis {
    if CheckpointAccepted(r.fences, cp, nodeId, epoch)
    then r.(checkpoints := r.checkpoints[cp.mapId := Json(cp)]) else r
  }

  predicate FenceHolds(r: Redis, m: MapId, nodeId: NodeId, epoch: nat) { Fenced(r.fences, m, nodeId, epoch) }

  predicate Fenced(fences: map<MapId, Doc<Fence>>, m: MapId, nodeId: NodeId, epoch: nat) {
    m != "" && nodeId != "" && epoch != 0 && m in fences && fences[m] == Json(Fence(nodeId, epoch))
  }

  datatype LoadResult = Absent | LoadFailed | Found(topology: Topology)

  ghost function Load(r: Redis): LoadResult {
    if r.topology.None? then Absent
    else if r.topology.value.Corrupt? || !Valid(r.topology.value.value, None) then LoadFailed
    else Found(r.topology.value.value)
  }

  function AfterAcquire(r: Redis, token: string): Redis {
    if r.lease.None? then r.(lease := Some(token), term := r.term + 1) else r
  }

  function AfterRelease(r: Redis, token: string): Redis {
    if r.lease == Some(token) then r.(lease := None) else r
  }

  /** The Redis keys, updated in place by the scripts. */
  class Store {
    var topology: Option<Doc<Topology>>
    var fences: map<MapId, Doc<Fence>>
    var sessions: map<string, Doc<Session>>
    var checkpoints: map<MapId, Doc<Checkpoint>>
    var term: nat
    var lease: Option<string>

    ghost function State(): Redis
      reads this
    {
      Redis(topology, fences, sessions, checkpoints, term, lease)
    }

    constructor ()
      ensures State() == EMPTY_REDIS
    {
      topology, fences, sessions, checkpoints, term, lease := None, map[], map[], map[], 0, None;
    }

    method CompareAndSave(expected: nat, next: Topology, mig: Option<Migration>, leaderTerm: nat)
      returns (code: CasCode)
      modifies this
      ensures code == CasVerdict(old(State()), expected, next, mig, leaderTerm)
      ensures State() == AfterCas(old(State()), expected, next, mig, leaderTerm)
    {
      if mig.Some? && (mig.value.mapId == "" || mig.value.oldNodeId == "" || mig.value.newNodeId == "") {
        return Invalid;
      }
      var valid := Validate(next, None);
      if !valid || next.version != expected + 1 { return Invalid; }
      if leaderTerm != 0 && (term == 0 || term != leaderTerm || next.leaderTerm != term) {
        return TermInvariant;
      }
      if topology.None? {
        if expected != 0 { return VersionConflict; }
      } else {
        if topology.value.Corrupt? || topology.value.value.version < 1 { return TopologyCorrupt; }
        var current := topology.value.value;
        if current.version != expected { return VersionConflict; }
        if next.leaderTerm < current.leaderTerm { return TermInvariant; }
        var kept := CheckEpochs(current, next);
        if !kept { return EpochInvariant; }
      }
      var updates: map<string, Doc<Session>> := map[];
      if mig.Some? {
        var moved := CollectUpdates(mig.value);
        if moved.None? { return SessionCorrupt; }
        updates := moved.value;
      }
      topology := Some(Json(next));
      WriteFences(next);
      sessions := sessions + updates;
      return Saved;
    }

    static method CheckEpochs(current: Topology, next: Topology) returns (ok: bool)
      ensures ok <==> EpochGuard(current, next)
    {
      var todo := current.mapEpochs.Keys;
      while todo != {}
        invariant todo <= current.mapEpochs.Keys
        invariant forall m | m in current.mapEpochs.Keys - todo :: EpochKept(current, next, m)
        decreases todo
      {
        var m :| m in todo;
        if m !in next.mapEpochs { return false; }
        if current.OwnerOf(m) != next.OwnerOf(m) {
          if next.mapEpochs[m] != current.mapEpochs[m] + 1 { return false; }
        } else if next.mapEpochs[m] != current.mapEpochs[m] {
          return false;
        }
        todo := todo - {m};
      }
      todo := next.mapEpochs.Keys;
      while todo != {}
        invariant todo <= next.mapEpochs.Keys
        invariant forall m | m in next.mapEpochs.Keys - todo && m !in current.mapEpochs :: next.mapEpochs[m] == 1
        decreases todo
      {
        var m :| m in todo;
        if m !in current.mapEpochs && next.mapEpochs[m] != 1 { return false; }
        todo := todo - {m};
      }
      return true;
    }

    // Reads every session before anything is written; one that does not decode stops the migration.
    method CollectUpdates(mig: Migration) returns (updates: Option<map<string, Doc<Session>>>)
      ensures updates.Some? <==> SessionsDecode(sessions)
      ensures updates.Some? ==> sessions + updates.value == Migrate(sessions, Some(mig))
    {
      var moved: map<string, Doc<Session>> := map[];
      var todo := sessions.Keys;
      while todo != {}
        invariant todo <= sessions.Keys && moved.Keys <= sessions.Keys - todo
        invariant forall u | u in sessions.Keys - todo ::
            && sessions[u].Json?
            && (u in moved <==> Affected(sessions[u].value, mig))
            && (u in moved ==> moved[u] == Json(Moved(sessions[u].value, mig)))
        decreases todo
      {
        var u :| u in todo;
        if sessions[u].Corrupt? { return None; }
        var session := sessions[u].value;
        if session.mapId == mig.mapId && session.nodeId == mig.oldNodeId {
          session := session.(nodeId := mig.newNodeId, version := session.version + 1);
          moved := moved[u := Json(session)];
        }
        todo := todo - {u};
      }
      return Some(moved);
    }

    method WriteFences(next: Topology)
      modifies this`fences
      ensures fences == WithFences(old(fences), next)
    {
      var todo := next.owners.Keys;
      while todo != {}
        invariant todo <= next.owners.Keys
        invariant fences.Keys == old(fences.Keys) + (next.owners.Keys - todo)
        invariant forall m | m in fences ::
            if m in next.owners.Keys - todo then fences[m] == Json(Fence(next.owners[m], next.EpochOf(m)))
            else fences[m] == old(fences)[m]
        decreases todo
      {
        var m :| m in todo;
        fences := fences[m := Json(Fence(next.owners[m], next.EpochOf(m)))];
        todo := todo - {m};
      }
    }

    method LoadTopology() returns (r: LoadResult)
      ensures r == Load(State())
      ensures r.Absent? <==> topology.None?
      ensures r.Found? <==> topology.Some? && topology.value.Json? && Valid(topology.value.value, None)
      ensures r.Found? ==> topology == Some(Json(r.topology))
    {
      if topology.None? { return Absent; }
      if topology.value.Corrupt? { return LoadFailed; }
      var valid := Validate(topology.value.value, None);
      return if valid then Found(topology.value.value) else LoadFailed;
    }

    // The term fence of the two leader entry points: term 0, or a proposal that does not carry it, never
    // reaches the script.
    method CompareAndSaveForLeader(expected: nat, next: Topology, mig: Option<Migration>, leaderTerm: nat)
      returns (code: CasCode)
      modifies this
      ensures code == LeaderVerdict(old(State()), expected, next, mig, leaderTerm)
      ensures State() == AfterLeaderCas(old(State()), expected, next, mig, leaderTerm)
      ensures leaderTerm == 0 || next.leaderTerm != leaderTerm ==> code.TermInvariant?
      ensures code.Saved? ==> old(term) == leaderTerm == next.leaderTerm != 0
      ensures !code.Saved? ==> State() == old(State())
    {
      if leaderTerm == 0 || next.leaderTerm != leaderTerm { return TermInvariant; }
      code := CompareAndSave(expected, next, mig, leaderTerm);
    }

    method SaveCheckpointIfOwner(cp: Checkpoint, nodeId: NodeId, epoch: nat) returns (saved: bool)
      modifies this`checkpoints
      ensures saved == CheckpointAccepted(fences, cp, nodeId, epoch)
      ensures State() == AfterSave(old(State()), cp, nodeId, epoch)
    {
      if cp.mapId == "" || nodeId == "" || epoch == 0 { return false; }
      if cp.nodeId != nodeId || cp.mapEpoch != epoch { return false; }
      if cp.mapId !in fences || fences[cp.mapId].Corrupt? { return false; }
      var fence := fences[cp.mapId].value;
      if fence.owner != nodeId || fence.epoch != epoch { return false; }
      checkpoints := checkpoints[cp.mapId := Json(cp)];
      return true;
    }

    method RequireMapFence(m: MapId, nodeId: NodeId, epoch: nat) returns (ok: bool)
      ensures ok == FenceHolds(State(), m, nodeId, epoch)
    {
      if m == "" || nodeId == "" || epoch == 0 || m !in fences || fences[m].Corrupt? { return false; }
      return fences[m].value.owner == nodeId && fences[m].value.epoch == epoch;
    }
  }

  ghost function LeaderVerdict(r: Redis, expected: nat, next: Topology, mig: Option<Migration>, leaderTerm: nat): CasCode {
    if leaderTerm == 0 || next.leaderTerm != leaderTerm then TermInvariant
    else CasVerdict(r, expected, next, mig, leaderTerm)
  }

  ghost function AfterLeaderCas(r: Redis, expected: nat, next: Topology, mig: Option<Migration>, leaderTerm: nat): Redis {
    if LeaderVerdict(r, expected, next, mig, leaderTerm).Saved? then CasEffect(r, next, mig) else r
  }

  // ---- what a commit means ----

  // Every decodable session of a routed map points at the map's owner.
  ghost predicate SessionsOnOwners(sessions: map<string, Doc<Session>>, t: Topology) {
    forall u | u in sessions && sessions[u].Json? && sessions[u].value.mapId in t.owners ::
      sessions[u].value.nodeId == t.owners[sessions[u].value.mapId]
  }

  // A migrating commit moves exactly the sessions of that map on that node, one version up; a session of the map on
  // a third node stays as it is, and a refused commit moves none.
  lemma MigrationMovesExactlyTheAffected(r: Redis, expected: nat, next: Topology, mig: Migration, leaderTerm: nat, u: string)
    ensures var after := AfterCas(r, expected, next, Some(mig), leaderTerm);
            && after.sessions.Keys == r.sessions.Keys
            && (u in r.sessions ==>
                  (after.sessions[u] != r.sessions[u] <==>
                     && CasVerdict(r, expected, next, Some(mig), leaderTerm).Saved?
                     && r.sessions[u].Json?
                     && r.sessions[u].value.mapId == mig.mapId && r.sessions[u].value.nodeId == mig.oldNodeId))
            && (u in r.sessions && after.sessions[u] != r.sessions[u] ==>
                  after.sessions[u] == Json(Session(mig.mapId, mig.newNodeId, r.sessions[u].value.version + 1)))
  {
    var after := AfterCas(r, expected, next, Some(mig), leaderTerm);
    if after != r && u in r.sessions {
      assert r.sessions[u].Json?;
      assert after.sessions[u] == Json(Moved(r.sessions[u].value, mig));
    }
  }

  // When the script saves: on the expected version, within the terms, with owners and epochs moving together.
  lemma SavedIff(r: Redis, expected: nat, next: Topology, mig: Option<Migration>, leaderTerm: nat)
    ensures CasVerdict(r, expected, next, mig, leaderTerm).Saved? <==>
              && Valid(next, None) && next.version == expected + 1
              && (leaderTerm != 0 ==> r.term == leaderTerm == next.leaderTerm)
              && (mig.Some? ==>
                    && mig.value.mapId != "" && mig.value.oldNodeId != "" && mig.value.newNodeId != ""
                    && forall u | u in r.sessions :: r.sessions[u].Json?)
              && match r.topology
                 case None => expected == 0
                 case Some(Corrupt) => false
                 case Some(Json(cur)) =>
                   && cur.version == expected != 0 && cur.leaderTerm <= next.leaderTerm
                   && (forall m | m in next.mapEpochs && m !in cur.mapEpochs :: next.mapEpochs[m] == 1)
                   && forall m | m in cur.mapEpochs ::
                        m in next.mapEpochs
                        && next.mapEpochs[m] == if cur.OwnerOf(m) == next.OwnerOf(m) then cur.mapEpochs[m] else cur.mapEpochs[m] + 1
  {
  }

  // What each refusal says of the proposal and the stored documents.
  lemma RefusalsTellWhy(r: Redis, expected: nat, next: Topology, mig: Option<Migration>, leaderTerm: nat)
    ensures match CasVerdict(r, expected, next, mig, leaderTerm)
            case Saved => true
            case Invalid =>
              !Valid(next, None) || next.version != expected + 1
              || (mig.Some? && (mig.value.mapId == "" || mig.value.oldNodeId == "" || mig.value.newNodeId == ""))
            case VersionConflict =>
              expected != (match r.topology case Some(Json(cur)) => cur.version case _ => 0)
            case TopologyCorrupt => r.topology.Some? && (r.topology.value.Corrupt? || r.topology.value.value.version == 0)
            case TermInvariant =>
              (leaderTerm != 0 && !(r.term == leaderTerm == next.leaderTerm))
              || (r.topology.Some? && r.topology.value.Json? && next.leaderTerm < r.topology.value.value.leaderTerm)
            case EpochInvariant =>
              r.topology.Some? && r.topology.value.Json? &&
              exists m ::
                var cur := r.topology.value.value;
                if m in cur.mapEpochs
                then m !in next.mapEpochs
                     || next.mapEpochs[m] != if cur.OwnerOf(m) == next.OwnerOf(m) then cur.mapEpochs[m] else cur.mapEpochs[m] + 1
                else m in next.mapEpochs && next.mapEpochs[m] != 1
            case SessionCorrupt => mig.Some? && exists u :: u in r.sessions && r.sessions[u].Corrupt?
  {
    if CasVerdict(r, expected, next, mig, leaderTerm).EpochInvariant? {
      var cur := r.topology.value.value;
      if m :| m in cur.mapEpochs && !EpochKept(cur, next, m) {
      } else {
        var n :| n in next.mapEpochs && n !in cur.mapEpochs && next.mapEpochs[n] != 1;
      }
    }
  }

  // The owner a commit replaces is fenced out, except where the commit drops the map from `owners`:
  // then no fence is written and the old one still admits it.
  lemma ReplacedOwnerIsFencedOut(r: Redis, expected: nat, next: Topology, mig: Option<Migration>, leaderTerm: nat, cp: Checkpoint)
    requires r.topology.Some? && r.topology.value.Json?
    requires CasVerdict(r, expected, next, mig, leaderTerm).Saved?
    requires cp.mapId in r.topology.value.value.mapEpochs && cp.mapId in r.fences
    requires CheckpointAccepted(r.fences, cp, cp.nodeId, cp.mapEpoch)
    requires cp.nodeId == r.topology.value.value.OwnerOf(cp.mapId)
    requires cp.mapEpoch == r.topology.value.value.EpochOf(cp.mapId)
    ensures CheckpointAccepted(AfterCas(r, expected, next, mig, leaderTerm).fences, cp, cp.nodeId, cp.mapEpoch)
            <==> cp.mapId !in next.owners || next.owners[cp.mapId] == cp.nodeId
  {
    assert EpochKept(r.topology.value.value, next, cp.mapId);
  }
}
