/**
 The control plane as one transition system: any number of coordinators, failover runs and nodes, with every
 script, remote call and local assignment as a step of its own. A run is a sequence of labels; a label that is
 not enabled leaves the state as it is, so every sequence of labels is a run and every interleaving is covered.
 */
module Protocol {
  import opened Text
  import opened Topologies
  import opened Stores
  import opened Electors
  import opened Authorities
  import opened Coordinators

  type CoordId = string

  // Why a topology was committed. Repair is the compare-and-swap without a term, open to any caller.
  datatype Cause =
    | Repair
    | Bootstrap(coord: CoordId, term: nat)
    | Failover(coord: CoordId, term: nat, mapId: MapId, from: NodeId, to: NodeId)

  // `counter` is the durable leader term when the commit happened.
  datatype Commit = Commit(topology: Topology, cause: Cause, counter: nat)

  // A Promote call a node accepted; `before` is the number of commits made until then.
  datatype Promotion = Promotion(node: NodeId, mapId: MapId, target: nat, cp: Checkpoint, before: nat)

  // How far a failover or bootstrap run has come.
  datatype Task =
    | Started(coord: CoordId, term: nat, mapId: MapId, failed: NodeId)
    | Chosen(coord: CoordId, term: nat, mapId: MapId, failed: NodeId, topology: Topology, standby: NodeId)
    | Checked(coord: CoordId, term: nat, mapId: MapId, failed: NodeId, topology: Topology, standby: NodeId, cp: Checkpoint)
    | Promoted(coord: CoordId, term: nat, mapId: MapId, failed: NodeId, topology: Topology, standby: NodeId, cp: Checkpoint)
    | Confirmed(coord: CoordId, term: nat, mapId: MapId, failed: NodeId, topology: Topology, standby: NodeId, cp: Checkpoint)
    | BootStarted(coord: CoordId, term: nat)
    | BootBuilt(coord: CoordId, term: nat, topology: Topology)
    | BootConfirmed(coord: CoordId, term: nat, topology: Topology)

  datatype Sys = Sys(
    redis: Redis,
    electors: map<CoordId, Elector>,
    tasks: map<nat, Task>,
    caches: map<NodeId, Topology>,
    commits: seq<Commit>,          // every topology ever committed, in order
    acquirers: seq<CoordId>,       // who was issued term 1, 2, ...
    promotions: seq<Promotion>)

  const INIT := Sys(EMPTY_REDIS, map[], map[], map[], [], [], [])

  function ElectorOf(s: Sys, c: CoordId): Elector {
    if c in s.electors then s.electors[c] else FRESH
  }

  function WithElector(s: Sys, c: CoordId, e: Elector): Sys {
    s.(electors := s.electors[c := e])
  }

  datatype Label =
    // election; a coordinator's id stands for its unique lease token
    | BeginCampaign(c: CoordId)
    | Acquire(c: CoordId, replied: bool)
    | Assign(c: CoordId)
    | CancelCampaign(c: CoordId)
    | Lose(c: CoordId)
    | CancelContext(c: CoordId)
    | Renew(c: CoordId)
    | Release(c: CoordId)
    | ExpireLease
    // failover of one map
    | Start(id: nat, c: CoordId, m: MapId, failed: NodeId)
    | LoadAndChoose(id: nat, standby: NodeId)
    | CheckCheckpoint(id: nat)
    | Promote(id: nat, replied: bool)
    | Confirm(id: nat)
    | CommitFailover(id: nat, now: nat)
    | Abandon(id: nat)
    // bootstrap
    | BootStart(id: nat, c: CoordId)
    | BootBuild(id: nat, built: Topology)
    | BootConfirm(id: nat)
    | CommitBootstrap(id: nat)
    // any other caller of the compare-and-swap
    | CommitRepair(expected: nat, next: Topology, mig: Option<Migration>)
    // nodes and sessions
    | Refresh(n: NodeId, k: nat)
    | SaveCheckpoint(n: NodeId, epoch: nat, cp: Checkpoint)
    | WriteSession(user: string, session: Doc<Session>)
    | DeleteSession(user: string)

  ghost function Do(s: Sys, l: Label): Sys {
    match l
    case BeginCampaign(c) => WithElector(s, c, Begun(ElectorOf(s, c)))
    case Acquire(c, replied) => DoAcquire(s, c, replied)
    case Assign(c) => WithElector(s, c, Assigned(ElectorOf(s, c)))
    case CancelCampaign(c) =>
      if ElectorOf(s, c).acquired.None? then WithElector(s, c, ElectorOf(s, c).(campaigning := false)) else s
    case Lose(c) => WithElector(s, c, Lost(ElectorOf(s, c)))
    case CancelContext(c) => WithElector(s, c, ElectorOf(s, c).(live := false))
    case Renew(c) => if s.redis.lease == Some(c) then s else WithElector(s, c, Lost(ElectorOf(s, c)))
    case Release(c) => s.(redis := AfterRelease(s.redis, c))
    case ExpireLease => s.(redis := s.redis.(lease := None))
    case Start(id, c, m, failed) =>
      if id !in s.tasks && TermOf(ElectorOf(s, c)) > 0
      then s.(tasks := s.tasks[id := Started(c, TermOf(ElectorOf(s, c)), m, failed)]) else s
    case LoadAndChoose(id, standby) => DoLoadAndChoose(s, id, standby)
    case CheckCheckpoint(id) => DoCheckCheckpoint(s, id)
    case Promote(id, replied) => DoPromote(s, id, replied)
    case Confirm(id) => DoConfirm(s, id)
    case CommitFailover(id, now) => DoCommitFailover(s, id, now)
    case Abandon(id) => s.(tasks := s.tasks - {id})
    case BootStart(id, c) =>
      if id !in s.tasks && TermOf(ElectorOf(s, c)) > 0
      then s.(tasks := s.tasks[id := BootStarted(c, TermOf(ElectorOf(s, c)))]) else s
    case BootBuild(id, built) => DoBootBuild(s, id, built)
    case BootConfirm(id) => DoBootConfirm(s, id)
    case CommitBootstrap(id) => DoCommitBootstrap(s, id)
    case CommitRepair(expected, next, mig) => DoCommitRepair(s, expected, next, mig)
    case Refresh(n, k) => DoRefresh(s, n, k)
    case SaveCheckpoint(n, epoch, cp) => s.(redis := AfterSave(s.redis, cp, n, epoch))
    case WriteSession(user, session) => s.(redis := s.redis.(sessions := s.redis.sessions[user := session]))
    case DeleteSession(user) => s.(redis := s.redis.(sessions := s.redis.sessions - {user}))
  }

  // The script runs even when its reply is lost; then the elector gives up, but the term is spent.
  ghost function DoAcquire(s: Sys, c: CoordId, replied: bool): Sys {
    var e := ElectorOf(s, c);
    if !MayAcquire(e) || s.redis.lease.Some? then s
    else
      var t := s.(redis := AfterAcquire(s.redis, c), acquirers := s.acquirers + [c]);
      WithElector(t, c, if replied then e.(acquired := Some(t.redis.term)) else AcquireFailed(e))
  }

  // LoadTopology, the owner and epoch checks, and the choice of any standby but the failed node.
  ghost function DoLoadAndChoose(s: Sys, id: nat, standby: NodeId): Sys {
    if id in s.tasks && s.tasks[id].Started? && Load(s.redis).Found? && standby != s.tasks[id].failed then
      var t, topology := s.tasks[id], Load(s.redis).topology;
      if topology.OwnerOf(t.mapId) == t.failed && topology.EpochOf(t.mapId) != 0
      then s.(tasks := s.tasks[id := Chosen(t.coord, t.term, t.mapId, t.failed, topology, standby)])
      else s
    else s
  }

  ghost function DoCheckCheckpoint(s: Sys, id: nat): Sys {
    if id in s.tasks && s.tasks[id].Chosen? then
      var t := s.tasks[id];
      if t.mapId in s.redis.checkpoints && s.redis.checkpoints[t.mapId].Json? then
        var cp := s.redis.checkpoints[t.mapId].value;
        if UsableCheckpoint(cp, t.mapId, t.failed, t.topology.EpochOf(t.mapId))
        then s.(tasks := s.tasks[id := Checked(t.coord, t.term, t.mapId, t.failed, t.topology, t.standby, cp)])
        else s
      else s
    else s
  }

  // The standby decides on its own cached topology. A lost reply ends the run after the node accepted.
  ghost function DoPromote(s: Sys, id: nat, replied: bool): Sys {
    if id in s.tasks && s.tasks[id].Checked? then
      var t := s.tasks[id];
      var target := t.topology.EpochOf(t.mapId) + 1;
      if t.standby in s.caches && MayPromote(s.caches[t.standby], t.standby, t.mapId, target)
         && PromotableCheckpoint(t.cp, t.mapId, target)
      then
        s.(promotions := s.promotions + [Promotion(t.standby, t.mapId, target, t.cp, |s.commits|)],
           tasks := if replied
                    then s.tasks[id := Promoted(t.coord, t.term, t.mapId, t.failed, t.topology, t.standby, t.cp)]
                    else s.tasks - {id})
      else s
    else s
  }

  // hasLeaderTerm
  ghost function DoConfirm(s: Sys, id: nat): Sys {
    if id in s.tasks && s.tasks[id].Promoted? && HoldsTerm(ElectorOf(s, s.tasks[id].coord), s.tasks[id].term) then
      var t := s.tasks[id];
      s.(tasks := s.tasks[id := Confirmed(t.coord, t.term, t.mapId, t.failed, t.topology, t.standby, t.cp)])
    else s
  }

  function FailoverProposal(t: Task, now: nat): Topology
    requires t.Confirmed?
  {
    Proposal(t.topology, t.mapId, t.standby, t.term, now)
  }

  function FailoverMigration(t: Task): Option<Migration>
    requires t.Confirmed?
  {
    Some(Migration(t.mapId, t.failed, t.standby))
  }

  ghost function DoCommitFailover(s: Sys, id: nat, now: nat): Sys {
    if id in s.tasks && s.tasks[id].Confirmed? then
      var t := s.tasks[id];
      var next, mig := FailoverProposal(t, now), FailoverMigration(t);
      Logged(s.(tasks := s.tasks - {id}), LeaderVerdict(s.redis, t.topology.version, next, mig, t.term),
                next, mig, Failover(t.coord, t.term, t.mapId, t.failed, t.standby))
    else s
  }

  // Appends to the log exactly when the script saved.
  ghost function Logged(s: Sys, code: CasCode, next: Topology, mig: Option<Migration>, cause: Cause): Sys {
    if code.Saved?
    then s.(redis := CasEffect(s.redis, next, mig), commits := s.commits + [Commit(next, cause, s.redis.term)])
    else s
  }

  // `built` is any topology BuildInitialTopology can return for some maps and registrations.
  ghost predicate IsInitial(t: Topology) {
    && t.version == 1 && t.owners.Keys == t.mapEpochs.Keys
    && forall m | m in t.mapEpochs :: t.mapEpochs[m] == 1
  }

  ghost function DoBootBuild(s: Sys, id: nat, built: Topology): Sys {
    if id in s.tasks && s.tasks[id].BootStarted? && Load(s.redis).Absent? && IsInitial(built)
    then s.(tasks := s.tasks[id := BootBuilt(s.tasks[id].coord, s.tasks[id].term, built)]) else s
  }

  ghost function DoBootConfirm(s: Sys, id: nat): Sys {
    if id in s.tasks && s.tasks[id].BootBuilt? && HoldsTerm(ElectorOf(s, s.tasks[id].coord), s.tasks[id].term) then
      var t := s.tasks[id];
      s.(tasks := s.tasks[id := BootConfirmed(t.coord, t.term, InitialProposal(t.topology, t.term))])
    else s
  }

  ghost function DoCommitBootstrap(s: Sys, id: nat): Sys {
    if id in s.tasks && s.tasks[id].BootConfirmed? then
      var t := s.tasks[id];
      Logged(s.(tasks := s.tasks - {id}), LeaderVerdict(s.redis, 0, t.topology, None, t.term),
                t.topology, None, Bootstrap(t.coord, t.term))
    else s
  }

  ghost function DoCommitRepair(s: Sys, expected: nat, next: Topology, mig: Option<Migration>): Sys {
    Logged(s, CasVerdict(s.redis, expected, next, mig, 0), next, mig, Repair)
  }

  // A refresh applies a topology loaded at any earlier moment; an older one than the cached is refused.
  ghost function DoRefresh(s: Sys, n: NodeId, k: nat): Sys {
    if k < |s.commits| && (n in s.caches ==> s.caches[n].version <= s.commits[k].topology.version)
    then s.(caches := s.caches[n := s.commits[k].topology]) else s
  }

  ghost function Run(labels: seq<Label>): Sys {
    if labels == [] then INIT else Do(Run(labels[..|labels| - 1]), labels[|labels| - 1])
  }

  // A run in which only coordinators commit, as in the deployed programs.
  ghost predicate CoordinatorsOnly(labels: seq<Label>) {
    forall l | l in labels :: !l.CommitRepair?
  }
}
