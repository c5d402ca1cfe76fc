/**
 Draining a node while writers, readers, promotions, topology refreshes and other processes interleave with it.
 Each lock operation, check, step of a world, capture and save is a step; a run is a sequence of labels. The worlds
 are the worlds of Worlds, and the checkpoints list them.
 */
module Drains {
  import opened Text
  import opened Topologies
  import opened Stores
  import opened Authorities
  import opened Nodes
  import opened WorldData
  import W = Worlds
  import C = WorldCheckpoint

  // The world a thread works on, an index into `worlds`.
  datatype Held = Held(mapId: MapId, world: nat)

  // A thread between beginWrite's read lock and its release. A tick holds its world from the start; a command
  // looks it up once it is admitted.
  datatype Writer =
    | Entered(held: Option<Held>)                                // has not looked at `draining` yet
    | Undrained(held: Option<Held>)
    | Cached(mapId: MapId, epoch: nat, held: Option<Held>)       // the cached topology agreed
    | Admitted(mapId: MapId, epoch: nat, held: Option<Held>)     // the stored fence agreed: beginWrite returned
    | Captured(mapId: MapId, epoch: nat, cp: Checkpoint, held: Option<Held>)

  datatype Stage =
    | Idle
    | Locked                                              // BeginDrain holds drainMu
    | Flagged(first: bool)                                // `draining` is set; `first` says by whom
    | Saving(todo: set<MapId>)
    | SavingOne(todo: set<MapId>, mapId: MapId, kept: Kept)

  // A capture of the final save: which world, what it was, and the checkpoint that lists it.
  datatype Kept = Kept(epoch: nat, world: nat, shot: W.World, cp: Checkpoint)

  datatype Promised = Promised(mapId: MapId, cp: Checkpoint)

  datatype State = State(
    id: NodeId,
    redis: Redis,
    cache: Option<Topology>,
    draining: bool,
    worlds: seq<W.World>,                       // every world this node ever made
    maps: map<MapId, nat>,                      // the hosted ones
    copies: map<nat, Held>,                     // worlds that ticks have copied out of `maps`, lock not taken yet
    writers: map<nat, Writer>,
    promoting: map<nat, Promised>,              // Promote calls past their checks, not installed yet
    stage: Stage,
    listed: Option<set<MapId>>,                 // the owned maps of the one final save
    saved: map<MapId, Kept>,                    // what it stored
    skipped: set<MapId>,                        // listed, but passed by: at its turn the cache was stale or did not
                                                // name this node, or the map was not hosted
    failed: bool,                               // the final save reported an error
    passed: bool)                               // some BeginDrain got beyond its save phase

  datatype WriterStep =
    | CopyMap(mapId: MapId) | EnterTick | Enter | CheckDraining | CheckCache(mapId: MapId, epoch: nat, recent: bool)
    | CheckFence | LookUp | Write(step: W.Step) | Capture(cp: Checkpoint) | SaveTick | Leave

  datatype HostStep =
    | Host(mapId: MapId, start: W.World) | Unhost(mapId: MapId)
    | BeginPromote(p: nat, mapId: MapId, cp: Checkpoint, target: nat, recent: bool)
    | InstallPromote(p: nat, start: W.World, now: nat)
    | RefreshCache(topology: Topology)

  datatype DrainStep = Lock | Flag | List(recent: bool) | Pick(mapId: MapId, recent: bool, again: bool, cp: Checkpoint) | Save | Unlock

  datatype Label =
    | ByWriter(w: nat, writer: WriterStep)
    | ByHost(host: HostStep)
    | ByDrain(drain: DrainStep)
    | Look(world: nat, user: string, now: nat, cell: Cell)   // whoever reads a world brings players back
    | OtherCommit(expected: nat, next: Topology, mig: Option<Migration>, term: nat)
    | OtherSave(n: NodeId, cp: Checkpoint, epoch: nat)

  function Init(id: NodeId): State {
    State(id, EMPTY_REDIS, None, false, [], map[], map[], map[], map[], Idle, None, map[], {}, false, false)
  }

  function WithWriter(s: State, w: nat, writer: Writer): (r: State)
    ensures r == s.(writers := r.writers)
  {
    s.(writers := s.writers[w := writer])
  }

  function Without(s: State, w: nat): (r: State)
    ensures r == s.(writers := r.writers)
  {
    s.(writers := s.writers - {w})
  }

  function NewWorld(s: State, m: MapId, start: W.World): State {
    s.(maps := s.maps[m := |s.worlds|], worlds := s.worlds + [start])
  }

  // What NewWorld returns for the map: its first spawns have raised the version.
  predicate Started(start: W.World, m: MapId) { start.cfg.id == m && start.version > 0 }

  function Fail(s: State): State { s.(stage := Idle, failed := true) }

  function OwnsAt(s: State, m: MapId, recent: bool): bool {
    recent && s.cache.Some? && Owns(s.cache.value, s.id, m, s.cache.value.EpochOf(m))
  }

  ghost function DoWriter(s: State, w: nat, step: WriterStep): State {
    match step
    case CopyMap(m) => if m in s.maps then s.(copies := s.copies[w := Held(m, s.maps[m])]) else s
    case EnterTick =>
      if s.stage.Idle? && w !in s.writers && w in s.copies then WithWriter(s, w, Entered(Some(s.copies[w]))) else s
    case Enter => if s.stage.Idle? && w !in s.writers then WithWriter(s, w, Entered(None)) else s
    case Leave => Without(s, w)
    case _ => if w in s.writers then Proceed(s, w, s.writers[w], step) else s
  }

  predicate HoldsWorld(s: State, held: Option<Held>, m: MapId) {
    held.Some? && held.value.mapId == m && held.value.world < |s.worlds|
  }

  // beginWrite, the guarded write, and the tick's capture and save; `at` is where the thread stands.
  ghost function Proceed(s: State, w: nat, at: Writer, step: WriterStep): State {
    match step
    case CheckDraining =>
      if !at.Entered? then s else if s.draining then Without(s, w) else WithWriter(s, w, Undrained(at.held))
    case CheckCache(m, epoch, recent) =>
      if !at.Undrained? then s
      else if OwnsAt(s, m, recent) && s.cache.value.EpochOf(m) == epoch then WithWriter(s, w, Cached(m, epoch, at.held))
      else Without(s, w)
    case CheckFence =>
      if !at.Cached? then s
      else if FenceHolds(s.redis, at.mapId, s.id, at.epoch) then WithWriter(s, w, Admitted(at.mapId, at.epoch, at.held))
      else Without(s, w)
    case LookUp => if at.Admitted? then DoLookUp(s, w, at.mapId, at.epoch, at.held) else s
    case Write(wstep) =>
      if at.Admitted? && HoldsWorld(s, at.held, at.mapId)
      then s.(worlds := Stepped(s.worlds, at.held.value.world, wstep)) else s
    case Capture(cp) =>
      if at.Admitted? && HoldsWorld(s, at.held, at.mapId) && Shows(s.worlds[at.held.value.world], s.id, at.epoch, cp)
      then WithWriter(s, w, Captured(at.mapId, at.epoch, cp, at.held)) else s
    case SaveTick => if at.Captured? then DoSaveTick(s, w, at.mapId, at.epoch, at.cp, at.held) else s
    case _ => s
  }

  function DoSaveTick(s: State, w: nat, m: MapId, epoch: nat, cp: Checkpoint, held: Option<Held>): State {
    WithWriter(s, w, Admitted(m, epoch, held)).(redis := AfterSave(s.redis, cp, s.id, epoch))
  }

  function DoLookUp(s: State, w: nat, m: MapId, epoch: nat, held: Option<Held>): State {
    if held.None? && m in s.maps then WithWriter(s, w, Admitted(m, epoch, Some(Held(m, s.maps[m])))) else s
  }

  ghost function Stepped(worlds: seq<W.World>, world: nat, step: W.Step): (r: seq<W.World>)
    requires world < |worlds|
    ensures |r| == |worlds|
  {
    worlds[world := W.Do(worlds[world], step)]
  }

  function DoHost(s: State, step: HostStep): State {
    match step
    case Host(m, start) => if m in s.maps || !Started(start, m) then s else NewWorld(s, m, start)
    case Unhost(m) => s.(maps := s.maps - {m})
    case BeginPromote(p, m, cp, target, recent) =>
      if !s.draining && p !in s.promoting && MayBeginPromote(s, m, cp, target, recent)
      then s.(promoting := s.promoting[p := Promised(m, cp)]) else s
    case InstallPromote(p, start, now) =>
      if p in s.promoting && start.cfg.id == s.promoting[p].mapId
      then NewWorld(s, s.promoting[p].mapId, C.Restored(start, s.promoting[p].cp, now)).(promoting := s.promoting - {p}) else s
    case RefreshCache(t) => s.(cache := Some(t))
  }

  predicate MayBeginPromote(s: State, m: MapId, cp: Checkpoint, target: nat, recent: bool) {
    recent && s.cache.Some? && MayPromote(s.cache.value, s.id, m, target) && PromotableCheckpoint(cp, m, target)
  }

  function OwnedMaps(s: State): set<MapId>
    requires s.cache.Some?
  {
    set m | m in s.cache.value.owners && OwnsAt(s, m, true)
  }

  ghost function DoDrain(s: State, step: DrainStep): State {
    match step
    case Lock => if s.stage.Idle? && s.writers == map[] then s.(stage := Locked) else s
    case Flag => if s.stage.Locked? then s.(stage := Flagged(!s.draining), draining := true) else s
    case List(recent) => if s.stage.Flagged? && s.stage.first then DoList(s, recent) else s
    case Pick(m, recent, again, cp) => if s.stage.Saving? && m in s.stage.todo then DoPick(s, m, Pickable(s, m, recent, again, cp)) else s
    case Save => if s.stage.SavingOne? then DoSave(s) else s
    case Unlock => if MayUnlock(s.stage) then s.(stage := Idle, passed := true) else s
  }

  function DoList(s: State, recent: bool): State {
    if !recent || s.cache.None? then Fail(s)
    else s.(stage := Saving(OwnedMaps(s)), listed := Some(OwnedMaps(s)))
  }

  predicate MayUnlock(stage: Stage) {
    (stage.Flagged? && !stage.first) || (stage.Saving? && stage.todo == {})
  }

  ghost function Do(s: State, l: Label): State {
    match l
    case ByWriter(w, step) => DoWriter(s, w, step)
    case ByHost(step) => DoHost(s, step)
    case ByDrain(step) => DoDrain(s, step)
    case Look(world, u, now, c) => if world < |s.worlds| then s.(worlds := Stepped(s.worlds, world, W.Refresh(u, now, c))) else s
    case OtherCommit(expected, next, mig, term) => s.(redis := AfterCas(s.redis, expected, next, mig, term))
    case OtherSave(n, cp, epoch) => if n == s.id then s else s.(redis := AfterSave(s.redis, cp, n, epoch))
  }

  // One turn of the loop up to the capture: Current, requireAuthority, the hosted world, and a checkpoint that
  // lists it (Waits: `cp` does not). The cache is fresh at Current if `recent`, at requireAuthority if `again`.
  datatype Picked = NotOwned | Refused | NotHosted | Waits | Captures(kept: Kept)

  ghost function Pickable(s: State, m: MapId, recent: bool, again: bool, cp: Checkpoint): Picked {
    if !OwnsAt(s, m, recent) then NotOwned
    else if !again || !FenceHolds(s.redis, m, s.id, s.cache.value.EpochOf(m)) then Refused
    else if m !in s.maps || s.maps[m] >= |s.worlds| then NotHosted
    else if !Shows(s.worlds[s.maps[m]], s.id, s.cache.value.EpochOf(m), cp) then Waits
    else Captures(Kept(s.cache.value.EpochOf(m), s.maps[m], s.worlds[s.maps[m]], cp))
  }

  function DoPick(s: State, m: MapId, p: Picked): State
    requires s.stage.Saving?
  {
    var rest := s.stage.todo - {m};
    if p.Waits? then s
    else
      s.(stage := if p.Refused? then Idle else if p.Captures? then SavingOne(rest, m, p.kept) else Saving(rest),
         skipped := if p.NotOwned? || p.NotHosted? then s.skipped + {m} else s.skipped,
         failed := s.failed || p.Refused?)
  }

  function DoSave(s: State): State
    requires s.stage.SavingOne?
  {
    var m, kept := s.stage.mapId, s.stage.kept;
    var ok := CheckpointAccepted(s.redis.fences, kept.cp, s.id, kept.epoch);
    s.(redis := AfterSave(s.redis, kept.cp, s.id, kept.epoch),
       stage := if ok then Saving(s.stage.todo) else Idle,
       saved := if ok then s.saved[m := kept] else s.saved,
       failed := s.failed || !ok)
  }

  ghost function Run(id: NodeId, labels: seq<Label>): State {
    if labels == [] then Init(id) else Do(Run(id, labels[..|labels| - 1]), labels[|labels| - 1])
  }
}
