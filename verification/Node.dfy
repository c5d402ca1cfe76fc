/** A node's guarded writes, its promotion, and the final save of a drain, as one thread runs them. */
module Nodes {
  import opened Text
  import opened Topologies
  import opened Stores
  import opened Authorities
  import opened WorldData
  import opened WorldEngine
  import W = Worlds
  import C = WorldCheckpoint
  import R = WorldRounds

  // Between the two only respawns of due players have happened.
  ghost predicate RespawnedSince(w: W.World, v: W.World) {
    exists steps: seq<W.Step> :: OnlyRespawns(steps) && v == W.Run(w, steps)
  }

  predicate OnlyRespawns(steps: seq<W.Step>) {
    forall s | s in steps :: s.Refresh?
  }

  lemma RespawnedByRefresh(w: W.World, steps: seq<W.Step>, now: nat)
    requires R.IsRefresh(w, steps, now)
    ensures RespawnedSince(w, W.Run(w, steps))
  {
    hide W.Do;
  }

  lemma NotYetRespawned(w: W.World)
    ensures RespawnedSince(w, w)
  {
    assert W.Run(w, []) == w;
  }

  lemma RoundKeepsKeyed(w: W.World, r: R.Round, now: nat)
    requires C.Keyed(w) && R.IsRound(w, r, now)
    ensures C.Keyed(R.AfterRound(w, r))
  {
    hide C.Keyed, R.IsRound, R.AfterRound, R.StepsOf, W.Run;
    R.RoundIsARun(w, r, now);
    C.RunKeepsKeyed(w, R.StepsOf(r));
  }

  // The checkpoint lists the world with nobody due, in the node's name and at that epoch.
  ghost predicate Shows(w: W.World, nodeId: NodeId, epoch: nat, cp: Checkpoint) {
    cp.nodeId == nodeId && cp.mapEpoch == epoch && exists taken: nat :: IsShot(w, taken, cp)
  }

  ghost predicate IsShot(w: W.World, taken: nat, cp: Checkpoint) {
    R.NobodyDue(w, taken) && C.IsCapture(w, taken, cp)
  }

  datatype Readings = Readings(current: nat, require: nat)
  datatype TurnEnd = PassedBy | Stops | Stores

  // World m is captured and stored, and nothing else happens.
  ghost predicate SavedWorld(m: MapId, was: map<MapId, W.World>, hosted: map<MapId, W.World>, before: map<MapId, Doc<Checkpoint>>,
                             after: map<MapId, Doc<Checkpoint>>, id: NodeId, epoch: nat) {
    && m in was && m in hosted && hosted == was[m := hosted[m]] && RespawnedSince(was[m], hosted[m])
    && m in after && after == before[m := after[m]] && after[m].Json? && Shows(hosted[m], id, epoch, after[m].value)
  }

  // The hosted worlds of `done` are captured and stored, each at its epoch, and nothing else happens.
  ghost predicate SavedWorlds(done: set<MapId>, was: map<MapId, W.World>, hosted: map<MapId, W.World>, before: map<MapId, Doc<Checkpoint>>,
                              after: map<MapId, Doc<Checkpoint>>, id: NodeId, t: Option<Topology>) {
    && hosted.Keys == was.Keys
    && (forall m | m in hosted :: if m in done then RespawnedSince(was[m], hosted[m]) else hosted[m] == was[m])
    && (forall m | m in done && m in hosted ::
          t.Some? && m in after && after[m].Json? && Shows(hosted[m], id, t.value.EpochOf(m), after[m].value))
    && (forall m | m !in done || m !in hosted :: m in after <==> m in before)
    && (forall m | m in after && (m !in done || m !in hosted) :: after[m] == before[m])
  }

  lemma ListedOnce(ids: seq<MapId>, i: nat)
    requires Distinct(ids, Itself) && i < |ids|
    ensures ids[i] !in ids[..i]
  {
  }

  lemma NothingSaved(hosted: map<MapId, W.World>, checkpoints: map<MapId, Doc<Checkpoint>>, id: NodeId, t: Option<Topology>)
    ensures SavedWorlds({}, hosted, hosted, checkpoints, checkpoints, id, t)
  {
  }

  lemma OneMoreSaved(done: set<MapId>, m: MapId, was: map<MapId, W.World>, mid: map<MapId, W.World>, hosted: map<MapId, W.World>,
                     before: map<MapId, Doc<Checkpoint>>, stored: map<MapId, Doc<Checkpoint>>, after: map<MapId, Doc<Checkpoint>>,
                     id: NodeId, t: Option<Topology>)
    requires SavedWorlds(done, was, mid, before, stored, id, t) && m !in done && t.Some?
    requires if m in mid then SavedWorld(m, mid, hosted, stored, after, id, t.value.EpochOf(m)) else hosted == mid && after == stored
    ensures SavedWorlds(done + {m}, was, hosted, before, after, id, t)
  {
    hide RespawnedSince, Shows;
  }

  class NodeService {
    const id: NodeId
    const candidateMapId: MapId
    const authority: AuthorityCache
    const store: Store
    var draining: bool
    var readers: nat        // read holders of drainMu
    var maps: map<MapId, Engine>

    ghost predicate Valid()
      reads this, maps.Values
    {
      authority.nodeId == id && WorldsOk()
    }

    ghost predicate WorldsOk()
      reads this`maps, maps.Values
    {
      forall m | m in maps :: maps[m].cfg.id == m && C.Keyed(maps[m].State())
    }

    constructor (id: NodeId, candidateMapId: MapId, authority: AuthorityCache, store: Store)
      requires authority.nodeId == id
      ensures Valid() && maps == map[] && !draining && readers == 0
      ensures this.id == id && this.authority == authority && this.store == store
    {
      this.id, this.candidateMapId, this.authority, this.store := id, candidateMapId, authority, store;
      draining, readers, maps := false, 0, map[];
    }

    ghost predicate MayWrite(m: MapId, epoch: nat, now: nat)
      reads this, authority, store
    {
      authority.Fresh(now) && Owns(authority.topology.value, authority.nodeId, m, epoch)
      && FenceHolds(store.State(), m, id, epoch)
    }

    method RequireAuthority(m: MapId, epoch: nat, now: nat) returns (ok: bool)
      ensures ok <==> MayWrite(m, epoch, now)
    {
      ok := authority.Require(m, epoch, now);
      if ok { ok := store.RequireMapFence(m, id, epoch); }
    }

    // Takes the read side of drainMu, and keeps it only for an admitted write.
    method BeginWrite(m: MapId, epoch: nat, now: nat) returns (admitted: bool)
      modifies this`readers
      ensures admitted <==> !draining && MayWrite(m, epoch, now)
      ensures readers == old(readers) + if admitted then 1 else 0
    {
      readers := readers + 1;
      if draining {
        readers := readers - 1;
        return false;
      }
      admitted := RequireAuthority(m, epoch, now);
      if !admitted { readers := readers - 1; }
    }

    // Prepares the world of the next epoch from the checkpoint; the write permission comes only with the committed
    // topology. A world hosted before is replaced, and lives on with whoever still holds it. The restore leaves
    // nothing of the NPCs and treasures that a new world starts with.
    method Promote(m: MapId, cfg: W.Config, layout: Grid, cp: Checkpoint, target: nat, now: nat, later: nat)
      returns (accepted: bool)
      requires Valid() && cfg.id == m
      modifies this`maps
      ensures Valid()
      ensures accepted <==>
                && !draining && (candidateMapId == "" || m == candidateMapId)
                && authority.Fresh(now) && MayPromote(authority.topology.value, id, m, target)
                && PromotableCheckpoint(cp, m, target)
      ensures accepted ==>
                && m in authority.topology.value.owners && authority.topology.value.owners[m] != id
                && m in authority.topology.value.mapEpochs && 1 < target == authority.topology.value.mapEpochs[m] + 1
                && cp.mapId == m && cp.mapEpoch + 1 == target && cp.nodeId != "" && cp.version > 0
      ensures !accepted ==> maps == old(maps)
      ensures accepted ==> m in maps && maps == old(maps)[m := maps[m]]
      ensures accepted ==> fresh(maps[m]) && maps[m].State() == C.Restored(W.EmptyWorld(cfg, layout), cp, later)
    {
      if draining { return false; }
      if candidateMapId != "" && m != candidateMapId { return false; }
      var candidate := authority.RequirePromotionCandidate(m, target, now);
      if !candidate { return false; }
      if cp.mapId != m || cp.nodeId == "" || cp.version <= 0 || cp.mapEpoch != target - 1 { return false; }
      var world := new Engine(cfg, layout);
      world.RestoreCheckpoint(cp, later);
      C.RestoredIsKeyed(W.EmptyWorld(cfg, layout), cp, later);
      maps := maps[m := world];
      return true;
    }

    // Refreshes of the cache and other processes' writes, while this thread is between two calls.
    method Interference()
      modifies authority, store
    {
    }

    // One map's share of a tick, on the world copied from `maps` before. The fence is checked before the world
    // changes and again before the events and the checkpoint go out; a commit in between leaves the round in this
    // node's memory only.
    method TickMap(m: MapId, world: Engine, now: nat, tick: nat, later: nat, taken: nat)
      returns (wrote: bool, published: bool, ghost epoch: nat, ghost seen: Redis, ghost round: R.Round, ghost cp: Option<Checkpoint>)
      requires Valid() && world.cfg.id == m && C.Keyed(world.State())
      modifies this`readers, world, authority, store
      ensures Valid() && C.Keyed(world.State()) && readers == old(readers) && epoch == old(CachedEpoch(m))
      ensures wrote <==> !draining && old(MayWrite(m, epoch, now))
      ensures !wrote ==> world.State() == old(world.State()) && store.State() == old(store.State())
      ensures wrote ==> R.IsRound(old(world.State()), round, tick)
      ensures wrote && !published ==> world.State() == R.AfterRound(old(world.State()), round) && store.State() == seen
      ensures published <==> wrote && authority.Fresh(later) && Owns(authority.topology.value, id, m, epoch)
                             && FenceHolds(seen, m, id, epoch)
      ensures published ==>
                && RespawnedSince(R.AfterRound(old(world.State()), round), world.State())
                && cp.Some? && Shows(world.State(), id, epoch, cp.value)
                && store.State() == AfterSave(seen, cp.value, id, epoch)
                && m in store.checkpoints && store.checkpoints[m] == Json(cp.value)
    {
      hide WorldsOk, C.Keyed, RespawnedSince, Shows, R.IsRound, R.AfterRound;
      wrote, published, epoch, seen, cp := false, false, CachedEpoch(m), store.State(), None;
      round := R.Round([], [], None, []);
      var current := authority.Current(m, now);
      if current.None? { return; }
      var admitted := BeginWrite(m, current.value, now);
      if !admitted { return; }
      wrote := true;
      round := RunRound(world, tick);
      Interference();
      seen := store.State();
      published := RequireAuthority(m, current.value, later);
      if published {
        var shot := CaptureAndStore(world, current.value, taken);
        cp := Some(shot);
      }
      readers := readers - 1;
    }

    method RunRound(world: Engine, tick: nat) returns (ghost round: R.Round)
      requires Valid() && C.Keyed(world.State())
      modifies world
      ensures Valid() && C.Keyed(world.State())
      ensures R.IsRound(old(world.State()), round, tick) && world.State() == R.AfterRound(old(world.State()), round)
    {
      round := world.BackgroundStep(tick);
      RoundKeepsKeyed(old(world.State()), round, tick);
    }

    method CaptureAndStore(world: Engine, epoch: nat, taken: nat) returns (cp: Checkpoint)
      requires Valid() && C.Keyed(world.State()) && FenceHolds(store.State(), world.cfg.id, id, epoch)
      modifies world, store`checkpoints
      ensures Valid() && C.Keyed(world.State()) && RespawnedSince(old(world.State()), world.State())
      ensures cp.mapId == world.cfg.id && Shows(world.State(), id, epoch, cp)
      ensures store.State() == AfterSave(old(store.State()), cp, id, epoch)
      ensures cp.mapId in store.checkpoints && store.checkpoints == old(store.checkpoints)[cp.mapId := Json(cp)]
    {
      hide C.Keyed, RespawnedSince, IsShot;
      cp := CaptureAt(world, epoch, taken);
      var saved := store.SaveCheckpointIfOwner(cp, id, epoch);
    }

    // The capture with the epoch set.
    method CaptureAt(world: Engine, epoch: nat, taken: nat) returns (cp: Checkpoint)
      requires C.Keyed(world.State())
      modifies world`players, world`version
      ensures C.Keyed(world.State()) && RespawnedSince(old(world.State()), world.State())
      ensures cp.mapId == world.cfg.id && Shows(world.State(), id, epoch, cp)
    {
      ghost var steps;
      cp, steps := world.CaptureCheckpoint(id, taken);
      RespawnedByRefresh(old(world.State()), steps, taken);
      C.RunKeepsKeyed(old(world.State()), steps);
      assert C.IsCapture(world.State(), taken, cp.(mapEpoch := epoch));
      cp := cp.(mapEpoch := epoch);
      assert IsShot(world.State(), taken, cp);
    }

    ghost function CachedEpoch(m: MapId): nat
      reads authority
    {
      if authority.topology.Some? then authority.topology.value.EpochOf(m) else 0
    }

    ghost predicate OwnsNow(m: MapId)
      reads authority
    {
      authority.topology.Some? && m in authority.topology.value.owners
      && Owns(authority.topology.value, id, m, authority.topology.value.EpochOf(m))
    }

    // The hosted worlds as they stand.
    ghost function Hosted(): map<MapId, W.World>
      reads this, maps.Values
    {
      map m | m in maps :: maps[m].State()
    }

    // How a map's turn of the final save ends, given the clock readings of Current and of requireAuthority.
    ghost function EndOfTurn(m: MapId, r: Readings): TurnEnd
      reads this`maps, authority, store`fences
    {
      if !authority.Fresh(r.current) || !OwnsNow(m) then PassedBy
      else if !authority.Fresh(r.require) || !Fenced(store.fences, m, id, authority.topology.value.EpochOf(m)) then Stops
      else if m !in maps then PassedBy
      else Stores
    }

    // Every owned map gets its turn until one is refused. The maps whose turn ends in Stores are stored as they stand;
    // no other checkpoint is touched, and to the worlds it only brings players due back. A map whose turn finds the
    // cache stale is passed by without an error, although the list was fresh.
    method SaveFinalCheckpoints() returns (ok: bool, ghost listed: nat, ghost turns: map<MapId, Readings>, ghost done: set<MapId>)
      requires Valid()
      modifies store`checkpoints, maps.Values
      ensures Valid()
      ensures forall m | m in turns :: OwnsNow(m)
      ensures ok <==> authority.Fresh(listed) && forall m | OwnsNow(m) :: m in turns && !EndOfTurn(m, turns[m]).Stops?
      ensures StoredInTurn(turns, done)
      ensures SavedWorlds(done, old(Hosted()), Hosted(), old(store.checkpoints), store.checkpoints, id, authority.topology)
    {
      hide WorldsOk, Hosted, SavedWorlds, SortedBy, EndOfTurn;
      turns, done := map[], {};
      NothingSaved(Hosted(), store.checkpoints, id, authority.topology);
      var now := Now();
      listed := now;
      var owned := authority.OwnedMapIds(now);
      if owned.None? { return false, listed, turns, done; }
      assert forall m :: m in owned.value <==> OwnsNow(m);
      ok, turns, done := SaveInTurn(owned.value);
    }

    method SaveInTurn(ids: seq<MapId>) returns (ok: bool, ghost turns: map<MapId, Readings>, ghost done: set<MapId>)
      requires Valid() && Distinct(ids, Itself) && forall m | m in ids :: OwnsNow(m)
      modifies store`checkpoints, maps.Values
      ensures Valid()
      ensures forall m | m in turns :: m in ids
      ensures ok <==> forall m | m in ids :: m in turns && !EndOfTurn(m, turns[m]).Stops?
      ensures StoredInTurn(turns, done)
      ensures SavedWorlds(done, old(Hosted()), Hosted(), old(store.checkpoints), store.checkpoints, id, authority.topology)
    {
      hide WorldsOk, Hosted, SavedWorlds, SavedWorld, Distinct, EndOfTurn;
      turns, done := map[], {};
      NothingSaved(Hosted(), store.checkpoints, id, authority.topology);
      for i := 0 to |ids|
        invariant Valid() && turns.Keys == (set m | m in ids[..i]) && StoredInTurn(turns, done)
        invariant forall m | m in turns :: !EndOfTurn(m, turns[m]).Stops?
        invariant SavedWorlds(done, old(Hosted()), Hosted(), old(store.checkpoints), store.checkpoints, id, authority.topology)
      {
        var m := ids[i];
        assert m in ids && OwnsNow(m) && ids[..i + 1] == ids[..i] + [m];
        ListedOnce(ids, i);
        ghost var mid, stored := Hosted(), store.checkpoints;
        var saved;
        ghost var r;
        saved, r := SaveFinal(m);
        turns := turns[m := r];
        if !saved {
          assert turns[m] == r && EndOfTurn(m, r).Stops?;
          return false, turns, done;
        }
        if EndOfTurn(m, r).Stores? {
          OneMoreSaved(done, m, old(Hosted()), mid, Hosted(), old(store.checkpoints), stored, store.checkpoints, id, authority.topology);
          done := done + {m};
        }
      }
      return true, turns, done;
    }

    ghost predicate StoredInTurn(turns: map<MapId, Readings>, done: set<MapId>)
      reads this`maps, authority, store`fences
    {
      forall m :: m in done <==> m in turns && EndOfTurn(m, turns[m]).Stores?
    }

    // One turn of that loop.
    method SaveFinal(m: MapId) returns (ok: bool, ghost r: Readings)
      requires Valid() && OwnsNow(m)
      modifies store`checkpoints, maps.Values
      ensures Valid()
      ensures ok <==> !EndOfTurn(m, r).Stops?
      ensures if EndOfTurn(m, r).Stores?
              then m in old(Hosted())
                   && SavedWorld(m, old(Hosted()), Hosted(), old(store.checkpoints), store.checkpoints, id, authority.topology.value.EpochOf(m))
              else Hosted() == old(Hosted()) && store.checkpoints == old(store.checkpoints)
    {
      hide C.Keyed, WorldsOk, Hosted, SavedWorld;
      var now := Now();
      r := Readings(now, now);
      var epoch := authority.Current(m, now);
      if epoch.None? { return true, r; }
      now := Now();
      r := r.(require := now);
      var may := RequireAuthority(m, epoch.value, now);
      if !may { return false, r; }
      if m !in maps { return true, r; }
      StoreHosted(m, epoch.value);
      return true, r;
    }

    method StoreHosted(m: MapId, epoch: nat)
      requires Valid() && m in maps && Fenced(store.fences, m, id, epoch)
      modifies store`checkpoints, maps.Values
      ensures Valid() && m in old(Hosted())
      ensures SavedWorld(m, old(Hosted()), Hosted(), old(store.checkpoints), store.checkpoints, id, epoch)
    {
      hide C.Keyed, RespawnedSince, Shows;
      var taken := Now();
      var cp := CaptureAndStore(maps[m], epoch, taken);
      assert Hosted() == old(Hosted())[m := maps[m].State()];
    }

    // The part of BeginDrain under drainMu, which waits until no guarded write is in progress. Only the first call
    // saves; it is flagged before it knows whether the save succeeds.
    method FlagAndSave() returns (ok: bool, ghost listed: nat, ghost turns: map<MapId, Readings>, ghost done: set<MapId>)
      requires Valid() && readers == 0
      modifies this`draining, store`checkpoints, maps.Values
      ensures Valid() && draining
      ensures old(draining) ==> ok && store.State() == old(store.State()) && Hosted() == old(Hosted())
      ensures !old(draining) ==>
        && (ok <==> authority.Fresh(listed) && forall m | OwnsNow(m) :: m in turns && !EndOfTurn(m, turns[m]).Stops?)
        && StoredInTurn(turns, done)
        && SavedWorlds(done, old(Hosted()), Hosted(), old(store.checkpoints), store.checkpoints, id, authority.topology)
    {
      hide C.Keyed, SavedWorlds, EndOfTurn;
      var already := draining;
      draining := true;
      assert Hosted() == old(Hosted());
      ok, listed, turns, done := true, 0, map[], {};
      if !already { ok, listed, turns, done := SaveFinalCheckpoints(); }
    }

    // The exit condition BeginDrain then polls for: no map of the cached topology is this node's any more.
    method Drained(now: nat) returns (drained: Option<bool>)
      ensures drained.None? <==> !authority.Fresh(now)
      ensures drained == Some(true) ==> forall m | m in authority.topology.value.owners ::
                !Owns(authority.topology.value, authority.nodeId, m, authority.topology.value.EpochOf(m))
      ensures drained == Some(false) ==> exists m ::
                m in authority.topology.value.owners && Owns(authority.topology.value, authority.nodeId, m, authority.topology.value.EpochOf(m))
    {
      var owned := authority.OwnedMapIds(now);
      if owned.None? { return None; }
      assert owned.value == [] || owned.value[0] in owned.value;
      return Some(|owned.value| == 0);
    }
  }
}
