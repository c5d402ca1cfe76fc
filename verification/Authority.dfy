/** A node's cached view of the committed topology, and the permissions it derives from it. */
module Authorities {
  import opened Text
  import opened Topologies
  import opened Stores

  // The node is the map's owner at that epoch, as far as the cached topology says.
  predicate Owns(t: Topology, nodeId: NodeId, m: MapId, epoch: nat) {
    t.OwnerOf(m) == nodeId && t.EpochOf(m) != 0 && t.EpochOf(m) == epoch
  }

  predicate MayPromote(t: Topology, nodeId: NodeId, m: MapId, target: nat) {
    t.OwnerOf(m) != "" && t.OwnerOf(m) != nodeId && t.EpochOf(m) != 0 && target == t.EpochOf(m) + 1
  }

  predicate PromotableCheckpoint(cp: Checkpoint, m: MapId, target: nat) {
    cp.mapId == m && cp.nodeId != "" && cp.version > 0 && cp.mapEpoch + 1 == target
  }

  datatype RefreshResult = Refreshed | Unavailable | Stale

  class AuthorityCache {
    const nodeId: NodeId
    const grace: nat
    var topology: Option<Topology>
    var loadedAt: nat

    constructor (nodeId: NodeId, grace: nat)
      ensures topology.None? && this.nodeId == nodeId && this.grace == grace
    {
      this.nodeId, this.grace, topology, loadedAt := nodeId, grace, None, 0;
    }

    predicate Fresh(now: nat)
      reads this
    {
      topology.Some? && loadedAt != 0 && now - loadedAt <= grace
    }

    // `loaded` is what LoadTopology returned, possibly long before this call.
    method Refresh(loaded: LoadResult, now: nat) returns (r: RefreshResult)
      modifies this
      ensures r.Unavailable? <==> !loaded.Found? || !Valid(loaded.topology, None)
      ensures r.Stale? <==> !r.Unavailable? && old(topology).Some? && loaded.topology.version < old(topology).value.version
      ensures topology == (if r.Refreshed? then Some(loaded.topology) else old(topology))
      ensures loadedAt == (if r.Refreshed? then now else old(loadedAt))
    {
      if !loaded.Found? { return Unavailable; }
      var valid := Validate(loaded.topology, None);
      if !valid { return Unavailable; }
      if topology.Some? && loaded.topology.version < topology.value.version { return Stale; }
      topology := Some(loaded.topology);
      loadedAt := now;
      return Refreshed;
    }

    method Require(m: MapId, epoch: nat, now: nat) returns (ok: bool)
      ensures ok <==> Fresh(now) && Owns(topology.value, nodeId, m, epoch)
    {
      if !Fresh(now) { return false; }
      var owner, current := topology.value.OwnerOf(m), topology.value.EpochOf(m);
      return !(owner != nodeId || current == 0 || current != epoch);
    }

    method Current(m: MapId, now: nat) returns (epoch: Option<nat>)
      ensures epoch.Some? <==> Fresh(now) && Owns(topology.value, nodeId, m, topology.value.EpochOf(m))
      ensures epoch.Some? ==> Owns(topology.value, nodeId, m, epoch.value)
    {
      if !Fresh(now) { return None; }
      var owner, current := topology.value.OwnerOf(m), topology.value.EpochOf(m);
      if owner != nodeId || current == 0 { return None; }
      return Some(current);
    }

    method RequirePromotionCandidate(m: MapId, target: nat, now: nat) returns (ok: bool)
      ensures ok <==> Fresh(now) && MayPromote(topology.value, nodeId, m, target)
      ensures ok ==>
                && m in topology.value.owners && topology.value.owners[m] != "" && topology.value.owners[m] != nodeId
                && m in topology.value.mapEpochs && 1 < target == topology.value.mapEpochs[m] + 1
    {
      if !Fresh(now) { return false; }
      var owner, current := topology.value.OwnerOf(m), topology.value.EpochOf(m);
      return !(owner == "" || owner == nodeId || current == 0 || target != current + 1);
    }

    // The node's maps in sorted order; a stale cache must not read as "nothing left".
    method OwnedMapIds(now: nat) returns (owned: Option<seq<MapId>>)
      ensures owned.Some? <==> Fresh(now)
      ensures owned.Some? ==> SortedBy(owned.value, Itself) && Distinct(owned.value, Itself)
      ensures owned.Some? ==> forall m :: m in owned.value <==>
          m in topology.value.owners && Owns(topology.value, nodeId, m, topology.value.EpochOf(m))
    {
      if !Fresh(now) { return None; }
      var t := topology.value;
      var ids := SortedMembers(set m | m in t.owners && t.owners[m] == nodeId && t.EpochOf(m) > 0);
      return Some(ids);
    }
  }
}
