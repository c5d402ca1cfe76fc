/** The versioned routing topology, its structural check, and the construction of the first one. */
module Topologies {
  import opened Text

  type MapId = string
  type NodeId = string

  // updatedAt == 0 stands for the zero time.
  datatype Topology = Topology(
    version: nat,
    leaderTerm: nat,
    owners: map<MapId, NodeId>,
    mapEpochs: map<MapId, nat>,
    updatedAt: nat)
  {
    // Reading a missing key of a Go map yields the zero value.
    function OwnerOf(m: MapId): NodeId { if m in owners then owners[m] else "" }
    function EpochOf(m: MapId): nat { if m in mapEpochs then mapEpochs[m] else 0 }
  }

  ghost predicate ValidMap(t: Topology, m: MapId, known: Option<set<MapId>>) {
    && Legal(m)
    && (known.Some? ==> m in known.value)
    && (t.OwnerOf(m) != "" ==> Legal(t.OwnerOf(m)))
    && t.EpochOf(m) > 0
  }

  ghost predicate Valid(t: Topology, known: Option<set<MapId>>) {
    && t.version > 0
    && t.updatedAt != 0
    && forall m | m in t.owners.Keys + t.mapEpochs.Keys :: ValidMap(t, m, known)
  }

  method Validate(t: Topology, known: Option<set<MapId>>) returns (ok: bool)
    ensures ok <==> Valid(t, known)
  {
    if t.version == 0 || t.updatedAt == 0 { return false; }
    var todo := t.owners.Keys + t.mapEpochs.Keys;
    while todo != {}
      invariant todo <= t.owners.Keys + t.mapEpochs.Keys
      invariant forall m | m in t.owners.Keys + t.mapEpochs.Keys - todo :: ValidMap(t, m, known)
      decreases todo
    {
      var m :| m in todo;
      if !IsTrimmed(m) { return false; }
      if known.Some? && m !in known.value { return false; }
      if m in t.owners {
        var owner := t.owners[m];
        if owner != "" && !IsTrimmed(owner) { return false; }
      }
      if m !in t.mapEpochs || t.mapEpochs[m] == 0 { return false; }
      todo := todo - {m};
    }
    return true;
  }

  // Field by field: when a topology is accepted.
  lemma ValidIff(t: Topology, known: Option<set<MapId>>)
    ensures Valid(t, known) <==>
              && t.version > 0 && t.updatedAt > 0 && t.owners.Keys <= t.mapEpochs.Keys
              && (forall m | m in t.mapEpochs :: TrimSpace(m) == m != "" && t.mapEpochs[m] > 0)
              && (forall m | m in t.owners :: t.owners[m] == "" || TrimSpace(t.owners[m]) == t.owners[m])
              && (known.Some? ==> t.mapEpochs.Keys <= known.value)
  {
    forall s: string ensures (TrimSpace(s) == s != "") <==> Legal(s) { assert IsTrimmed(s) <==> Legal(s); }
    hide TrimSpace, Legal;
    if Valid(t, known) {
      forall m | m in t.owners ensures ValidMap(t, m, known) { assert m in t.owners.Keys + t.mapEpochs.Keys; }
      forall m | m in t.mapEpochs ensures ValidMap(t, m, known) { assert m in t.owners.Keys + t.mapEpochs.Keys; }
    }
  }

  // ---- the first topology ----

  const MINIMUM_MAP_CANDIDATES := 2

  datatype Registration = Registration(id: NodeId, addr: string, mapId: MapId, draining: bool)

  datatype BuildResult = BuildError | NotReady | Ready(topology: Topology)

  ghost predicate LegalRegistration(r: Registration, known: set<MapId>) {
    Legal(r.id) && Legal(r.addr) && Legal(r.mapId) && r.mapId in known
  }

  ghost predicate DistinctIds(nodes: seq<Registration>) {
    forall i, j | 0 <= i < j < |nodes| :: nodes[i].id != nodes[j].id
  }

  ghost function Candidates(nodes: seq<Registration>, m: MapId): set<NodeId> {
    set r | r in nodes && r.mapId == m :: r.id
  }

  ghost predicate IsLeast(id: NodeId, ids: set<NodeId>) {
    id in ids && forall other | other in ids :: Le(id, other)
  }

  ghost predicate EnoughCandidates(known: set<MapId>, nodes: seq<Registration>) {
    forall m | m in known :: |Candidates(nodes, m)| >= MINIMUM_MAP_CANDIDATES
  }

  ghost predicate WellRegistered(known: set<MapId>, nodes: seq<Registration>) {
    known != {} && DistinctIds(nodes) && forall r | r in nodes :: LegalRegistration(r, known)
  }

  // What BuildInitialTopology promises, independent of the order of the registrations.
  ghost predicate BuildOutcome(known: set<MapId>, nodes: seq<Registration>, now: nat, r: BuildResult) {
    var ready := WellRegistered(known, nodes) && EnoughCandidates(known, nodes);
    && (r.Ready? <==> ready && now != 0)
    && (r.NotReady? <==> WellRegistered(known, nodes) && !EnoughCandidates(known, nodes))
    && (r.Ready? ==>
          var t := r.topology;
          && t.version == 1 && t.leaderTerm == 0 && t.updatedAt == now
          && t.owners.Keys == t.mapEpochs.Keys == known
          && forall m | m in known :: t.mapEpochs[m] == 1 && IsLeast(t.owners[m], Candidates(nodes, m)))
  }

  method BuildInitialTopology(known: set<MapId>, registrations: seq<Registration>, now: nat)
    returns (r: BuildResult)
    ensures BuildOutcome(known, registrations, now, r)
    ensures r.Ready? ==> Valid(r.topology, Some(known))
  {
    if known == {} { return BuildError; }
    var nodes := Sort(registrations, (n: Registration) => n.id);
    SortSorts(registrations, (n: Registration) => n.id);
    OrderFree(nodes, registrations);
    var candidates := CollectCandidates(known, nodes);
    if candidates.None? { return BuildError; }
    r := ElectOwners(known, nodes, candidates.value, now);
  }

  method CollectCandidates(known: set<MapId>, nodes: seq<Registration>)
    returns (r: Option<map<MapId, seq<NodeId>>>)
    requires known != {}
    ensures r.Some? <==> WellRegistered(known, nodes)
    ensures r.Some? ==> AllListed(r.value, known, nodes)
  {
    hide WellRegistered, Listing;
    var candidates: map<MapId, seq<NodeId>> := map m | m in known :: [];
    NothingListed(known);
    assert nodes[..0] == [];
    var seen: set<NodeId> := {};
    for i := 0 to |nodes|
      invariant seen == Ids(nodes[..i])
      invariant WellRegistered(known, nodes[..i])
      invariant AllListed(candidates, known, nodes[..i])
    {
      var node := nodes[i];
      var legal := IsTrimmed(node.id) && IsTrimmed(node.addr);
      var duplicate := node.id in seen;
      var knownMap := IsTrimmed(node.mapId) && node.mapId in known;
      WellRegisteredSoFar(known, nodes, i);
      if !legal || duplicate || !knownMap { return None; }
      AllListedExtended(candidates, known, nodes[..i], node);
      assert nodes[..i + 1] == nodes[..i] + [node];
      seen := seen + {node.id};
      candidates := candidates[node.mapId := candidates[node.mapId] + [node.id]];
    }
    assert nodes[..|nodes|] == nodes;
    return Some(candidates);
  }

  method ElectOwners(known: set<MapId>, nodes: seq<Registration>, candidates: map<MapId, seq<NodeId>>, now: nat)
    returns (r: BuildResult)
    requires WellRegistered(known, nodes) && AllListed(candidates, known, nodes)
    ensures BuildOutcome(known, nodes, now, r)
    ensures r.Ready? ==> Valid(r.topology, Some(known))
  {
    hide WellRegistered, LegalRegistration;
    var owners: map<MapId, NodeId>, epochs: map<MapId, nat> := map[], map[];
    var todo := known;
    while todo != {}
      invariant todo <= known && owners.Keys == epochs.Keys == known - todo
      invariant forall m | m in owners :: epochs[m] == 1 && Elected(owners[m], nodes, m)
      decreases todo
    {
      var m :| m in todo;
      var declared := candidates[m];
      if |declared| < MINIMUM_MAP_CANDIDATES { return NotReady; }
      FirstOfSortedIsLeast(known, declared, nodes, m);
      declared := Sort(declared, (s: string) => s);
      owners := owners[m := declared[0]];
      epochs := epochs[m := 1];
      todo := todo - {m};
    }
    var topology := Topology(1, 0, owners, epochs, now);
    ElectedIsValid(topology, known, nodes);
    var ok := Validate(topology, Some(known));
    return if ok then Ready(topology) else BuildError;
  }

  ghost predicate Elected(owner: NodeId, nodes: seq<Registration>, m: MapId) {
    && |Candidates(nodes, m)| >= MINIMUM_MAP_CANDIDATES
    && IsLeast(owner, Candidates(nodes, m))
    && Legal(m) && Legal(owner)
  }

  lemma ElectedIsValid(t: Topology, known: set<MapId>, nodes: seq<Registration>)
    requires t.version == 1 && t.owners.Keys == t.mapEpochs.Keys == known
    requires forall m | m in known :: t.mapEpochs[m] == 1 && Elected(t.owners[m], nodes, m)
    ensures Valid(t, Some(known)) <==> t.updatedAt != 0
    ensures EnoughCandidates(known, nodes)
  {
    forall m | m in known ensures ValidMap(t, m, Some(known)) { assert Elected(t.owners[m], nodes, m); }
  }

  // `ids` lists each candidate of m once.
  ghost predicate Listing(ids: seq<NodeId>, nodes: seq<Registration>, m: MapId) {
    && (forall id :: id in ids <==> id in Candidates(nodes, m))
    && |ids| == |Candidates(nodes, m)|
  }

  lemma ListingExtended(ids: seq<NodeId>, nodes: seq<Registration>, node: Registration, m: MapId)
    requires Listing(ids, nodes, m) && node.id !in Ids(nodes)
    ensures Listing(if m == node.mapId then ids + [node.id] else ids, nodes + [node], m)
  {
    var before, after := Candidates(nodes, m), Candidates(nodes + [node], m);
    forall id | id in before ensures id in after {
      var r :| r in nodes && r.mapId == m && r.id == id;
      assert r in nodes + [node];
    }
    assert node in nodes + [node];
    if m == node.mapId {
      assert node.id !in before;
      assert after == before + {node.id};
    } else {
      assert after == before;
    }
  }

  ghost predicate AllListed(candidates: map<MapId, seq<NodeId>>, known: set<MapId>, nodes: seq<Registration>) {
    candidates.Keys == known && forall m | m in known :: Listing(candidates[m], nodes, m)
  }

  lemma NothingListed(known: set<MapId>)
    requires known != {}
    ensures WellRegistered(known, [])
    ensures AllListed(map m | m in known :: [], known, [])
  {
  }

  lemma AllListedExtended(candidates: map<MapId, seq<NodeId>>, known: set<MapId>, nodes: seq<Registration>, node: Registration)
    requires AllListed(candidates, known, nodes) && node.id !in Ids(nodes) && node.mapId in known
    ensures AllListed(candidates[node.mapId := candidates[node.mapId] + [node.id]], known, nodes + [node])
  {
    forall m | m in known { ListingExtended(candidates[m], nodes, node, m); }
  }

  // The prefix read so far stays well registered exactly when the next registration passes the checks.
  lemma WellRegisteredSoFar(known: set<MapId>, nodes: seq<Registration>, i: nat)
    requires i < |nodes| && WellRegistered(known, nodes[..i])
    ensures WellRegistered(known, nodes[..i + 1]) <==> LegalRegistration(nodes[i], known) && nodes[i].id !in Ids(nodes[..i])
    ensures WellRegistered(known, nodes) ==> WellRegistered(known, nodes[..i + 1])
  {
    var before, upTo := nodes[..i], nodes[..i + 1];
    assert upTo == before + [nodes[i]];
    assert forall r :: r in upTo <==> r in before || r == nodes[i];
    DistinctSnoc(before, nodes[i]);
  }

  lemma DistinctSnoc(nodes: seq<Registration>, last: Registration)
    requires DistinctIds(nodes)
    ensures DistinctIds(nodes + [last]) <==> last.id !in Ids(nodes)
  {
    var all := nodes + [last];
    if last.id in Ids(nodes) {
      var r :| r in nodes && r.id == last.id;
      var k :| 0 <= k < |nodes| && nodes[k] == r;
      assert all[k].id == all[|nodes|].id;
    } else {
      forall i, j | 0 <= i < j < |all| ensures all[i].id != all[j].id {
        assert all[i] in nodes;
      }
    }
  }

  lemma FirstOfSortedIsLeast(known: set<MapId>, ids: seq<NodeId>, nodes: seq<Registration>, m: MapId)
    requires Listing(ids, nodes, m) && |ids| >= MINIMUM_MAP_CANDIDATES
    requires WellRegistered(known, nodes)
    ensures var sorted := Sort(ids, (s: string) => s);
            sorted != [] && Elected(sorted[0], nodes, m)
  {
    var key := (s: string) => s;
    var sorted := Sort(ids, key);
    SortSorts(ids, key);
    SameMembers(sorted, ids);
    assert sorted[0] in ids;
    forall other | other in Candidates(nodes, m) ensures Le(sorted[0], other) {
      assert other in sorted;
      var k :| 0 <= k < |sorted| && sorted[k] == other;
      LeTotal(other, other);
      if k > 0 { assert Le(key(sorted[0]), key(sorted[k])); }
    }
  }

  // Which registrations are an error, and which are only too few.
  lemma BuildFailsOn(known: set<MapId>, nodes: seq<Registration>, now: nat, r: BuildResult)
    requires BuildOutcome(known, nodes, now, r) && now != 0
    ensures r.BuildError? <==>
              || known == {}
              || (exists i, j :: 0 <= i < j < |nodes| && nodes[i].id == nodes[j].id)
              || (exists n :: n in nodes && !(n.mapId in known && TrimSpace(n.id) == n.id != "" && TrimSpace(n.addr) == n.addr != ""
                                            && TrimSpace(n.mapId) == n.mapId != ""))
    ensures r.NotReady? ==> exists m :: m in known && |set n | n in nodes && n.mapId == m :: n.id| < 2
  {
    forall s: string ensures (TrimSpace(s) == s != "") <==> Legal(s) { assert IsTrimmed(s) <==> Legal(s); }
    hide TrimSpace, Legal;
    if r.NotReady? {
      var m :| m in known && |Candidates(nodes, m)| < MINIMUM_MAP_CANDIDATES;
      assert Candidates(nodes, m) == set n | n in nodes && n.mapId == m :: n.id;
    }
  }

  // ---- order of registrations is irrelevant ----

  ghost function Ids(nodes: seq<Registration>): set<NodeId> {
    set r | r in nodes :: r.id
  }

  lemma DistinctCons(head: Registration, tail: seq<Registration>)
    ensures DistinctIds([head] + tail) <==> DistinctIds(tail) && head.id !in Ids(tail)
  {
    var nodes := [head] + tail;
    if DistinctIds(nodes) {
      forall k | 0 <= k < |tail| ensures tail[k].id != head.id {
        assert nodes[0] == head && nodes[k + 1] == tail[k];
      }
      forall i, j | 0 <= i < j < |tail| ensures tail[i].id != tail[j].id {
        assert nodes[i + 1] == tail[i] && nodes[j + 1] == tail[j];
      }
    }
  }

  lemma {:induction false} DistinctIffAsManyIds(nodes: seq<Registration>)
    ensures |Ids(nodes)| <= |nodes|
    ensures DistinctIds(nodes) <==> |Ids(nodes)| == |nodes|
  {
    if nodes != [] {
      var head, tail := nodes[0], nodes[1..];
      DistinctIffAsManyIds(tail);
      assert nodes == [head] + tail;
      DistinctCons(head, tail);
      assert Ids(nodes) == Ids(tail) + {head.id};
      if head.id in Ids(tail) { assert Ids(nodes) == Ids(tail); }
    }
  }

  lemma OrderFree(a: seq<Registration>, b: seq<Registration>)
    requires multiset(a) == multiset(b)
    ensures forall r :: r in a <==> r in b
    ensures DistinctIds(a) <==> DistinctIds(b)
    ensures forall m :: Candidates(a, m) == Candidates(b, m)
  {
    SameMembers(a, b);
    DistinctIffAsManyIds(a);
    DistinctIffAsManyIds(b);
    assert Ids(a) == Ids(b);
  }

  lemma ConditionsAreOrderFree(known: set<MapId>, a: seq<Registration>, b: seq<Registration>)
    requires multiset(a) == multiset(b)
    ensures WellRegistered(known, a) <==> WellRegistered(known, b)
    ensures EnoughCandidates(known, a) <==> EnoughCandidates(known, b)
  {
    OrderFree(a, b);
  }

  // A list with the same registrations in any other order has the same outcome,
  lemma BuildIsOrderFree(known: set<MapId>, a: seq<Registration>, b: seq<Registration>, now: nat, r: BuildResult)
    requires multiset(a) == multiset(b)
    requires BuildOutcome(known, a, now, r)
    ensures BuildOutcome(known, b, now, r)
  {
    hide WellRegistered, EnoughCandidates;
    ConditionsAreOrderFree(known, a, b);
    OrderFree(a, b);
  }

  // and no list has two outcomes.
  lemma BuildIsDetermined(known: set<MapId>, nodes: seq<Registration>, now: nat, r: BuildResult)
    requires BuildOutcome(known, nodes, now, r)
    ensures forall q | BuildOutcome(known, nodes, now, q) :: q == r
  {
    hide WellRegistered, EnoughCandidates;
    forall q | BuildOutcome(known, nodes, now, q) && r.Ready? && q.Ready? ensures q == r {
      forall m | m in known ensures r.topology.owners[m] == q.topology.owners[m] {
        LeAntisymmetric(r.topology.owners[m], q.topology.owners[m]);
      }
    }
  }
}
