/**
 The gateway's pool of node clients. A reconciler works in three phases and gives up the lock between them, so
 reconcilers, topology updates and Close interleave at every lock boundary.
 */
module ClientPools {
  import opened Text
  import opened Topologies

  type Client = nat   // clients are numbered in the order in which the factory made them
  type Addr = string

  // ---- the sections that hold the lock ----

  // A registered, non-draining owner with a legal address; the first registration of an id wins.
  predicate Usable(r: Registration, owners: set<NodeId>) {
    r.id in owners && !r.draining && Legal(r.addr)
  }

  ghost predicate IsTarget(nodes: seq<Registration>, owners: set<NodeId>, id: NodeId, addr: Addr) {
    exists i | 0 <= i < |nodes| ::
      && Usable(nodes[i], owners) && nodes[i].id == id && nodes[i].addr == addr
      && forall j | 0 <= j < i :: !(Usable(nodes[j], owners) && nodes[j].id == id)
  }

  method GatewayOwnerTargets(t: Topology, nodes: seq<Registration>) returns (targets: map<NodeId, Addr>)
    ensures forall id :: id in targets <==>
              id != "" && (exists m :: m in t.owners && t.owners[m] == id)
              && exists r :: r in nodes && r.id == id && !r.draining && Legal(r.addr)
    ensures forall id | id in targets ::
              Legal(targets[id]) &&
              exists i | 0 <= i < |nodes| ::
                && nodes[i].id == id && nodes[i].addr == targets[id] && !nodes[i].draining
                && forall j | 0 <= j < i :: nodes[j].id != id || nodes[j].draining || !Legal(nodes[j].addr)
  {
    var owners := t.owners.Values - {""};
    targets := map[];
    for i := 0 to |nodes|
      invariant forall id :: id in targets <==> exists j :: 0 <= j < i && Usable(nodes[j], owners) && nodes[j].id == id
      invariant forall id | id in targets :: Legal(targets[id]) && IsTarget(nodes, owners, id, targets[id])
    {
      var r := nodes[i];
      if r.id !in owners { continue; }
      if r.draining { continue; }
      if !IsTrimmed(r.addr) { continue; }
      if r.id !in targets {
        assert IsTarget(nodes, owners, r.id, r.addr);
        targets := targets[r.id := r.addr];
      }
    }
    forall id
      ensures id in targets <==> id in owners && exists r :: r in nodes && Usable(r, {id}) && r.id == id
    {
      if id in targets {
        var j :| 0 <= j < |nodes| && Usable(nodes[j], owners) && nodes[j].id == id;
        assert nodes[j] in nodes && Usable(nodes[j], {id});
      }
      if r :| id in owners && r in nodes && Usable(r, {id}) && r.id == id {
        var j :| 0 <= j < |nodes| && nodes[j] == r;
        assert Usable(nodes[j], owners);
      }
    }
  }

  predicate Stays(id: NodeId, addrs: map<NodeId, Addr>, targets: map<NodeId, Addr>) {
    id in targets && id in addrs && addrs[id] == targets[id]
  }

  function Kept<T>(m: map<NodeId, T>, addrs: map<NodeId, Addr>, targets: map<NodeId, Addr>): map<NodeId, T> {
    map id | id in m && Stays(id, addrs, targets) :: m[id]
  }

  function Obsolete(nodes: map<NodeId, Client>, addrs: map<NodeId, Addr>, targets: map<NodeId, Addr>): set<Client> {
    set id | id in nodes && !Stays(id, addrs, targets) :: nodes[id]
  }

  function Missing(nodes: map<NodeId, Client>, addrs: map<NodeId, Addr>, targets: map<NodeId, Addr>): map<NodeId, Addr> {
    map id | id in targets && !(id in nodes && Stays(id, addrs, targets)) :: targets[id]
  }

  class Cluster {
    var nodes: map<NodeId, Client>
    var nodeAddrs: map<NodeId, Addr>
    var nodeTargets: map<NodeId, Addr>
    var closed: bool
    var loaded: bool
    var version: nat

    constructor ()
      ensures nodes == map[] && nodeAddrs == map[] && nodeTargets == map[] && !closed && !loaded
    {
      nodes, nodeAddrs, nodeTargets, closed, loaded, version := map[], map[], map[], false, false, 0;
    }

    // The object is where that state of the transition system below says the pool is.
    ghost predicate Is(s: State)
      reads this
    {
      && nodes == s.nodes && nodeAddrs == s.addrs && nodeTargets == s.targets
      && closed == s.closed && loaded == s.loaded && version == s.version
    }

    // Only a newer version replaces the loaded topology.
    method ApplyTopology(t: Topology, known: set<MapId>) returns (updated: bool)
      modifies this`loaded, this`version
      ensures updated <==> Valid(t, Some(known)) && (!old(loaded) || t.version > old(version))
      ensures loaded == (old(loaded) || updated) && version == if updated then t.version else old(version)
      ensures forall s | old(Is(s)) :: Is(if Valid(t, Some(known)) then Do(s, Apply(t.version)) else s)
    {
      var valid := Validate(t, Some(known));
      if !valid || (loaded && t.version <= version) { return false; }
      loaded, version := true, t.version;
      return true;
    }

    method BeginReconcile(topologyVersion: nat, targets: map<NodeId, Addr>)
      returns (entered: bool, obsolete: set<Client>, pending: map<NodeId, Addr>)
      requires nodes.Keys == nodeAddrs.Keys
      modifies this`nodes, this`nodeAddrs, this`nodeTargets
      ensures entered <==> !closed && loaded && version == topologyVersion
      ensures entered ==>
                && nodeTargets == targets
                && nodes == Kept(old(nodes), old(nodeAddrs), targets)
                && nodeAddrs == Kept(old(nodeAddrs), old(nodeAddrs), targets)
                && obsolete == Obsolete(old(nodes), old(nodeAddrs), targets)
                && pending == Missing(old(nodes), old(nodeAddrs), targets)
      ensures entered ==>
                && pending.Keys <= targets.Keys && (forall id | id in pending :: pending[id] == targets[id])
                && (forall id | id in targets ::
                      id !in pending <==> id in nodes && id in nodeAddrs && nodeAddrs[id] == targets[id])
                && (forall id | id in nodes :: id in old(nodes) && id in targets && nodes[id] == old(nodes)[id])
                && (forall c :: c in obsolete <==>
                      exists id :: id in old(nodes) && old(nodes)[id] == c && !(id in targets && old(nodeAddrs)[id] == targets[id]))
      ensures !entered ==>
                && nodes == old(nodes) && nodeAddrs == old(nodeAddrs) && nodeTargets == old(nodeTargets)
                && obsolete == {} && pending == map[]
      ensures forall s, r | old(Is(s)) && Runs(s, r, Fetched(topologyVersion, targets)) ::
                var t := Do(s, Enter(r));
                Is(t) && if entered then Runs(t, r, Working(obsolete, pending)) else r !in t.reconcilers
    {
      obsolete, pending := {}, map[];
      if closed || !loaded || version != topologyVersion { return false, obsolete, pending; }
      nodeTargets := targets;
      obsolete := DropObsolete(targets);
      pending := Absent(targets, nodes);
      return true, obsolete, pending;
    }

    method DropObsolete(targets: map<NodeId, Addr>) returns (obsolete: set<Client>)
      requires nodes.Keys == nodeAddrs.Keys
      modifies this`nodes, this`nodeAddrs
      ensures nodes == Kept(old(nodes), old(nodeAddrs), targets)
      ensures nodeAddrs == Kept(old(nodeAddrs), old(nodeAddrs), targets)
      ensures obsolete == Obsolete(old(nodes), old(nodeAddrs), targets)
    {
      obsolete := {};
      var before, addrs := nodes, nodeAddrs;
      var todo := nodes.Keys;
      while todo != {}
        invariant todo <= before.Keys
        invariant nodes == map id | id in before && (id in todo || Stays(id, addrs, targets)) :: before[id]
        invariant nodeAddrs == map id | id in addrs && (id in todo || Stays(id, addrs, targets)) :: addrs[id]
        invariant obsolete == set id | id in before && id !in todo && !Stays(id, addrs, targets) :: before[id]
        decreases todo
      {
        var id :| id in todo;
        if id !in targets || nodeAddrs[id] != targets[id] {
          obsolete := obsolete + {nodes[id]};
          nodes := nodes - {id};
          nodeAddrs := nodeAddrs - {id};
        }
        todo := todo - {id};
      }
    }

    static method Absent(targets: map<NodeId, Addr>, nodes: map<NodeId, Client>) returns (pending: map<NodeId, Addr>)
      ensures pending == map id | id in targets && id !in nodes :: targets[id]
    {
      pending := map[];
      var todo := targets.Keys;
      while todo != {}
        invariant todo <= targets.Keys
        invariant pending == map id | id in targets && id !in todo && id !in nodes :: targets[id]
        decreases todo
      {
        var id :| id in todo;
        if id !in nodes { pending := pending[id := targets[id]]; }
        todo := todo - {id};
      }
    }

    method Install(id: NodeId, addr: Addr, client: Client) returns (installed: bool)
      modifies this`nodes, this`nodeAddrs
      ensures installed <==> !closed && loaded && Wanted(nodeTargets, id, addr) && id !in old(nodes)
      ensures nodes == if installed then old(nodes)[id := client] else old(nodes)
      ensures nodeAddrs == if installed then old(nodeAddrs)[id := addr] else old(nodeAddrs)
      ensures forall s, r, rest | old(Is(s)) && Runs(s, r, Made(rest, id, addr, client)) ::
                var t := Do(s, Label.Install(r));
                Is(t) && Runs(t, r, if installed then Working({}, rest) else Dropping(rest, client))
    {
      if closed || !loaded || !Wanted(nodeTargets, id, addr) { return false; }
      if id in nodes { return false; }
      nodes := nodes[id := client];
      nodeAddrs := nodeAddrs[id := addr];
      return true;
    }

    method BeginClose() returns (taken: set<Client>)
      modifies this
      ensures closed && nodes == map[] && nodeAddrs == map[] && nodeTargets == map[]
      ensures taken == old(nodes).Values
      ensures loaded == old(loaded) && version == old(version)
      ensures forall s | old(Is(s)) && PoolOk(s) ::
                Is(Do(s, Close)) && taken == if s.closed then {} else Do(s, Close).closing
    {
      closed := true;
      taken := nodes.Values;
      nodes, nodeAddrs, nodeTargets := map[], map[], map[];
    }
  }

  // A missing key reads as the empty address.
  predicate Wanted(targets: map<NodeId, Addr>, id: NodeId, addr: Addr) {
    (if id in targets then targets[id] else "") == addr
  }

  // ---- all interleavings ----

  datatype Reconciler =
    | Fetched(version: nat, targets: map<NodeId, Addr>)
    | Working(obsolete: set<Client>, pending: map<NodeId, Addr>)
    | Made(pending: map<NodeId, Addr>, id: NodeId, addr: Addr, client: Client)
    | Dropping(pending: map<NodeId, Addr>, client: Client)

  datatype Place = InPool(id: NodeId) | InHand(reconciler: nat) | WithCloser | Closed

  datatype State = State(
    nodes: map<NodeId, Client>,
    addrs: map<NodeId, Addr>,
    targets: map<NodeId, Addr>,
    loaded: bool,
    version: nat,
    closed: bool,
    reconcilers: map<nat, Reconciler>,
    closing: set<Client>,               // taken out by Close, not closed yet
    made: nat,                          // clients the factory has made
    closings: seq<Client>,              // every Close call on a client
    place: map<Client, Place>)          // bookkeeping for the proof: where each client is

  const INIT := State(map[], map[], map[], false, 0, false, map[], {}, 0, [], map[])

  datatype Label =
    | Apply(version: nat)
    | Fetch(r: nat, version: nat, targets: map<NodeId, Addr>)
    | Enter(r: nat)
    | CloseObsolete(r: nat, client: Client)
    | Make(r: nat, id: NodeId)
    | MakeFails(r: nat, id: NodeId)
    | Install(r: nat)
    | Drop(r: nat)
    | Return(r: nat)
    | Close
    | CloseTaken(client: Client)

  function Moved(place: map<Client, Place>, clients: set<Client>, to: Place): map<Client, Place> {
    map c | c in place.Keys + clients :: if c in clients then to else place[c]
  }

  predicate Runs(s: State, r: nat, at: Reconciler) { r in s.reconcilers && s.reconcilers[r] == at }

  function DoEnter(s: State, r: nat): State
    requires r in s.reconcilers && s.reconcilers[r].Fetched?
  {
    var t := s.reconcilers[r].targets;
    if s.closed || !s.loaded || s.version != s.reconcilers[r].version then s.(reconcilers := s.reconcilers - {r})
    else
      var obsolete := Obsolete(s.nodes, s.addrs, t);
      s.(targets := t, nodes := Kept(s.nodes, s.addrs, t), addrs := Kept(s.addrs, s.addrs, t),
         reconcilers := s.reconcilers[r := Working(obsolete, Missing(s.nodes, s.addrs, t))],
         place := Moved(s.place, obsolete, InHand(r)))
  }

  function DoInstall(s: State, r: nat): State
    requires r in s.reconcilers && s.reconcilers[r].Made?
  {
    var m := s.reconcilers[r];
    if !s.closed && s.loaded && Wanted(s.targets, m.id, m.addr) && m.id !in s.nodes
    then s.(nodes := s.nodes[m.id := m.client], addrs := s.addrs[m.id := m.addr],
            reconcilers := s.reconcilers[r := Working({}, m.pending)],
            place := Moved(s.place, {m.client}, InPool(m.id)))
    else s.(reconcilers := s.reconcilers[r := Dropping(m.pending, m.client)])
  }

  function Do(s: State, l: Label): State {
    match l
    case Apply(version) => if s.loaded && version <= s.version then s else s.(loaded := true, version := version)
    case Fetch(r, version, targets) =>
      if r in s.reconcilers || exists id | id in targets :: targets[id] == "" then s
      else s.(reconcilers := s.reconcilers[r := Fetched(version, targets)])
    case Enter(r) => if r in s.reconcilers && s.reconcilers[r].Fetched? then DoEnter(s, r) else s
    case CloseObsolete(r, c) =>
      if r in s.reconcilers && s.reconcilers[r].Working? && c in s.reconcilers[r].obsolete
      then s.(reconcilers := s.reconcilers[r := Working(s.reconcilers[r].obsolete - {c}, s.reconcilers[r].pending)],
              closings := s.closings + [c], place := Moved(s.place, {c}, Closed))
      else s
    case Make(r, id) =>
      if r in s.reconcilers && s.reconcilers[r].Working? && s.reconcilers[r].obsolete == {} && id in s.reconcilers[r].pending
      then s.(reconcilers := s.reconcilers[r := Made(s.reconcilers[r].pending - {id}, id, s.reconcilers[r].pending[id], s.made)],
              made := s.made + 1, place := Moved(s.place, {s.made}, InHand(r)))
      else s
    case MakeFails(r, id) =>
      if r in s.reconcilers && s.reconcilers[r].Working? && s.reconcilers[r].obsolete == {}
      then s.(reconcilers := s.reconcilers[r := Working({}, s.reconcilers[r].pending - {id})]) else s
    case Install(r) => if r in s.reconcilers && s.reconcilers[r].Made? then DoInstall(s, r) else s
    case Drop(r) =>
      if r in s.reconcilers && s.reconcilers[r].Dropping?
      then s.(reconcilers := s.reconcilers[r := Working({}, s.reconcilers[r].pending)],
              closings := s.closings + [s.reconcilers[r].client],
              place := Moved(s.place, {s.reconcilers[r].client}, Closed))
      else s
    case Return(r) =>
      if r in s.reconcilers && s.reconcilers[r] == Working({}, map[]) then s.(reconcilers := s.reconcilers - {r}) else s
    case Close =>
      if s.closed then s
      else s.(closed := true, closing := s.nodes.Values, nodes := map[], addrs := map[], targets := map[],
              place := Moved(s.place, s.nodes.Values, WithCloser))
    case CloseTaken(c) =>
      if c in s.closing
      then s.(closing := s.closing - {c}, closings := s.closings + [c], place := Moved(s.place, {c}, Closed)) else s
  }

  function Run(labels: seq<Label>): State {
    if labels == [] then INIT else Do(Run(labels[..|labels| - 1]), labels[|labels| - 1])
  }

  predicate Holds(r: Reconciler, c: Client) {
    match r
    case Fetched(_, _) => false
    case Working(obsolete, _) => c in obsolete
    case Made(_, _, _, client) => c == client
    case Dropping(_, client) => c == client
  }

  predicate At(s: State, c: Client, p: Place) {
    match p
    case InPool(id) => id in s.nodes && s.nodes[id] == c
    case InHand(r) => r in s.reconcilers && Holds(s.reconcilers[r], c)
    case WithCloser => c in s.closing
    case Closed => c in s.closings
  }

  ghost predicate Tracked(s: State) {
    && (forall c: Client :: c in s.place <==> c < s.made)
    && (forall c: Client, p :: At(s, c, p) <==> c in s.place && s.place[c] == p)
    && ClosedOnce(s.closings)
  }

  ghost predicate ClosedOnce(closings: seq<Client>) {
    forall i, j | 0 <= i < j < |closings| :: closings[i] != closings[j]
  }

  predicate PendingOk(r: Reconciler) {
    match r
    case Fetched(_, targets) => forall id | id in targets :: targets[id] != ""
    case Working(_, pending) => forall id | id in pending :: pending[id] != ""
    case Made(pending, _, addr, _) => addr != "" && forall id | id in pending :: pending[id] != ""
    case Dropping(pending, _) => forall id | id in pending :: pending[id] != ""
  }

  ghost predicate PoolOk(s: State) {
    && s.nodes.Keys == s.addrs.Keys
    && (forall id | id in s.addrs :: id in s.targets && s.addrs[id] == s.targets[id])
    && (forall r | r in s.reconcilers :: PendingOk(s.reconcilers[r]))
    && (s.closed ==> s.nodes == map[] && s.targets == map[])
    && (!s.closed ==> s.closing == {})
  }

  lemma StepKeepsPool(s: State, l: Label)
    requires PoolOk(s)
    ensures PoolOk(Do(s, l))
  {
    if l.Enter? {
      EnterKeepsPool(s, l.r);
    } else if l.Install? {
      InstallKeepsPool(s, l.r);
    } else {
      hide DoEnter, DoInstall, Moved;
    }
  }

  lemma EnterKeepsPool(s: State, r: nat)
    requires PoolOk(s)
    ensures PoolOk(Do(s, Enter(r)))
  {
    hide DoInstall, Moved;
  }

  lemma InstallKeepsPool(s: State, r: nat)
    requires PoolOk(s)
    ensures PoolOk(Do(s, Install(r)))
  {
    hide DoEnter, Moved;
  }

  // `moved` went from where they were to one new place, and nothing else about places changed.
  ghost predicate Moves(s: State, t: State, moved: set<Client>, to: Place) {
    && t.place == Moved(s.place, moved, to)
    && (forall c: Client, p :: At(t, c, p) <==> if c in moved then p == to else At(s, c, p))
    && (forall c: Client :: c < t.made <==> c < s.made || c in moved)
  }

  lemma MovingKeepsTracked(s: State, t: State, moved: set<Client>, to: Place)
    requires Tracked(s) && Moves(s, t, moved, to) && ClosedOnce(t.closings)
    ensures Tracked(t)
  {
  }

  lemma ClosingOnce(s: State, c: Client, p: Place)
    requires Tracked(s) && At(s, c, p) && p != Closed
    ensures c < s.made && ClosedOnce(s.closings + [c])
  {
    assert !At(s, c, Closed);
  }

  lemma EnterMoves(s: State, r: nat)
    requires Tracked(s) && PoolOk(s) && r in s.reconcilers && s.reconcilers[r].Fetched?
    ensures Tracked(DoEnter(s, r))
  {
    var t := DoEnter(s, r);
    if !s.closed && s.loaded && s.version == s.reconcilers[r].version {
      var targets := s.reconcilers[r].targets;
      var obsolete := Obsolete(s.nodes, s.addrs, targets);
      forall c: Client, p ensures At(t, c, p) <==> if c in obsolete then p == InHand(r) else At(s, c, p) {
        if c in obsolete {
          var id :| id in s.nodes && !Stays(id, s.addrs, targets) && s.nodes[id] == c;
          assert At(s, c, InPool(id));
          assert At(s, c, p) <==> p == InPool(id);
        }
      }
      forall c: Client | c in obsolete ensures c < s.made {
        var id :| id in s.nodes && s.nodes[id] == c;
        assert At(s, c, InPool(id));
      }
      MovingKeepsTracked(s, t, obsolete, InHand(r));
    } else {
      assert forall c: Client, p :: At(t, c, p) <==> At(s, c, p);
    }
  }

  lemma CloseMoves(s: State)
    requires Tracked(s) && PoolOk(s) && !s.closed
    ensures Tracked(Do(s, Close))
  {
    var t, taken := Do(s, Close), s.nodes.Values;
    forall c: Client, p ensures At(t, c, p) <==> if c in taken then p == WithCloser else At(s, c, p) {
      if c in taken {
        var id :| id in s.nodes && s.nodes[id] == c;
        assert At(s, c, InPool(id));
        assert At(s, c, p) <==> p == InPool(id);
      }
    }
    forall c: Client | c in taken ensures c < s.made {
      var id :| id in s.nodes && s.nodes[id] == c;
      assert At(s, c, InPool(id));
    }
    MovingKeepsTracked(s, t, taken, WithCloser);
  }

  // A step that moves the one client c from place p.
  lemma OneMoves(s: State, t: State, c: Client, from: Place, to: Place)
    requires Tracked(s) && At(s, c, from) && t.place == Moved(s.place, {c}, to) && t.made == s.made
    requires forall d: Client, p | d != c :: At(t, d, p) <==> At(s, d, p)
    requires forall p :: At(t, c, p) <==> p == to
    requires t.closings == if to.Closed? then s.closings + [c] else s.closings
    requires from != Closed
    ensures Tracked(t)
  {
    ClosingOnce(s, c, from);
    MovingKeepsTracked(s, t, {c}, to);
  }

  lemma InstallMoves(s: State, r: nat)
    requires Tracked(s) && PoolOk(s) && r in s.reconcilers && s.reconcilers[r].Made?
    ensures Tracked(DoInstall(s, r))
  {
    var t, m := DoInstall(s, r), s.reconcilers[r];
    assert At(s, m.client, InHand(r));
    if t.nodes != s.nodes {
      forall p ensures At(t, m.client, p) <==> p == InPool(m.id) { assert At(s, m.client, p) <==> p == InHand(r); }
      OneMoves(s, t, m.client, InHand(r), InPool(m.id));
    } else {
      assert forall c: Client, p :: At(t, c, p) <==> At(s, c, p);
    }
  }

  lemma MakeMoves(s: State, l: Label)
    requires Tracked(s) && PoolOk(s) && l.Make? && Do(s, l) != s
    ensures Tracked(Do(s, l))
  {
    var t := Do(s, l);
    forall c: Client, p ensures At(t, c, p) <==> if c == s.made then p == InHand(l.r) else At(s, c, p) {
      assert c == s.made ==> !At(s, c, p);
      assert !At(s, c, InHand(l.r)) by { assert s.reconcilers[l.r].obsolete == {}; }
    }
    MovingKeepsTracked(s, t, {s.made}, InHand(l.r));
  }

  lemma ClosingMoves(s: State, l: Label)
    requires Tracked(s) && PoolOk(s) && (l.CloseObsolete? || l.Drop? || l.CloseTaken?) && Do(s, l) != s
    ensures Tracked(Do(s, l))
  {
    var t := Do(s, l);
    var c := if l.Drop? then s.reconcilers[l.r].client else l.client;
    var from := if l.CloseTaken? then WithCloser else InHand(l.r);
    assert At(s, c, from);
    assert t.closings[|s.closings|] == c;
    forall p ensures At(t, c, p) <==> p == Closed { assert At(s, c, p) <==> p == from; }
    OneMoves(s, t, c, from, Closed);
  }

  lemma StepKeepsTracked(s: State, l: Label)
    requires Tracked(s) && PoolOk(s)
    ensures Tracked(Do(s, l))
  {
    var t := Do(s, l);
    if t != s {
      match l
      case Enter(r) => EnterMoves(s, r);
      case Install(r) => InstallMoves(s, r);
      case Make(_, _) => MakeMoves(s, l);
      case Close => CloseMoves(s);
      case CloseObsolete(_, _) => ClosingMoves(s, l);
      case Drop(_) => ClosingMoves(s, l);
      case CloseTaken(_) => ClosingMoves(s, l);
      case _ => assert forall c: Client, p :: At(t, c, p) <==> At(s, c, p);
    }
  }

  lemma {:induction false} RunsAreTracked(labels: seq<Label>)
    ensures Tracked(Run(labels)) && PoolOk(Run(labels))
  {
    hide Do;
    if labels != [] {
      RunsAreTracked(labels[..|labels| - 1]);
      StepKeepsTracked(Run(labels[..|labels| - 1]), labels[|labels| - 1]);
      StepKeepsPool(Run(labels[..|labels| - 1]), labels[|labels| - 1]);
    }
  }

  // Every client ever made is in exactly one place: in the pool, in one goroutine's hands, or closed, once.
  lemma EveryClientIsInOnePlace(labels: seq<Label>, c: Client)
    ensures var s := Run(labels);
            && (c < s.made ==> exists p :: At(s, c, p) && forall q :: At(s, c, q) ==> q == p)
            && (c >= s.made ==> forall p :: !At(s, c, p))
            && forall i, j | 0 <= i < j < |s.closings| :: s.closings[i] != s.closings[j]
  {
    hide Do;
    RunsAreTracked(labels);
    var s := Run(labels);
    if c < s.made { assert At(s, c, s.place[c]); }
  }

  // The pool connects exactly to current targets, never to a closed client, and stays empty after Close.
  lemma PoolFollowsTargets(labels: seq<Label>, id: NodeId)
    ensures var s := Run(labels);
            && (id in s.nodes <==> id in s.addrs)
            && (id in s.nodes ==> id in s.targets && s.addrs[id] == s.targets[id] && s.nodes[id] !in s.closings)
            && (s.closed ==> s.nodes == map[])
  {
    hide Do;
    RunsAreTracked(labels);
    var s := Run(labels);
    if id in s.nodes {
      assert At(s, s.nodes[id], InPool(id));
      assert !At(s, s.nodes[id], Closed);
    }
  }

  // When Close and all reconcilers have ended nothing is left open.
  lemma NothingLeaks(labels: seq<Label>, c: Client)
    ensures var s := Run(labels);
            s.closed && s.closing == {} && s.reconcilers == map[] && c < s.made ==> c in s.closings
  {
    hide Do;
    EveryClientIsInOnePlace(labels, c);
    RunsAreTracked(labels);
  }
}
