/**
 Wanted owners get clients: every target is pooled at its address, or still in work, or its factory call failed.
 Beside the run a witness notes who entered last and whose factory calls have failed since.
 */
module PoolCoverage {
  import opened Text
  import opened Topologies
  import opened ClientPools

  datatype Watched = Watched(pool: State, entered: Option<nat>, missed: set<NodeId>)

  // Enter took effect: the targets are that reconciler's now.
  predicate Enters(s: State, l: Label) {
    && l.Enter? && l.r in s.reconcilers && s.reconcilers[l.r].Fetched?
    && !s.closed && s.loaded && s.version == s.reconcilers[l.r].version
  }

  // The factory failed for a node that the reconciler has still to connect.
  predicate Fails(s: State, l: Label) {
    && l.MakeFails? && l.r in s.reconcilers && s.reconcilers[l.r].Working? && s.reconcilers[l.r].obsolete == {}
    && l.id in s.reconcilers[l.r].pending
  }

  function Watch(w: Watched, l: Label): Watched {
    Watched(Do(w.pool, l),
            if Enters(w.pool, l) then Some(l.r) else w.entered,
            if Enters(w.pool, l) then {} else if Fails(w.pool, l) then w.missed + {l.id} else w.missed)
  }

  function WatchRun(labels: seq<Label>): Watched {
    if labels == [] then Watched(INIT, None, {}) else Watch(WatchRun(labels[..|labels| - 1]), labels[|labels| - 1])
  }

  predicate Pooled(s: State, id: NodeId, addr: Addr) {
    id in s.nodes && id in s.addrs && s.addrs[id] == addr
  }

  // The reconciler has the node in hand or still to connect, at that address.
  predicate InWork(at: Reconciler, id: NodeId, addr: Addr) {
    match at
    case Fetched(_, _) => false
    case Working(_, pending) => id in pending && pending[id] == addr
    case Made(pending, made, to, _) => (made == id && to == addr) || (id in pending && pending[id] == addr)
    case Dropping(pending, _) => id in pending && pending[id] == addr
  }

  predicate Served(w: Watched, id: NodeId) {
    id in w.pool.targets ==>
      || Pooled(w.pool, id, w.pool.targets[id])
      || id in w.missed
      || (w.entered.Some? && w.entered.value in w.pool.reconcilers
          && InWork(w.pool.reconcilers[w.entered.value], id, w.pool.targets[id]))
  }

  lemma EnterServes(w: Watched, r: nat, id: NodeId)
    requires PoolOk(w.pool) && Served(w, id) && r in w.pool.reconcilers && w.pool.reconcilers[r].Fetched?
    ensures Served(Watch(w, Enter(r)), id)
  {
    var s := w.pool;
    var t := DoEnter(s, r);
    if Enters(s, Enter(r)) {
      if id in t.targets && !(id in s.nodes && Stays(id, s.addrs, t.targets)) {
        assert id in Missing(s.nodes, s.addrs, t.targets);
      }
    }
  }

  lemma InstallServes(w: Watched, r: nat, id: NodeId)
    requires PoolOk(w.pool) && Served(w, id) && r in w.pool.reconcilers && w.pool.reconcilers[r].Made?
    requires w.pool.targets != map[] ==> w.pool.loaded
    ensures Served(Watch(w, Install(r)), id)
  {
  }

  lemma StepServes(w: Watched, l: Label, id: NodeId)
    requires PoolOk(w.pool) && Served(w, id) && (w.pool.targets != map[] ==> w.pool.loaded)
    ensures Served(Watch(w, l), id)
    ensures var t := Watch(w, l).pool; t.targets != map[] ==> t.loaded
  {
    hide DoEnter, DoInstall, Moved, PoolOk;
    match l
    case Enter(r) =>
      if r in w.pool.reconcilers && w.pool.reconcilers[r].Fetched? {
        EnterServes(w, r, id);
        EnterLoads(w.pool, r);
      }
    case Install(r) =>
      if r in w.pool.reconcilers && w.pool.reconcilers[r].Made? {
        InstallServes(w, r, id);
        InstallLoads(w.pool, r);
      }
    case _ =>
  }

  lemma EnterLoads(s: State, r: nat)
    requires r in s.reconcilers && s.reconcilers[r].Fetched? && (s.targets != map[] ==> s.loaded)
    ensures var t := DoEnter(s, r); t.targets != map[] ==> t.loaded
  {
  }

  lemma InstallLoads(s: State, r: nat)
    requires r in s.reconcilers && s.reconcilers[r].Made?
    ensures var t := DoInstall(s, r); t.targets == s.targets && t.loaded == s.loaded
  {
  }

  lemma {:induction false} WatchesTheRun(labels: seq<Label>)
    ensures WatchRun(labels).pool == Run(labels)
  {
    hide Do;
    if labels != [] { WatchesTheRun(labels[..|labels| - 1]); }
  }

  lemma {:induction false} RunServes(labels: seq<Label>, id: NodeId)
    ensures Served(WatchRun(labels), id)
    ensures var s := WatchRun(labels).pool; s.targets != map[] ==> s.loaded
  {
    hide Do, Watch, Served, PoolOk;
    if labels == [] {
      StartServes(id);
    } else {
      RunServes(labels[..|labels| - 1], id);
      RunsAreTracked(labels[..|labels| - 1]);
      WatchesTheRun(labels[..|labels| - 1]);
      StepServes(WatchRun(labels[..|labels| - 1]), labels[|labels| - 1], id);
    }
  }

  lemma StartServes(id: NodeId)
    ensures Served(Watched(INIT, None, {}), id)
  {
  }

  // Under every interleaving each target is pooled at exactly its address, or in the hands or the list of the
  // reconciler that entered with these targets, or one whose factory call has failed since.
  lemma EveryTargetIsServed(labels: seq<Label>, id: NodeId)
    ensures var s, w := Run(labels), WatchRun(labels);
            w.pool == s
            && (id in s.targets ==>
                  || (id in s.nodes && id in s.addrs && s.addrs[id] == s.targets[id])
                  || id in w.missed
                  || (w.entered.Some? && w.entered.value in s.reconcilers && InWork(s.reconcilers[w.entered.value], id, s.targets[id])))
  {
    hide Run, WatchRun;
    RunServes(labels, id);
    WatchesTheRun(labels);
  }

  // So when that reconciler has returned and no factory call failed, the pool connects to every target.
  lemma ReturnedServesAll(labels: seq<Label>)
    ensures var s, w := Run(labels), WatchRun(labels);
            w.missed == {} && (w.entered.Some? ==> w.entered.value !in s.reconcilers) ==> s.addrs == s.targets
  {
    hide Run, WatchRun;
    var s, w := Run(labels), WatchRun(labels);
    RunsAreTracked(labels);
    if w.missed == {} && (w.entered.Some? ==> w.entered.value !in s.reconcilers) {
      forall id | id in s.targets ensures id in s.addrs && s.addrs[id] == s.targets[id] { EveryTargetIsServed(labels, id); }
    }
  }

  // ---- a reconciler comes to its end ----

  function WorkLeft(at: Reconciler): nat {
    match at
    case Fetched(_, _) => 0
    case Working(obsolete, pending) => |obsolete| + 3 * |pending| + 1
    case Made(pending, _, _, _) => 3 * |pending| + 3
    case Dropping(pending, _) => 3 * |pending| + 2
  }

  predicate Own(l: Label, r: nat) {
    (l.CloseObsolete? || l.Make? || l.MakeFails? || l.Install? || l.Drop? || l.Return?) && l.r == r
  }

  ghost predicate Lessens(s: State, t: State, r: nat)
    requires r in s.reconcilers
  {
    t == s || r !in t.reconcilers
    || (!t.reconcilers[r].Fetched? && WorkLeft(t.reconcilers[r]) < WorkLeft(s.reconcilers[r]))
  }

  lemma ClosingLessens(s: State, r: nat, c: Client)
    requires r in s.reconcilers && !s.reconcilers[r].Fetched?
    ensures Lessens(s, Do(s, CloseObsolete(r, c)), r)
  {
    hide Moved;
    var at := s.reconcilers[r];
    if at.Working? && c in at.obsolete { assert |at.obsolete - {c}| == |at.obsolete| - 1; }
  }

  lemma CallingLessens(s: State, l: Label, r: nat)
    requires r in s.reconcilers && (l.Make? || l.MakeFails?) && l.r == r && s.reconcilers[r].Working? && l.id in s.reconcilers[r].pending
    ensures Lessens(s, Do(s, l), r)
  {
    hide Moved;
    OneLess(s.reconcilers[r].pending, l.id);
  }

  lemma InstallingLessens(s: State, l: Label, r: nat)
    requires r in s.reconcilers && (l.Install? || l.Drop? || l.Return?) && l.r == r
    ensures Lessens(s, Do(s, l), r)
  {
    hide Moved, Wanted;
  }

  lemma OwnStepLessens(s: State, l: Label, r: nat)
    requires r in s.reconcilers && !s.reconcilers[r].Fetched? && Own(l, r)
    ensures (l.MakeFails? && l.id !in s.reconcilers[r].pending) || Lessens(s, Do(s, l), r)
  {
    match l
    case CloseObsolete(_, c) => ClosingLessens(s, r, c);
    case Make(_, id) => if s.reconcilers[r].Working? && id in s.reconcilers[r].pending { CallingLessens(s, l, r); }
    case MakeFails(_, id) => if s.reconcilers[r].Working? && id in s.reconcilers[r].pending { CallingLessens(s, l, r); }
    case _ => InstallingLessens(s, l, r);
  }

  lemma OthersLeaveReconciler(s: State, l: Label, r: nat)
    requires r in s.reconcilers && !s.reconcilers[r].Fetched? && !Own(l, r)
    ensures r in Do(s, l).reconcilers && Do(s, l).reconcilers[r] == s.reconcilers[r]
  {
    hide Moved, Obsolete, Kept, Missing, Wanted;
  }

  // Once it has entered, each step of a reconciler lessens its work, and nobody else's step adds to it: it closes what
  // is obsolete, calls the factory once for each missing owner, and returns.
  lemma ReconcilerFinishes(s: State, l: Label, r: nat)
    requires r in s.reconcilers && !s.reconcilers[r].Fetched?
    ensures var t := Do(s, l);
            if Own(l, r)
            then (l.MakeFails? && l.id !in s.reconcilers[r].pending) || t == s || r !in t.reconcilers
                 || (!t.reconcilers[r].Fetched? && WorkLeft(t.reconcilers[r]) < WorkLeft(s.reconcilers[r]))
            else r in t.reconcilers && t.reconcilers[r] == s.reconcilers[r]
  {
    hide Do;
    if Own(l, r) { OwnStepLessens(s, l, r); } else { OthersLeaveReconciler(s, l, r); }
  }

  lemma OneLess(m: map<NodeId, Addr>, id: NodeId)
    requires id in m
    ensures |m - {id}| == |m| - 1
  {
    assert (m - {id}).Keys == m.Keys - {id};
    assert |m - {id}| == |(m - {id}).Keys| && |m| == |m.Keys|;
  }
}
