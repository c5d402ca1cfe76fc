/**
 One node's drain inside the whole control plane: its steps and everybody else's interleave over one store. What
 a failover promotes after the final save is exactly what was saved, and a restore of it is the drained world.
 */
module DrainFailover {
  import opened Text
  import opened Topologies
  import opened Stores
  import opened Coordinators
  import opened Nodes
  import opened ProtocolInvariants
  import opened ProtocolTheorems
  import P = Protocol
  import D = Drains
  import I = DrainInvariants
  import T = DrainTheorems
  import W = Worlds
  import C = WorldCheckpoint
  import opened WorldDowned

  datatype Joint = Joint(sys: P.Sys, node: D.State)

  // The node's own saves are its steps; commits and saves of others are steps of the control plane.
  datatype Label = Control(control: P.Label) | OnNode(own: D.Label)

  ghost function Do(j: Joint, l: Label): Joint {
    match l
    case Control(c) =>
      if c.SaveCheckpoint? && c.n == j.node.id then j
      else Joint(P.Do(j.sys, c), j.node.(redis := P.Do(j.sys, c).redis))
    case OnNode(d) =>
      if d.OtherCommit? || d.OtherSave? then j
      else Joint(j.sys.(redis := D.Do(j.node, d).redis), D.Do(j.node, d))
  }

  ghost function Run(id: NodeId, labels: seq<Label>): Joint {
    if labels == [] then Joint(P.INIT, D.Init(id)) else Do(Run(id, labels[..|labels| - 1]), labels[|labels| - 1])
  }

  ghost predicate JointGood(j: Joint, id: NodeId) {
    j.sys.redis == j.node.redis && Good(j.sys) && I.Good(j.node) && j.node.id == id
  }

  // ---- the node under everybody else's steps ----

  lemma SameKeysKeepNodeGood(s: D.State, r: Redis)
    requires I.Good(s)
    requires r.topology == s.redis.topology && r.fences == s.redis.fences && r.checkpoints == s.redis.checkpoints
    ensures I.Good(s.(redis := r))
  {
    I.GoodStore(s);
    hide Fences, I.Good;
    I.NewStoreKeepsGood(s, r);
  }

  lemma CommitKeepsNodeGood(j: Joint, tasks: map<nat, P.Task>, code: CasCode, expected: nat, next: Topology,
                            mig: Option<Migration>, term: nat, cause: P.Cause)
    requires j.sys.redis == j.node.redis && I.Good(j.node)
    requires code.Saved? ==> CasVerdict(j.sys.redis, expected, next, mig, term).Saved?
    ensures I.Good(j.node.(redis := P.Logged(j.sys.(tasks := tasks), code, next, mig, cause).redis))
  {
    hide I.Good, CasVerdict, CasEffect;
    if code.Saved? {
      I.OtherCommitKeepsGood(j.node, expected, next, mig, term);
    } else {
      assert j.node.(redis := j.sys.redis) == j.node;
    }
  }

  lemma ControlKeepsNodeGood(j: Joint, c: P.Label)
    requires j.sys.redis == j.node.redis && I.Good(j.node) && !(c.SaveCheckpoint? && c.n == j.node.id)
    ensures I.Good(j.node.(redis := P.Do(j.sys, c).redis))
  {
    hide I.Good, CasVerdict, AfterSave, P.Logged;
    var s := j.sys;
    assert j.node.(redis := s.redis) == j.node;
    if !Writes(c) {
      hide P.Do;
      QuietStepGrows(s, c);
      SameKeysKeepNodeGood(j.node, P.Do(s, c).redis);
      return;
    }
    match c
    case CommitFailover(id, now) => FailoverKeepsNodeGood(j, id, now);
    case CommitBootstrap(id) => BootstrapKeepsNodeGood(j, id);
    case CommitRepair(expected, next, mig) =>
      CommitKeepsNodeGood(j, s.tasks, CasVerdict(s.redis, expected, next, mig, 0), expected, next, mig, 0, P.Repair);
    case SaveCheckpoint(n, epoch, cp) => I.OtherSaveKeepsGood(j.node, n, cp, epoch);
  }

  lemma FailoverKeepsNodeGood(j: Joint, id: nat, now: nat)
    requires j.sys.redis == j.node.redis && I.Good(j.node)
    ensures I.Good(j.node.(redis := P.DoCommitFailover(j.sys, id, now).redis))
  {
    hide I.Good, CasVerdict, P.Logged;
    assert j.node.(redis := j.sys.redis) == j.node;
    if id in j.sys.tasks && j.sys.tasks[id].Confirmed? {
      var t := j.sys.tasks[id];
      var next, mig := P.FailoverProposal(t, now), P.FailoverMigration(t);
      CommitKeepsNodeGood(j, j.sys.tasks - {id}, LeaderVerdict(j.sys.redis, t.topology.version, next, mig, t.term),
                          t.topology.version, next, mig, t.term, P.Failover(t.coord, t.term, t.mapId, t.failed, t.standby));
    }
  }

  lemma BootstrapKeepsNodeGood(j: Joint, id: nat)
    requires j.sys.redis == j.node.redis && I.Good(j.node)
    ensures I.Good(j.node.(redis := P.DoCommitBootstrap(j.sys, id).redis))
  {
    hide I.Good, CasVerdict, P.Logged;
    assert j.node.(redis := j.sys.redis) == j.node;
    if id in j.sys.tasks && j.sys.tasks[id].BootConfirmed? {
      var t := j.sys.tasks[id];
      CommitKeepsNodeGood(j, j.sys.tasks - {id}, LeaderVerdict(j.sys.redis, 0, t.topology, None, t.term), 0, t.topology, None,
                          t.term, P.Bootstrap(t.coord, t.term));
    }
  }

  // ---- the control plane under the node's steps ----

  ghost predicate StoresAtMost(r: Redis, after: Redis, n: NodeId) {
    after == r || exists cp, epoch: nat :: after == AfterSave(r, cp, n, epoch)
  }

  lemma NodeStoresAtMost(s: D.State, d: D.Label)
    requires !d.OtherCommit? && !d.OtherSave?
    ensures StoresAtMost(s.redis, D.Do(s, d).redis, s.id) && D.Do(s, d).id == s.id
  {
    hide AfterSave, StoresAtMost, D.DoWriter, D.DoDrain, D.DoHost;
    match d
    case ByWriter(w, step) => WriterStoresAtMost(s, w, step);
    case ByHost(step) => HostStoresNothing(s, step);
    case ByDrain(step) => DrainStoresAtMost(s, step);
    case Look(_, _, _, _) => StoresNothing(s.redis, s.id);
  }

  lemma StoresNothing(r: Redis, n: NodeId)
    ensures StoresAtMost(r, r, n)
  {
  }

  lemma StoresOne(r: Redis, n: NodeId, cp: Checkpoint, epoch: nat)
    ensures StoresAtMost(r, AfterSave(r, cp, n, epoch), n)
  {
  }

  lemma HostStoresNothing(s: D.State, step: D.HostStep)
    ensures StoresAtMost(s.redis, D.DoHost(s, step).redis, s.id) && D.DoHost(s, step).id == s.id
  {
    hide StoresAtMost;
    StoresNothing(s.redis, s.id);
  }

  lemma WriterStoresAtMost(s: D.State, w: nat, step: D.WriterStep)
    ensures StoresAtMost(s.redis, D.DoWriter(s, w, step).redis, s.id) && D.DoWriter(s, w, step).id == s.id
  {
    hide StoresAtMost, AfterSave, D.Proceed;
    StoresNothing(s.redis, s.id);
    if !I.IsEntry(step) && w in s.writers {
      var at := s.writers[w];
      I.ProceedTouches(s, w, at, step);
      if step.SaveTick? && at.Captured? {
        StoresOne(s.redis, s.id, at.cp, at.epoch);
        SaveTickStores(s, w);
      }
    }
  }

  lemma SaveTickStores(s: D.State, w: nat)
    requires w in s.writers && s.writers[w].Captured?
    ensures var at := s.writers[w];
            D.Proceed(s, w, at, D.SaveTick).redis == AfterSave(s.redis, at.cp, s.id, at.epoch)
  {
    hide AfterSave;
  }

  lemma DrainStoresAtMost(s: D.State, step: D.DrainStep)
    ensures StoresAtMost(s.redis, D.DoDrain(s, step).redis, s.id) && D.DoDrain(s, step).id == s.id
  {
    hide StoresAtMost, D.DoPick, D.DoList, D.DoSave, D.Pickable, D.MayUnlock;
    StoresNothing(s.redis, s.id);
    if step.Pick? {
      if s.stage.Saving? { I.PickTouches(s, step.mapId, D.Pickable(s, step.mapId, step.recent, step.again, step.cp)); }
    } else if step.Save? {
      if s.stage.SavingOne? { SaveStoresOne(s); }
    } else if step.List? {
      I.ListTouches(s, step.recent);
    }
  }

  lemma SaveStoresOne(s: D.State)
    requires s.stage.SavingOne?
    ensures StoresAtMost(s.redis, D.DoSave(s).redis, s.id) && D.DoSave(s).id == s.id
  {
    hide StoresAtMost, AfterSave, CheckpointAccepted;
    StoresOne(s.redis, s.id, s.stage.kept.cp, s.stage.kept.epoch);
  }

  lemma NodeKeepsSysGood(s: P.Sys, after: Redis, n: NodeId)
    requires Good(s) && StoresAtMost(s.redis, after, n)
    ensures Good(s.(redis := after))
  {
    hide Good, AfterSave;
    assert s.(redis := s.redis) == s;
    if after != s.redis {
      var cp, epoch: nat :| after == AfterSave(s.redis, cp, n, epoch);
      SaveKeepsGood(s, n, epoch, cp);
    }
  }

  lemma {:induction false} RunsAreGood(id: NodeId, labels: seq<Label>)
    ensures JointGood(Run(id, labels), id)
  {
    if labels == [] {
      ProtocolInvariants.RunsAreGood([]);
      I.RunsAreGood(id, []);
    } else {
      hide P.Do, D.Do, Good, I.Good, StoresAtMost;
      var j, l := Run(id, labels[..|labels| - 1]), labels[|labels| - 1];
      RunsAreGood(id, labels[..|labels| - 1]);
      match l
      case Control(c) =>
        if !(c.SaveCheckpoint? && c.n == id) {
          StepKeepsGood(j.sys, c);
          ControlKeepsNodeGood(j, c);
        }
      case OnNode(d) =>
        if !d.OtherCommit? && !d.OtherSave? {
          I.StepKeepsGood(j.node, d);
          NodeStoresAtMost(j.node, d);
          NodeKeepsSysGood(j.sys, D.Do(j.node, d).redis, id);
        }
    }
  }

  // ---- what a failover reads, and promotes ----

  // The failover run `t` has chosen a standby for map m of this node, at the epoch of the node's final save.
  ghost predicate FailsOver(j: Joint, t: nat, m: MapId) {
    && m in j.node.saved && t in j.sys.tasks
    && j.sys.tasks[t].Chosen? && j.sys.tasks[t].mapId == m && j.sys.tasks[t].failed == j.node.id
    && j.sys.tasks[t].topology.EpochOf(m) == j.node.saved[m].epoch
  }

  // Its checkpoint check can only find what the final save stored, and does find it while the fence is there.
  lemma CheckFindsTheSavedWorld(id: NodeId, labels: seq<Label>, t: nat, m: MapId)
    requires FailsOver(Run(id, labels), t, m)
    ensures var j := Run(id, labels);
            var after := P.DoCheckCheckpoint(j.sys, t).tasks[t];
            && (after.Checked? ==> after.cp == j.node.saved[m].cp)
            && (m in j.sys.redis.fences && j.sys.redis.fences[m] == Json(Fence(id, j.node.saved[m].epoch)) ==> after.Checked?)
  {
    RunsAreGood(id, labels);
    hide Run, Good, I.RedisOk, I.Quiet, I.WorldsOk, I.ProgressOk;
    var j := Run(id, labels);
    hide I.Frozen, Shows;
    assert I.StillStored(j.node.redis, id, m, j.node.saved[m].epoch, j.node.saved[m].cp);
    I.KeptIsUsable(j.node.worlds, id, m, j.node.saved[m]);
  }

  // From then on the run carries that checkpoint, or has ended.
  ghost predicate Carries(s: P.Sys, t: nat, cp: Checkpoint) {
    t in s.tasks ==> (s.tasks[t].Checked? || s.tasks[t].Promoted? || s.tasks[t].Confirmed?) && s.tasks[t].cp == cp
  }

  predicate StartsAgain(l: Label, t: nat) {
    l.Control? && ((l.control.Start? && l.control.id == t) || (l.control.BootStart? && l.control.id == t))
  }

  lemma StepCarries(s: P.Sys, c: P.Label, t: nat, cp: Checkpoint)
    requires Carries(s, t, cp) && !StartsAgain(Control(c), t)
    ensures Carries(P.Do(s, c), t, cp)
  {
    hide CasVerdict, CasEffect, AfterSave, Load, UsableCheckpoint, P.IsInitial;
  }

  lemma {:induction false} RunCarries(id: NodeId, labels: seq<Label>, more: seq<Label>, t: nat, cp: Checkpoint)
    requires Carries(Run(id, labels).sys, t, cp) && forall l | l in more :: !StartsAgain(l, t)
    ensures Carries(Run(id, labels + more).sys, t, cp)
  {
    if more == [] {
      assert labels + more == labels;
    } else {
      hide P.Do, D.Do, Carries;
      var last, all := |more| - 1, labels + more;
      assert all[..|all| - 1] == labels + more[..last] && all[|all| - 1] == more[last];
      assert more[last] in more && forall l | l in more[..last] :: l in more;
      RunCarries(id, labels, more[..last], t, cp);
      var j := Run(id, labels + more[..last]);
      match more[last]
      case Control(c) => StepCarries(j.sys, c, t, cp);
      case OnNode(d) => TasksCarry(j.sys, D.Do(j.node, d).redis, t, cp);
    }
  }

  lemma TasksCarry(s: P.Sys, r: Redis, t: nat, cp: Checkpoint)
    requires Carries(s, t, cp)
    ensures Carries(s.(redis := r), t, cp)
  {
  }

  // So the standby is promoted from exactly the saved checkpoint.
  lemma FailoverPromotesTheSavedWorld(id: NodeId, labels: seq<Label>, t: nat, m: MapId, more: seq<Label>, replied: bool)
    requires FailsOver(Run(id, labels), t, m) && forall l | l in more :: !StartsAgain(l, t)
    requires P.DoCheckCheckpoint(Run(id, labels).sys, t).tasks[t].Checked?
    ensures var before := Run(id, labels + [Control(P.CheckCheckpoint(t))] + more).sys;
            var after := P.DoPromote(before, t, replied);
            after.promotions != before.promotions ==>
              && after.promotions == before.promotions + [after.promotions[|before.promotions|]]
              && after.promotions[|before.promotions|].cp == Run(id, labels).node.saved[m].cp
  {
    var j, check := Run(id, labels), Control(P.CheckCheckpoint(t));
    CheckFindsTheSavedWorld(id, labels, t, m);
    assert (labels + [check])[..|labels|] == labels;
    assert Run(id, labels + [check]).sys == P.DoCheckCheckpoint(j.sys, t);
    hide Run;
    RunCarries(id, labels + [check], more, t, j.node.saved[m].cp);
  }

  // ---- the promoted world is the drained one ----

  lemma StepFreezes(j: Joint, l: Label, id: NodeId, world: nat, since: W.World)
    requires JointGood(j, id) && j.node.draining && I.Frozen(j.node.worlds, world, since)
    ensures Do(j, l).node.draining && I.Frozen(Do(j, l).node.worlds, world, since)
  {
    hide P.Do, D.Do, I.Frozen, Good, I.RedisOk, I.WorldsOk, I.SavedOk, I.ProgressOk;
    if l.OnNode? { T.DrainingStepFreezes(j.node, l.own, world, since); }
  }

  lemma {:induction false} SavedStaysFrozen(id: NodeId, labels: seq<Label>, m: MapId, more: seq<Label>)
    requires m in Run(id, labels).node.saved
    ensures var kept, after := Run(id, labels).node.saved[m], Run(id, labels + more).node;
            after.draining && I.Frozen(after.worlds, kept.world, kept.shot)
  {
    hide Do, I.Frozen, Shows, Good, I.StillStored;
    RunsAreGood(id, labels);
    if more == [] {
      assert labels + more == labels;
      assert I.KeptOk(Run(id, labels).node.worlds, id, m, Run(id, labels).node.saved[m]);
    } else {
      hide I.Good;
      var last, all := |more| - 1, labels + more;
      assert all[..|all| - 1] == labels + more[..last] && all[|all| - 1] == more[last];
      SavedStaysFrozen(id, labels, m, more[..last]);
      RunsAreGood(id, labels + more[..last]);
      StepFreezes(Run(id, labels + more[..last]), more[last], id, Run(id, labels).node.saved[m].world, Run(id, labels).node.saved[m].shot);
    }
  }

  // Restoring the saved checkpoint, on whatever world of that map, gives the drained node's world as it stands at any
  // later moment: terrain, NPCs and treasures are the same, the players are the same people, and each one who was up
  // at the capture is the same but for potions that were used up and the times. Who was down at the capture is down
  // without a respawn time, so for good unless it leaves or joins, even where the drained world has brought it back.
  lemma PromotedWorldIsTheDrainedOne(id: NodeId, labels: seq<Label>, m: MapId, more: seq<Label>, start: W.World, now: nat)
    requires m in Run(id, labels).node.saved && start.cfg == Run(id, labels).node.saved[m].shot.cfg
    ensures var kept, after := Run(id, labels).node.saved[m], Run(id, labels + more).node;
            && kept.world < |after.worlds|
            && var w, r := after.worlds[kept.world], C.Restored(start, kept.cp, now);
               && r.cfg == w.cfg && r.npcs == w.npcs && r.treasures == w.treasures && r.players.Keys == w.players.Keys
               && w.players.Keys == kept.shot.players.Keys && (w.terrain != [] ==> r.terrain == w.terrain)
               && (forall u | u in w.players && kept.shot.players[u].alive :: r.players[u] == C.Carried(w.players[u], now))
               && forall u | u in w.players && !kept.shot.players[u].alive ::
                 r.players[u] == C.Carried(kept.shot.players[u], now) && DownForGood(r, u)
  {
    var kept := Run(id, labels).node.saved[m];
    SavedStaysFrozen(id, labels, m, more);
    assert Shows(kept.shot, id, kept.epoch, kept.cp) && kept.cp.version > 0 by { SavedIsShown(id, labels, m); }
    hide Run, I.Good;
    RestoredShot(kept.shot, Run(id, labels + more).node.worlds[kept.world], id, kept.epoch, kept.cp, start, now);
  }

  lemma SavedIsShown(id: NodeId, labels: seq<Label>, m: MapId)
    requires m in Run(id, labels).node.saved
    ensures var kept := Run(id, labels).node.saved[m];
            Shows(kept.shot, id, kept.epoch, kept.cp) && kept.cp.version > 0
  {
    hide Run, Shows, I.Frozen, I.StillStored, Good;
    RunsAreGood(id, labels);
    assert I.KeptOk(Run(id, labels).node.worlds, id, m, Run(id, labels).node.saved[m]);
  }

  lemma RestoredShot(shot: W.World, w: W.World, id: NodeId, epoch: nat, cp: Checkpoint, start: W.World, now: nat)
    requires Shows(shot, id, epoch, cp) && cp.version > 0 && RespawnedSince(shot, w) && start.cfg == shot.cfg
    ensures var r := C.Restored(start, cp, now);
            && r.cfg == w.cfg && r.npcs == w.npcs && r.treasures == w.treasures && r.players.Keys == w.players.Keys
            && w.players.Keys == shot.players.Keys
            && (w.terrain != [] ==> r.terrain == w.terrain)
            && (forall u | u in w.players && shot.players[u].alive :: r.players[u] == C.Carried(w.players[u], now))
            && forall u | u in w.players && !shot.players[u].alive ::
              r.players[u] == C.Carried(shot.players[u], now) && DownForGood(r, u)
  {
    var taken: nat :| IsShot(shot, taken, cp);
    var steps: seq<W.Step> :| OnlyRespawns(steps) && w == W.Run(shot, steps);
    assert shot.version != 0;
    C.CaptureThenRestore(shot, start, cp, taken, now);
    T.RespawnsTouchPlayers(shot, steps);
    forall u | u in shot.players ensures shot.players[u].username == u {
      assert C.UserOf(C.Views(shot.players, taken)[u]) == u;
    }
  }
}
