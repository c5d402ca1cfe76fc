/** A run of the joint system: a node is drained, its final save is stored, and a standby is promoted from it. */
module DrainExample {
  import opened Text
  import opened Topologies
  import opened Stores
  import opened Coordinators
  import opened Nodes
  import opened DrainFailover
  import P = Protocol
  import D = Drains
  import X = ProtocolExample
  import W = Worlds

  // Election, bootstrap and the standby's refresh; the node hosts the world and drains; the failover.
  function Labels(w: W.World, cp: Checkpoint): seq<Label> {
    seq(8, i requires 0 <= i < 8 => Control(X.Labels(cp)[i]))
    + Draining(w, cp)
    + seq(6, i requires 0 <= i < 6 => Control(X.Labels(cp)[9 + i]))
  }

  function Draining(w: W.World, cp: Checkpoint): seq<Label> {
    [OnNode(D.ByHost(D.Host("m", w))), OnNode(D.ByHost(D.RefreshCache(X.FIRST))), OnNode(D.ByDrain(D.Lock)),
     OnNode(D.ByDrain(D.Flag)), OnNode(D.ByDrain(D.List(true))), OnNode(D.ByDrain(D.Pick("m", true, true, cp))), OnNode(D.ByDrain(D.Save))]
  }

  function StageAt(w: W.World, cp: Checkpoint, k: nat): D.Stage {
    if k < 3 then D.Idle else if k == 3 then D.Locked else if k == 4 then D.Flagged(true) else if k == 5 then D.Saving({"m"})
    else if k == 6 then D.SavingOne({}, "m", D.Kept(1, 0, w, cp)) else D.Saving({})
  }

  function NodeAt(w: W.World, cp: Checkpoint, redis: Redis, k: nat): D.State {
    D.Init("a").(
      redis := redis,
      worlds := if k == 0 then [] else [w],
      maps := if k == 0 then map[] else map["m" := 0],
      cache := if k < 2 then None else Some(X.FIRST),
      draining := k > 3,
      stage := StageAt(w, cp, k),
      listed := if k < 5 then None else Some({"m"}),
      saved := if k < 7 then map[] else map["m" := D.Kept(1, 0, w, cp)])
  }

  function At(w: W.World, cp: Checkpoint, k: nat): Joint {
    if k <= 8 then Joint(X.At(cp, k), NodeAt(w, cp, X.RedisAt(cp, k), 0))
    else if k < 15 then Joint(X.At(cp, 8), NodeAt(w, cp, X.RedisAt(cp, 8), k - 8))
    else Joint(X.At(cp, k - 6), NodeAt(w, cp, X.RedisAt(cp, k - 6), 7))
  }

  ghost predicate Told(w: W.World, cp: Checkpoint) { D.Started(w, "m") && Shows(w, "a", 1, cp) }

  lemma ShotIsUsable(w: W.World, cp: Checkpoint)
    requires Told(w, cp)
    ensures X.Usable(cp)
  {
  }

  lemma Controlling(w: W.World, cp: Checkpoint, i: nat, drained: nat)
    requires X.Usable(cp) && i < 15 && i != 8
    ensures Do(Joint(X.At(cp, i), NodeAt(w, cp, X.RedisAt(cp, i), drained)), Control(X.Labels(cp)[i]))
            == Joint(X.At(cp, i + 1), NodeAt(w, cp, X.RedisAt(cp, i + 1), drained))
  {
    hide P.Do;
    X.StepAt(cp, i);
  }

  lemma Hosting(w: W.World, cp: Checkpoint, k: nat)
    requires D.Started(w, "m") && k < 5
    ensures D.Do(NodeAt(w, cp, X.RedisAt(cp, 8), k), Draining(w, cp)[k].own) == NodeAt(w, cp, X.RedisAt(cp, 8), k + 1)
  {
    hide X.RedisAt, AfterSave, AfterCas;
    if k == 4 { assert D.OwnedMaps(NodeAt(w, cp, X.RedisAt(cp, 8), 4)) == {"m"}; }
  }

  lemma Picking(w: W.World, cp: Checkpoint)
    requires Shows(w, "a", 1, cp)
    ensures D.Do(NodeAt(w, cp, X.RedisAt(cp, 8), 5), Draining(w, cp)[5].own) == NodeAt(w, cp, X.RedisAt(cp, 8), 6)
  {
    hide AfterSave, AfterCas, Shows;
    assert {"m"} - {"m"} == {};
  }

  lemma Saving(w: W.World, cp: Checkpoint)
    requires X.Usable(cp)
    ensures D.Do(NodeAt(w, cp, X.RedisAt(cp, 8), 6), Draining(w, cp)[6].own) == NodeAt(w, cp, X.RedisAt(cp, 9), 7)
  {
    hide AfterCas;
    assert AfterSave(X.RedisAt(cp, 8), cp, "a", 1) == X.RedisAt(cp, 9);
    hide AfterSave;
  }

  lemma OwnStep(w: W.World, cp: Checkpoint, k: nat)
    requires Told(w, cp) && k < 7
    ensures D.Do(NodeAt(w, cp, X.RedisAt(cp, 8), k), Draining(w, cp)[k].own)
            == NodeAt(w, cp, X.RedisAt(cp, if k < 6 then 8 else 9), k + 1)
  {
    ShotIsUsable(w, cp);
    hide Shows, D.Do, NodeAt, X.RedisAt, Draining;
    if k < 5 { Hosting(w, cp, k); } else if k == 5 { Picking(w, cp); } else { Saving(w, cp); }
  }

  lemma NodeStep(w: W.World, cp: Checkpoint, k: nat)
    requires Told(w, cp) && k < 7
    ensures Do(At(w, cp, 8 + k), Draining(w, cp)[k]) == At(w, cp, 9 + k)
  {
    OwnStep(w, cp, k);
    assert X.At(cp, 9) == X.At(cp, 8).(redis := X.RedisAt(cp, 9));
    hide Told, D.Do, NodeAt, X.RedisAt;
    RedisOfNode(w, cp, X.RedisAt(cp, 8), k);
    RedisOfNode(w, cp, X.RedisAt(cp, 8), k + 1);
    RedisOfNode(w, cp, X.RedisAt(cp, 9), k + 1);
  }

  lemma RedisOfNode(w: W.World, cp: Checkpoint, redis: Redis, k: nat)
    ensures NodeAt(w, cp, redis, k).redis == redis
  {
  }

  lemma {:induction false} RunAt(w: W.World, cp: Checkpoint, k: nat)
    requires Told(w, cp) && k <= 21
    ensures Run("a", Labels(w, cp)[..k]) == At(w, cp, k)
  {
    hide Do, Told, At;
    if k == 0 {
      StartsEmpty(w, cp);
    } else {
      RunAt(w, cp, k - 1);
      assert Labels(w, cp)[..k][..k - 1] == Labels(w, cp)[..k - 1] && Labels(w, cp)[..k][k - 1] == Labels(w, cp)[k - 1];
      StepAt(w, cp, k - 1);
    }
  }

  lemma StartsEmpty(w: W.World, cp: Checkpoint)
    ensures At(w, cp, 0) == Joint(P.INIT, D.Init("a"))
  {
  }

  lemma StepAt(w: W.World, cp: Checkpoint, k: nat)
    requires Told(w, cp) && k < 21
    ensures Do(At(w, cp, k), Labels(w, cp)[k]) == At(w, cp, k + 1)
  {
    ShotIsUsable(w, cp);
    hide Told, Do, NodeAt, X.At, X.RedisAt, X.Labels, Draining;
    if k < 8 { Controlling(w, cp, k, 0); } else if k < 15 { LabelIsNodes(w, cp, k - 8); NodeStep(w, cp, k - 8); }
    else { LabelIsNodes(w, cp, 0); Controlling(w, cp, k - 6, 7); }
  }

  lemma LabelIsNodes(w: W.World, cp: Checkpoint, k: nat)
    requires k < 7
    ensures |Draining(w, cp)| == 7 && Labels(w, cp)[8 + k] == Draining(w, cp)[k]
  {
  }

  // For every world of the map and every capture of it at the owner's epoch.
  lemma ADrainedWorldIsPromoted(w: W.World, cp: Checkpoint)
    requires Told(w, cp)
    ensures FailsOver(Run("a", Labels(w, cp)[..17]), 1, "m")
    ensures var j := Run("a", Labels(w, cp));
            && j.node.worlds == [w] && j.node.saved == map["m" := D.Kept(1, 0, w, cp)]
            && j.sys.promotions == [P.Promotion("b", "m", 2, cp, 1)]
            && j.sys.redis.fences == map["m" := Json(Fence("b", 2))]
  {
    hide Run, Shows;
    RunAt(w, cp, 17);
    RunAt(w, cp, 21);
    assert Labels(w, cp)[..21] == Labels(w, cp);
  }
}
