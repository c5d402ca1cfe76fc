/**
 Two runs at the drain's limits. A tick works on the worlds it copied before the checks: one that was replaced
 meanwhile can still be stored. A final save that finds the cache stale at a map's turn passes the map by.
 */
module DrainLimits {
  import opened Text
  import opened Topologies
  import opened Stores
  import opened Nodes
  import opened Drains
  import opened DrainInvariants
  import opened Authorities
  import W = Worlds
  import C = WorldCheckpoint

  const OURS := "b"
  const BEFORE := Topology(1, 0, map["m" := "a"], map["m" := 1], 1)
  const AFTER := Topology(2, 0, map["m" := "b"], map["m" := 2], 1)

  // An old world of the map, the checkpoint of another owner that the node is promoted from, a step of the tick on
  // the old world, and a capture after it.
  datatype Story = Story(before: W.World, promoted: Checkpoint, start: W.World, step: W.Step, shot: Checkpoint)

  ghost predicate Told(x: Story) {
    && Started(x.before, "m") && x.start.cfg.id == "m" && PromotableCheckpoint(x.promoted, "m", 2)
    && Shows(W.Do(x.before, x.step), OURS, 2, x.shot)
  }

  // The node hosts the old world, is promoted and becomes the owner; a tick that copied the old world before then
  // runs its turn.
  function Labels(x: Story): seq<Label> {
    [ByHost(Host("m", x.before)), ByWriter(0, CopyMap("m")), OtherCommit(0, BEFORE, None, 0), ByHost(RefreshCache(BEFORE)),
     ByHost(BeginPromote(0, "m", x.promoted, 2, true)), ByHost(InstallPromote(0, x.start, 1)), OtherCommit(1, AFTER, None, 0),
     ByHost(RefreshCache(AFTER)), ByWriter(0, EnterTick), ByWriter(0, CheckDraining), ByWriter(0, CheckCache("m", 2, true)),
     ByWriter(0, CheckFence), ByWriter(0, Write(x.step)), ByWriter(0, Capture(x.shot)), ByWriter(0, SaveTick)]
  }

  const HELD := Some(Held("m", 0))

  function WriterAt(x: Story, k: nat): Writer {
    if k == 9 then Entered(HELD) else if k == 10 then Undrained(HELD) else if k == 11 then Cached("m", 2, HELD)
    else if k == 14 then Captured("m", 2, x.shot, HELD) else Admitted("m", 2, HELD)
  }

  function RedisAt(x: Story, k: nat): Redis {
    if k < 3 then EMPTY_REDIS
    else if k < 7 then EMPTY_REDIS.(topology := Some(Json(BEFORE)), fences := map["m" := Json(Fence("a", 1))])
    else
      EMPTY_REDIS.(topology := Some(Json(AFTER)), fences := map["m" := Json(Fence("b", 2))],
                   checkpoints := if k < 15 then map[] else map["m" := Json(x.shot)])
  }

  ghost function At(x: Story, k: nat): State {
    Init(OURS).(
      redis := RedisAt(x, k),
      cache := if k < 4 then None else if k < 8 then Some(BEFORE) else Some(AFTER),
      worlds := (if k == 0 then [] else if k < 13 then [x.before] else [W.Do(x.before, x.step)])
                + (if k < 6 then [] else [C.Restored(x.start, x.promoted, 1)]),
      maps := if k == 0 then map[] else if k < 6 then map["m" := 0] else map["m" := 1],
      copies := if k < 2 then map[] else map[0 := Held("m", 0)],
      promoting := if k == 5 then map[0 := Promised("m", x.promoted)] else map[],
      writers := if k < 9 then map[] else map[0 := WriterAt(x, k)])
  }

  lemma Hosting(x: Story, k: nat)
    requires Told(x) && (k == 0 || k == 1)
    ensures Do(At(x, k), Labels(x)[k]) == At(x, k + 1)
  {
    hide AfterCas, AfterSave, Proceed, RedisAt, W.Do, C.Restored, Shows;
    assert RedisAt(x, k) == EMPTY_REDIS == RedisAt(x, k + 1) by { EmptyBefore(x, k); EmptyBefore(x, k + 1); }
  }

  lemma EmptyBefore(x: Story, k: nat)
    requires k < 3
    ensures RedisAt(x, k) == EMPTY_REDIS
  {
  }

  lemma Refreshing(x: Story, k: nat)
    requires k == 3 || k == 7
    ensures Do(At(x, k), Labels(x)[k]) == At(x, k + 1)
  {
    hide AfterCas, AfterSave, Proceed, W.Do, C.Restored;
  }

  lemma Promoting(x: Story)
    requires Told(x)
    ensures Do(At(x, 4), Labels(x)[4]) == At(x, 5)
  {
    hide AfterCas, AfterSave, Proceed, W.Do, C.Restored, Shows;
  }

  lemma Installing(x: Story)
    requires Told(x)
    ensures Do(At(x, 5), Labels(x)[5]) == At(x, 6)
  {
    hide AfterCas, AfterSave, Proceed, W.Do, C.Restored, Shows;
    assert At(x, 5).promoting - {0} == map[];
  }

  lemma BothSave(x: Story)
    ensures CasVerdict(RedisAt(x, 2), 0, BEFORE, None, 0).Saved? && CasVerdict(RedisAt(x, 6), 1, AFTER, None, 0).Saved?
  {
    assert Legal("m") && Legal("a") && Legal("b") && Valid(BEFORE, None) && Valid(AFTER, None);
    hide Valid;
    assert EpochKept(BEFORE, AFTER, "m");
  }

  lemma BothCommit(x: Story)
    ensures AfterCas(RedisAt(x, 2), 0, BEFORE, None, 0) == RedisAt(x, 3)
    ensures AfterCas(RedisAt(x, 6), 1, AFTER, None, 0) == RedisAt(x, 7)
  {
    BothSave(x);
    hide Valid, CasVerdict;
    assert WithFences(map[], BEFORE) == map["m" := Json(Fence("a", 1))];
    assert WithFences(RedisAt(x, 6).fences, AFTER) == map["m" := Json(Fence("b", 2))];
  }

  lemma Committing(x: Story, k: nat)
    requires k == 2 || k == 6
    ensures Do(At(x, k), Labels(x)[k]) == At(x, k + 1)
  {
    hide AfterCas, RedisAt, W.Do, C.Restored, DoWriter, DoHost, DoDrain;
    BothCommit(x);
  }

  lemma Entering(x: Story, k: nat)
    requires 8 <= k < 12
    ensures Do(At(x, k), Labels(x)[k]) == At(x, k + 1)
  {
    hide AfterCas, AfterSave, DoSaveTick, DoLookUp, W.Do, C.Restored, Shows;
  }

  lemma Writing(x: Story)
    ensures Do(At(x, 12), Labels(x)[12]) == At(x, 13)
  {
    hide AfterCas, AfterSave, W.Do, C.Restored, Shows;
    assert Stepped(At(x, 12).worlds, 0, x.step) == At(x, 13).worlds;
  }

  lemma Capturing(x: Story)
    requires Told(x)
    ensures Do(At(x, 13), Labels(x)[13]) == At(x, 14)
  {
    hide AfterCas, AfterSave, W.Do, C.Restored, Shows;
  }

  lemma ShotIsOfTheMap(x: Story)
    requires Told(x)
    ensures x.shot.mapId == "m" && x.shot.version == W.Do(x.before, x.step).version
  {
    hide W.Do;
    StepKeepsConfig(x.before, x.step);
  }

  lemma Storing(x: Story)
    requires Told(x)
    ensures Do(At(x, 14), Labels(x)[14]) == At(x, 15)
  {
    ShotIsOfTheMap(x);
    assert x.shot.nodeId == OURS && x.shot.mapEpoch == 2;
    assert AfterSave(RedisAt(x, 14), x.shot, OURS, 2) == RedisAt(x, 15);
    hide AfterCas, AfterSave, RedisAt, W.Do, C.Restored, Shows;
  }

  lemma StepAt(x: Story, k: nat)
    requires Told(x) && k < 15
    ensures |Labels(x)| == 15 && Do(At(x, k), Labels(x)[k]) == At(x, k + 1)
  {
    hide Do, At, Told;
    if k <= 1 { Hosting(x, k); } else if k == 2 || k == 6 { Committing(x, k); } else if k == 3 || k == 7 { Refreshing(x, k); }
    else if k == 4 { Promoting(x); } else if k == 5 { Installing(x); } else if k <= 11 { Entering(x, k); }
    else if k == 12 { Writing(x); } else if k == 13 { Capturing(x); } else { Storing(x); }
  }

  lemma StartAt(x: Story)
    ensures |Labels(x)| == 15 && At(x, 0) == Init(OURS)
  {
  }

  lemma {:induction false} RunAt(x: Story, k: nat)
    requires Told(x) && k <= 15
    ensures |Labels(x)| == 15 && Run(OURS, Labels(x)[..k]) == At(x, k)
  {
    hide Do, At, Told, Labels;
    StartAt(x);
    if k > 0 {
      RunAt(x, k - 1);
      StepAt(x, k - 1);
      assert Labels(x)[..k][..k - 1] == Labels(x)[..k - 1] && Labels(x)[..k][k - 1] == Labels(x)[k - 1];
    }
  }

  // At the new epoch the stored checkpoint lists the replaced world, and not the hosted one, which was restored from
  // the checkpoint of the promotion.
  lemma TickStoresAReplacedWorld(x: Story)
    requires Told(x)
    ensures var s := Run(OURS, Labels(x));
            && s.maps == map["m" := 1] && s.worlds == [W.Do(x.before, x.step), C.Restored(x.start, x.promoted, 1)]
            && s.redis.checkpoints == map["m" := Json(x.shot)] && Shows(s.worlds[0], OURS, 2, x.shot)
            && (W.Do(x.before, x.step).version != x.promoted.version ==> !Shows(s.worlds[1], OURS, 2, x.shot))
  {
    hide Run, W.Do;
    RunAt(x, 15);
    assert Labels(x)[..15] == Labels(x);
    ShotIsOfTheMap(x);
  }

  // ---- a turn that passes an owned map by ----

  const DRAINING := [ByDrain(Lock), ByDrain(Flag), ByDrain(List(true))]

  function StaleTurn(cp: Checkpoint): seq<Label> { DRAINING + [ByDrain(Pick("m", false, false, cp)), ByDrain(Unlock)] }

  ghost function DrainedTo(x: Story, k: nat): State {
    At(x, 8).(
      draining := k > 1,
      stage := if k == 1 then Locked else if k == 2 then Flagged(true) else if k == 3 then Saving({"m"})
               else if k == 4 then Saving({}) else Idle,
      listed := if k < 3 then None else Some({"m"}),
      skipped := if k < 4 then {} else {"m"},
      passed := k > 4)
  }

  lemma StaleTurnStep(x: Story, cp: Checkpoint, k: nat)
    requires k < 5
    ensures Do(DrainedTo(x, k), StaleTurn(cp)[k]) == DrainedTo(x, k + 1)
  {
    hide W.Do, C.Restored, Shows, AfterSave;
    if k == 2 { assert OwnedMaps(DrainedTo(x, 2)) == {"m"}; }
    if k == 3 { assert {"m"} - {"m"} == {}; }
  }

  lemma {:induction false} StaleTurnRun(x: Story, cp: Checkpoint, k: nat)
    requires Told(x) && k <= 5
    ensures Run(OURS, Labels(x)[..8] + StaleTurn(cp)[..k]) == DrainedTo(x, k)
  {
    hide Do, Told, DrainedTo;
    var labels := Labels(x)[..8] + StaleTurn(cp)[..k];
    if k == 0 {
      RunAt(x, 8);
      assert labels == Labels(x)[..8];
      StartOfDrain(x);
    } else {
      StaleTurnRun(x, cp, k - 1);
      assert labels[..|labels| - 1] == Labels(x)[..8] + StaleTurn(cp)[..k - 1] && labels[|labels| - 1] == StaleTurn(cp)[k - 1];
      StaleTurnStep(x, cp, k - 1);
    }
  }

  lemma StartOfDrain(x: Story)
    ensures DrainedTo(x, 0) == At(x, 8)
  {
  }

  // The cache is fresh for the list and stale at the map's turn: the drain passes without an error, and the map, which
  // the node owns, hosts and holds the fence of, has no checkpoint at all.
  lemma StaleTurnPassesUnsaved(x: Story, cp: Checkpoint)
    requires Told(x)
    ensures var s := Run(OURS, Labels(x)[..8] + StaleTurn(cp));
            && s.passed && !s.failed && s.listed == Some({"m"}) && s.saved == map[] && s.redis.checkpoints == map[]
            && "m" in s.maps && OwnsAt(s, "m", true) && FenceHolds(s.redis, "m", OURS, s.cache.value.EpochOf("m"))
  {
    StaleTurnRun(x, cp, 5);
    assert StaleTurn(cp)[..5] == StaleTurn(cp);
    hide Run;
  }

  // ---- exactly when a copied world is still the hosted one ----

  // The host steps that take a map's world away or put another in its place.
  predicate Replaces(s: State, l: Label, m: MapId) {
    l.ByHost? &&
    ((l.host.Unhost? && l.host.mapId == m)
     || (l.host.InstallPromote? && l.host.p in s.promoting
         && s.promoting[l.host.p].mapId == m == l.host.start.cfg.id))
  }

  ghost predicate NeverReplaced(id: NodeId, labels: seq<Label>, more: seq<Label>, m: MapId) {
    forall i | 0 <= i < |more| :: !Replaces(Run(id, labels + more[..i]), more[i], m)
  }

  ghost predicate Hosts(s: State, m: MapId, world: nat) { m in s.maps && s.maps[m] == world }

  // A world that is not hosted any more never is again: new worlds are new.
  lemma StepHosts(s: State, l: Label, m: MapId, world: nat)
    requires world < |s.worlds| && WorldsOk(s)
    ensures world < |Do(s, l).worlds|
    ensures Hosts(Do(s, l), m, world) <==> Hosts(s, m, world) && !Replaces(s, l, m)
  {
    hide WorldsOk;
    if l.ByHost? {
      HostStepHosts(s, l.host, m, world);
      hide DoHost, Hosts, Replaces;
    } else {
      OthersKeepMaps(s, l);
      hide Do;
    }
  }

  ghost predicate SameMaps(s: State, t: State) { t.maps == s.maps && |t.worlds| == |s.worlds| }

  lemma OthersKeepMaps(s: State, l: Label)
    requires !l.ByHost?
    ensures SameMaps(s, Do(s, l))
  {
    hide SameMaps, DoWriter, DoHost, DoDrain, AfterCas, AfterSave, Stepped;
    match l
    case ByWriter(w, step) => WritersKeepMaps(s, w, step);
    case ByDrain(step) => DrainKeepsMaps(s, step);
    case OtherCommit(expected, next, mig, term) => StoreKeepsMaps(s, AfterCas(s.redis, expected, next, mig, term));
    case OtherSave(n, cp, epoch) => StoreKeepsMaps(s, s.redis); StoreKeepsMaps(s, AfterSave(s.redis, cp, n, epoch));
    case Look(world, u, now, c) =>
      StoreKeepsMaps(s, s.redis);
      if world < |s.worlds| { LookKeepsMaps(s, Stepped(s.worlds, world, W.Refresh(u, now, c))); }
  }

  lemma StoreKeepsMaps(s: State, r: Redis)
    ensures SameMaps(s, s.(redis := r)) && s.(redis := s.redis) == s
  {
  }

  lemma LookKeepsMaps(s: State, worlds: seq<W.World>)
    requires |worlds| == |s.worlds|
    ensures SameMaps(s, s.(worlds := worlds))
  {
  }

  lemma WritersKeepMaps(s: State, w: nat, step: WriterStep)
    ensures SameMaps(s, DoWriter(s, w, step))
  {
    hide Proceed;
    if !IsEntry(step) && w in s.writers { ProceedTouches(s, w, s.writers[w], step); }
  }

  lemma DrainKeepsMaps(s: State, step: DrainStep)
    ensures SameMaps(s, DoDrain(s, step))
  {
    DrainStepsTouchNoWorld(s, step);
    hide DoDrain;
  }

  lemma NewWorldHosts(s: State, n: MapId, start: W.World, m: MapId, world: nat)
    requires world < |s.worlds|
    ensures world < |NewWorld(s, n, start).worlds|
    ensures Hosts(NewWorld(s, n, start), m, world) <==> Hosts(s, m, world) && n != m
  {
  }

  lemma HostStepHosts(s: State, step: HostStep, m: MapId, world: nat)
    requires world < |s.worlds|
    ensures world < |DoHost(s, step).worlds|
    ensures Hosts(DoHost(s, step), m, world) <==> Hosts(s, m, world) && !Replaces(s, ByHost(step), m)
  {
    hide NewWorld;
    match step
    case Host(n, start) => NewWorldHosts(s, n, start, m, world);
    case InstallPromote(p, start, now) =>
      if p in s.promoting { NewWorldHosts(s, s.promoting[p].mapId, C.Restored(start, s.promoting[p].cp, now), m, world); }
    case _ =>
  }

  lemma RunWorldsOk(id: NodeId, labels: seq<Label>)
    ensures WorldsOk(Run(id, labels))
  {
    hide Run, RedisOk, Quiet, SavedOk, ProgressOk, WorldsOk;
    RunsAreGood(id, labels);
  }

  lemma {:induction false} CopyIsHostedIff(id: NodeId, labels: seq<Label>, more: seq<Label>, m: MapId)
    requires m in Run(id, labels).maps
    ensures Run(id, labels).maps[m] < |Run(id, labels + more).worlds|
    ensures Hosts(Run(id, labels + more), m, Run(id, labels).maps[m]) <==> NeverReplaced(id, labels, more, m)
  {
    RunWorldsOk(id, labels);
    hide Do;
    if more == [] {
      assert labels + more == labels;
    } else {
      hide Replaces, WorldsOk, Hosts, NeverReplaced;
      var last, all := |more| - 1, labels + more;
      assert all[..|all| - 1] == labels + more[..last] && all[|all| - 1] == more[last];
      CopyIsHostedIff(id, labels, more[..last], m);
      RunWorldsOk(id, labels + more[..last]);
      StepHosts(Run(id, labels + more[..last]), more[last], m, Run(id, labels).maps[m]);
      assert Run(id, all) == Do(Run(id, labels + more[..last]), more[last]);
      NeverReplacedLast(id, labels, more, m);
    }
  }

  lemma NeverReplacedLast(id: NodeId, labels: seq<Label>, more: seq<Label>, m: MapId)
    requires more != []
    ensures var last := |more| - 1;
            NeverReplaced(id, labels, more, m) <==>
              NeverReplaced(id, labels, more[..last], m) && !Replaces(Run(id, labels + more[..last]), more[last], m)
  {
    hide Run, Replaces;
    var last := |more| - 1;
    var before := more[..last];
    assert forall i | 0 <= i < last :: before[..i] == more[..i] && before[i] == more[i];
    if NeverReplaced(id, labels, before, m) && !Replaces(Run(id, labels + before), more[last], m) {
      forall i | 0 <= i < |more| ensures !Replaces(Run(id, labels + more[..i]), more[i], m) {
        if i < last { assert !Replaces(Run(id, labels + before[..i]), before[i], m); }
      }
    }
    if NeverReplaced(id, labels, more, m) {
      forall i | 0 <= i < last ensures !Replaces(Run(id, labels + before[..i]), before[i], m) {
        assert !Replaces(Run(id, labels + more[..i]), more[i], m);
      }
    }
  }
}
