/** What a drain promises, over all interleavings. */
module DrainTheorems {
  import opened Text
  import opened Topologies
  import opened Stores
  import opened Authorities
  import opened Coordinators
  import opened Nodes
  import ProtocolInvariants
  import opened Drains
  import opened DrainInvariants
  import W = Worlds

  // From the moment BeginDrain holds drainMu no guarded write is admitted, and none ever again once it has set
  // the flag.
  lemma NoWriteDuringOrAfterDrain(id: NodeId, labels: seq<Label>, w: nat)
    ensures var s := Run(id, labels);
            (!s.stage.Idle? || s.draining) && w in s.writers ==> s.writers[w].Entered? && s.stage.Idle?
  {
    hide Do;
    RunsAreGood(id, labels);
  }

  // A world of a draining node, hosted or not, whoever holds it, only sees players respawn.
  lemma {:induction false} DrainedWorldsAreFrozen(id: NodeId, labels: seq<Label>, more: seq<Label>, world: nat)
    ensures var s, t := Run(id, labels), Run(id, labels + more);
            s.draining && world < |s.worlds| ==> t.draining && Frozen(t.worlds, world, s.worlds[world])
  {
    hide Do, Good, RespawnedSince;
    if more == [] {
      assert labels + more == labels;
      if world < |Run(id, labels).worlds| { NotYetRespawned(Run(id, labels).worlds[world]); }
    } else {
      var last := |more| - 1;
      var all := labels + more;
      assert all[..|all| - 1] == labels + more[..last] && all[|all| - 1] == more[last];
      DrainedWorldsAreFrozen(id, labels, more[..last], world);
      GoodIsQuiet(id, labels + more[..last]);
      if Run(id, labels).draining && world < |Run(id, labels).worlds| {
        DrainingStepFreezes(Run(id, labels + more[..last]), more[last], world, Run(id, labels).worlds[world]);
      }
    }
  }

  lemma GoodIsQuiet(id: NodeId, labels: seq<Label>)
    ensures Quiet(Run(id, labels))
  {
    hide Do;
    RunsAreGood(id, labels);
  }

  lemma DrainingStepFreezes(s: State, l: Label, world: nat, since: W.World)
    requires Quiet(s) && s.draining && Frozen(s.worlds, world, since)
    ensures var t := Do(s, l); t.draining && Frozen(t.worlds, world, since)
  {
    hide DoWriter, DoHost, DoDrain, AfterSave, AfterCas, RespawnedSince, Stepped;
    match l
    case ByWriter(w, step) => DrainingWritersAreIdle(s, w, step);
    case ByHost(step) => HostingOnlyAdds(s, step);
    case ByDrain(step) => DrainStepsTouchNoWorld(s, step);
    case Look(at, u, now, c) => if at < |s.worlds| { LookFreezes(s.worlds, at, W.Refresh(u, now, c), world, since); }
    case _ =>
  }

  // The final save stored the map's world: the checkpoint lists it with every guarded write it ever took, from ticks
  // and commands, since after the capture the world has only seen players respawn. It stays stored until a commit
  // moves the map's fence to a later epoch.
  ghost predicate StoredInFull(s: State, m: MapId) {
    m in s.saved &&
    var Kept(epoch, world, shot, cp) := s.saved[m];
    && cp.mapId == m && Shows(shot, s.id, epoch, cp)
    && world < |s.worlds| && RespawnedSince(shot, s.worlds[world])
    && m in s.redis.fences && s.redis.fences[m].Json?
    && (s.redis.fences[m].value.epoch > epoch
        || (m in s.redis.checkpoints && s.redis.checkpoints[m] == Json(cp)))
  }

  lemma FinalSaveIncludesEveryWrite(id: NodeId, labels: seq<Label>, m: MapId)
    ensures var s := Run(id, labels); m in s.saved ==> StoredInFull(s, m)
  {
    hide Do, RespawnedSince, Shows, Run;
    RunsAreGood(id, labels);
  }

  // Those respawns touch players and the version alone.
  lemma {:induction false} RespawnsTouchPlayers(w: W.World, steps: seq<W.Step>)
    requires OnlyRespawns(steps)
    ensures var v := W.Run(w, steps);
            v == w.(players := v.players, version := v.version) && v.players.Keys == w.players.Keys
            && forall u | u in w.players :: w.players[u].alive ==> v.players[u] == w.players[u]
  {
    hide W.SafePosition;
    if steps != [] { RespawnsTouchPlayers(w, steps[..|steps| - 1]); }
  }

  // A BeginDrain that gets past its save phase has given every listed map its turn exactly when the one final save
  // did not fail: after a failure a second BeginDrain passes without saving. DrainSaves says when no turn is lost.
  lemma PassedDrainIsCoveredIffSaveSucceeded(id: NodeId, labels: seq<Label>)
    ensures var s := Run(id, labels); s.passed ==> (Covered(s) <==> !s.failed)
  {
    hide Do;
    RunsAreGood(id, labels);
  }

  lemma SecondDrainPassesUnsaved(id: NodeId)
    ensures var first := Do(Do(Do(Init(id), ByDrain(Lock)), ByDrain(Flag)), ByDrain(List(false)));
            var second := Do(Do(Do(first, ByDrain(Lock)), ByDrain(Flag)), ByDrain(Unlock));
            first.failed && second.passed && second.listed.None? && second.saved == map[]
  {
    var locked := Init(id).(stage := Locked);
    assert Do(Init(id), ByDrain(Lock)) == locked;
    var flagged := locked.(stage := Flagged(true), draining := true);
    assert Do(locked, ByDrain(Flag)) == flagged;
    assert Do(flagged, ByDrain(List(false))) == Fail(flagged);
    var again := Fail(flagged).(stage := Locked);
    assert Do(Fail(flagged), ByDrain(Lock)) == again;
    assert Do(again, ByDrain(Flag)) == again.(stage := Flagged(false));
  }

  // ---- who writes and who is promoted ----

  ghost predicate Reached(r: Redis, id: NodeId, m: MapId, epoch: nat) {
    && m in r.fences && r.fences[m].Json? && 0 < epoch <= r.fences[m].value.epoch
    && (r.fences[m].value.epoch == epoch ==> r.fences[m].value.owner == id)
  }

  ghost predicate WriterOk(r: Redis, id: NodeId, at: Writer) {
    at.Admitted? || at.Captured? ==> Reached(r, id, at.mapId, at.epoch)
  }

  ghost predicate WritersOk(s: State) { forall w | w in s.writers :: WriterOk(s.redis, s.id, s.writers[w]) }

  lemma ReachedFurther(s: State, expected: nat, next: Topology, mig: Option<Migration>, term: nat, m: MapId, epoch: nat)
    requires RedisOk(s.redis) && Reached(s.redis, s.id, m, epoch)
    ensures Reached(AfterCas(s.redis, expected, next, mig, term), s.id, m, epoch)
  {
    if CasVerdict(s.redis, expected, next, mig, term).Saved? { ProtocolInvariants.CommitKeepsFences(s.redis.fences, Stored(s.redis), next); }
  }

  lemma SaveKeepsFences(r: Redis, cp: Checkpoint, n: NodeId, epoch: nat)
    ensures AfterSave(r, cp, n, epoch).fences == r.fences
  {
  }

  ghost predicate OnlyWriter(s: State, t: State, w: nat) {
    && t.redis.fences == s.redis.fences && t.id == s.id && t.writers.Keys <= s.writers.Keys + {w}
    && forall v | v in t.writers && v != w :: v in s.writers && t.writers[v] == s.writers[v]
  }

  // Only writer w, the worlds and the checkpoints may have changed, and w is as it must be.
  ghost predicate OwnTurn(s: State, t: State, w: nat) {
    OnlyWriter(s, t, w) && (w in t.writers ==> WriterOk(s.redis, s.id, t.writers[w]))
  }

  lemma StayingIsOwnTurn(s: State, w: nat, worlds: seq<W.World>)
    requires w in s.writers ==> WriterOk(s.redis, s.id, s.writers[w])
    ensures OwnTurn(s, s, w) && OwnTurn(s, s.(worlds := worlds), w) && OwnTurn(s, Without(s, w), w)
  {
  }

  lemma MovingIsOwnTurn(s: State, w: nat, x: Writer, r: Redis)
    requires WriterOk(s.redis, s.id, x) && r.fences == s.redis.fences
    ensures OwnTurn(s, WithWriter(s, w, x), w) && OwnTurn(s, WithWriter(s, w, x).(redis := r), w)
  {
  }

  // It is admitted only where the fence names this node at that epoch.
  lemma CheckIsOwnTurn(s: State, w: nat, at: Writer, step: WriterStep)
    requires w in s.writers && s.writers[w] == at && WriterOk(s.redis, s.id, at)
    requires step.CheckDraining? || step.CheckCache? || step.CheckFence?
    ensures OwnTurn(s, Proceed(s, w, at, step), w)
  {
    StayingIsOwnTurn(s, w, s.worlds);
    hide OwnTurn, OwnsAt, WithWriter, Without;
    match step
    case CheckDraining => if at.Entered? { MovingIsOwnTurn(s, w, Undrained(at.held), s.redis); }
    case CheckCache(m, epoch, _) => if at.Undrained? { MovingIsOwnTurn(s, w, Cached(m, epoch, at.held), s.redis); }
    case CheckFence =>
      if at.Cached? && FenceHolds(s.redis, at.mapId, s.id, at.epoch) {
        MovingIsOwnTurn(s, w, Admitted(at.mapId, at.epoch, at.held), s.redis);
      }
  }

  lemma WorkIsOwnTurn(s: State, w: nat, at: Writer, step: WriterStep)
    requires w in s.writers && s.writers[w] == at && WriterOk(s.redis, s.id, at)
    requires step.LookUp? || step.Write? || step.Capture? || step.SaveTick?
    ensures OwnTurn(s, Proceed(s, w, at, step), w)
  {
    StayingIsOwnTurn(s, w, s.worlds);
    hide OwnTurn, WithWriter, Without, Shows, Stepped, AfterSave, Reached;
    match step
    case LookUp =>
      if at.Admitted? && at.mapId in s.maps { MovingIsOwnTurn(s, w, Admitted(at.mapId, at.epoch, Some(Held(at.mapId, s.maps[at.mapId]))), s.redis); }
    case Write(wstep) =>
      if at.Admitted? && HoldsWorld(s, at.held, at.mapId) { StayingIsOwnTurn(s, w, Stepped(s.worlds, at.held.value.world, wstep)); }
    case Capture(cp) => if at.Admitted? { MovingIsOwnTurn(s, w, Captured(at.mapId, at.epoch, cp, at.held), s.redis); }
    case SaveTick =>
      if at.Captured? {
        SaveKeepsFences(s.redis, at.cp, s.id, at.epoch);
        MovingIsOwnTurn(s, w, Admitted(at.mapId, at.epoch, at.held), AfterSave(s.redis, at.cp, s.id, at.epoch));
      }
  }

  lemma EntryIsOnlyWriters(s: State, w: nat, step: WriterStep)
    requires IsEntry(step)
    ensures var t := DoWriter(s, w, step);
            OnlyWriter(s, t, w) && (w in t.writers ==> t.writers[w].Entered? || (w in s.writers && t.writers[w] == s.writers[w]))
  {
    EntryEnters(s, w, step);
    hide DoWriter;
  }

  lemma WriterStepIsOk(s: State, w: nat, step: WriterStep)
    requires WritersOk(s)
    ensures WritersOk(DoWriter(s, w, step))
  {
    var t := DoWriter(s, w, step);
    if IsEntry(step) {
      EntryIsOnlyWriters(s, w, step);
      hide DoWriter;
      OneWriterIsOk(s, t, w);
    } else if w in s.writers {
      assert t == Proceed(s, w, s.writers[w], step);
      hide DoWriter, Proceed;
      assert WriterOk(s.redis, s.id, s.writers[w]);
      if step.CheckDraining? || step.CheckCache? || step.CheckFence? {
        CheckIsOwnTurn(s, w, s.writers[w], step);
      } else {
        WorkIsOwnTurn(s, w, s.writers[w], step);
      }
      OneWriterIsOk(s, t, w);
    }
  }

  lemma OneWriterIsOk(s: State, t: State, w: nat)
    requires WritersOk(s) && OnlyWriter(s, t, w)
    requires w in t.writers ==>
               (WriterOk(s.redis, s.id, t.writers[w]) || t.writers[w].Entered? || (w in s.writers && t.writers[w] == s.writers[w]))
    ensures WritersOk(t)
  {
    forall v | v in t.writers ensures WriterOk(t.redis, t.id, t.writers[v]) {
      if v in s.writers { assert WriterOk(s.redis, s.id, s.writers[v]); }
    }
  }

  lemma SameWritersAreOk(s: State, t: State)
    requires WritersOk(s) && t.writers == s.writers && t.id == s.id && t.redis.fences == s.redis.fences
    ensures WritersOk(t)
  {
    forall w | w in t.writers ensures WriterOk(t.redis, t.id, t.writers[w]) { assert WriterOk(s.redis, s.id, s.writers[w]); }
  }

  lemma HostKeepsWriters(s: State, step: HostStep)
    ensures var t := DoHost(s, step); t.writers == s.writers && t.id == s.id && t.redis == s.redis
  {
  }

  lemma DrainKeepsWriters(s: State, step: DrainStep)
    ensures var t := DoDrain(s, step); t.writers == s.writers && t.id == s.id && t.redis.fences == s.redis.fences
  {
    hide DoPick, DoList, DoSave, Pickable, MayUnlock;
    match step
    case Pick(m, recent, again, cp) => if s.stage.Saving? { PickTouches(s, m, Pickable(s, m, recent, again, cp)); }
    case List(recent) => ListTouches(s, recent);
    case Save => if s.stage.SavingOne? { SaveTurnKeepsWriters(s); }
    case _ =>
  }

  lemma SaveTurnKeepsWriters(s: State)
    requires s.stage.SavingOne?
    ensures var t := DoSave(s); t.writers == s.writers && t.id == s.id && t.redis.fences == s.redis.fences
  {
    hide AfterSave, CheckpointAccepted;
    SaveKeepsFences(s.redis, s.stage.kept.cp, s.id, s.stage.kept.epoch);
  }

  lemma StepKeepsWritersOk(s: State, l: Label)
    requires RedisOk(s.redis) && WritersOk(s)
    ensures WritersOk(Do(s, l))
  {
    hide RedisOk, WritersOk, DoWriter, DoHost, DoDrain, AfterCas, AfterSave, Stepped;
    match l
    case ByWriter(w, step) => WriterStepIsOk(s, w, step);
    case ByHost(step) =>
      HostKeepsWriters(s, step);
      SameWritersAreOk(s, DoHost(s, step));
    case ByDrain(step) =>
      DrainKeepsWriters(s, step);
      SameWritersAreOk(s, DoDrain(s, step));
    case OtherCommit(expected, next, mig, term) => CommitKeepsWritersOk(s, expected, next, mig, term);
    case OtherSave(n, cp, epoch) =>
      SaveKeepsFences(s.redis, cp, n, epoch);
      SameWritersAreOk(s, s.(redis := AfterSave(s.redis, cp, n, epoch)));
    case Look(world, u, now, c) => if world < |s.worlds| { SameWritersAreOk(s, s.(worlds := Stepped(s.worlds, world, W.Refresh(u, now, c)))); }
  }

  lemma CommitKeepsWritersOk(s: State, expected: nat, next: Topology, mig: Option<Migration>, term: nat)
    requires RedisOk(s.redis) && WritersOk(s)
    ensures WritersOk(s.(redis := AfterCas(s.redis, expected, next, mig, term)))
  {
    hide RedisOk, AfterCas, Reached;
    forall w | w in s.writers ensures WriterOk(AfterCas(s.redis, expected, next, mig, term), s.id, s.writers[w]) {
      assert WriterOk(s.redis, s.id, s.writers[w]);
      var at := s.writers[w];
      if at.Admitted? || at.Captured? { ReachedFurther(s, expected, next, mig, term, at.mapId, at.epoch); }
    }
  }

  // While it holds the lock, an admitted writer's map has been given to this node at that epoch: the fence names it, or
  // has moved on since.
  lemma {:induction false} AdmittedWriterHadTheFence(id: NodeId, labels: seq<Label>)
    ensures WritersOk(Run(id, labels))
  {
    hide Do, Good, WritersOk;
    if labels == [] {
      NoWriterIsOk(id);
    } else {
      AdmittedWriterHadTheFence(id, labels[..|labels| - 1]);
      RunsAreGood(id, labels[..|labels| - 1]);
      GoodRedis(Run(id, labels[..|labels| - 1]));
      StepKeepsWritersOk(Run(id, labels[..|labels| - 1]), labels[|labels| - 1]);
    }
  }

  lemma NoWriterIsOk(id: NodeId)
    ensures WritersOk(Init(id))
  {
  }

  lemma GoodRedis(s: State)
    requires Good(s)
    ensures RedisOk(s.redis)
  {
    hide RedisOk, Quiet, WorldsOk, SavedOk, ProgressOk;
  }

  // The checks of beginWrite, one by one: each passes only on what it is there for.
  lemma DrainCheckPasses(s: State, w: nat)
    requires w in s.writers && s.writers[w].Entered?
    ensures var t := DoWriter(s, w, CheckDraining);
            if s.draining then w !in t.writers else w in t.writers && t.writers[w] == Undrained(s.writers[w].held)
  {
  }

  lemma CacheCheckPasses(s: State, w: nat, m: MapId, epoch: nat, recent: bool)
    requires w in s.writers && s.writers[w].Undrained?
    ensures var t := DoWriter(s, w, CheckCache(m, epoch, recent));
            if recent && s.cache.Some? && m in s.cache.value.mapEpochs && s.cache.value.mapEpochs[m] == epoch > 0
               && (if m in s.cache.value.owners then s.cache.value.owners[m] else "") == s.id
            then w in t.writers && t.writers[w] == Cached(m, epoch, s.writers[w].held) else w !in t.writers
  {
  }

  lemma FenceCheckPasses(s: State, w: nat)
    requires w in s.writers && s.writers[w].Cached?
    ensures var t, at := DoWriter(s, w, CheckFence), s.writers[w];
            if at.mapId in s.redis.fences && s.redis.fences[at.mapId] == Json(Fence(s.id, at.epoch)) && at.epoch > 0
               && at.mapId != "" && s.id != ""
            then w in t.writers && t.writers[w] == Admitted(at.mapId, at.epoch, at.held) else w !in t.writers
  {
  }

  // A tick holds the very world that is hosted when it copies it, and a command the one hosted when it looks it up.
  lemma HeldWorldIsHosted(s: State, w: nat, m: MapId)
    ensures var t := DoWriter(s, w, CopyMap(m));
            m in s.maps ==> w in t.copies && t.copies[w].mapId == m && t.copies[w].world == s.maps[m]
    ensures var t := DoWriter(s, w, LookUp);
            w in s.writers && s.writers[w].Admitted? && s.writers[w].held.None? && s.writers[w].mapId in s.maps ==>
              w in t.writers && t.writers[w].Admitted? && t.writers[w].held == Some(Held(s.writers[w].mapId, s.maps[s.writers[w].mapId]))
    ensures var t := DoWriter(s, w, LookUp);
            w in s.writers && s.writers[w].Admitted? && s.writers[w].held.Some? ==> t.writers == s.writers
  {
    hide OwnsAt, FenceHolds, AfterSave, Shows, Stepped;
  }

  // A promotion begins only on a node that is not draining, for another owner's map, to the next epoch.
  lemma PromotionBeginsOnly(s: State, p: nat, m: MapId, cp: Checkpoint, target: nat, recent: bool)
    ensures var t := DoHost(s, BeginPromote(p, m, cp, target, recent));
            t.promoting != s.promoting ==>
              && !s.draining && recent && s.cache.Some? && m in s.cache.value.owners && m in s.cache.value.mapEpochs
              && s.cache.value.owners[m] != s.id && target == s.cache.value.mapEpochs[m] + 1 > 1
              && cp.mapId == m && cp.mapEpoch + 1 == target && cp.version > 0
  {
  }
}
