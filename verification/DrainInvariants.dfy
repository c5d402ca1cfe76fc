/** What every step of a drained node and of everybody around it keeps. */
module DrainInvariants {
  import opened Text
  import opened Topologies
  import opened Stores
  import opened Authorities
  import opened Coordinators
  import opened Nodes
  import opened ProtocolInvariants
  import opened Drains
  import W = Worlds
  import C = WorldCheckpoint
  import WorldInvariants

  function Stored(r: Redis): Topology {
    if r.topology.Some? && r.topology.value.Json? then r.topology.value.value else NO_TOPOLOGY
  }

  ghost predicate RedisOk(r: Redis) {
    && (r.topology.Some? ==> r.topology.value.Json? && r.topology.value.value.version > 0)
    && Fences(r.fences, Stored(r))
  }

  // With drainMu held nobody writes; once `draining` is set nobody gets past the first check.
  ghost predicate Quiet(s: State) {
    && (!s.stage.Idle? ==> s.writers == map[])
    && (s.draining ==> forall w | w in s.writers :: s.writers[w].Entered?)
    && (!s.stage.Idle? && !s.stage.Locked? ==> s.draining)
  }

  ghost predicate WorldsOk(s: State) {
    && (forall m | m in s.maps :: OfMap(s.worlds, s.maps[m], m))
    && (forall p | p in s.promoting :: s.promoting[p].cp.mapId == s.promoting[p].mapId && s.promoting[p].cp.version > 0)
    && (s.stage.SavingOne? ==> KeptOk(s.worlds, s.id, s.stage.mapId, s.stage.kept))
  }

  predicate OfMap(worlds: seq<W.World>, world: nat, m: MapId) {
    world < |worlds| && Started(worlds[world], m)
  }

  // Since then the world has only seen respawns of players due.
  ghost predicate Frozen(worlds: seq<W.World>, world: nat, since: W.World) {
    world < |worlds| && RespawnedSince(since, worlds[world])
  }

  ghost predicate KeptOk(worlds: seq<W.World>, id: NodeId, m: MapId, kept: Kept) {
    && Frozen(worlds, kept.world, kept.shot)
    && Shows(kept.shot, id, kept.epoch, kept.cp) && kept.cp.mapId == m && kept.cp.version > 0
  }

  // Until a commit moves the fence on, the stored checkpoint is the one saved.
  ghost predicate StillStored(r: Redis, id: NodeId, m: MapId, epoch: nat, cp: Checkpoint) {
    && m in r.fences && r.fences[m].Json? && epoch <= r.fences[m].value.epoch
    && (r.fences[m].value.epoch == epoch ==>
          && r.fences[m] == Json(Fence(id, epoch))
          && m in r.checkpoints && r.checkpoints[m] == Json(cp))
    && (HasCheckpoint(r, m, id, epoch) ==> r.checkpoints[m] == Json(cp))
  }

  ghost predicate SavedOk(s: State) {
    && (forall m | m in s.saved ::
          KeptOk(s.worlds, s.id, m, s.saved[m]) && StillStored(s.redis, s.id, m, s.saved[m].epoch, s.saved[m].cp))
    && (s.saved != map[] ==> s.draining)
  }

  function Pending(stage: Stage): set<MapId> {
    match stage
    case Saving(todo) => todo
    case SavingOne(todo, m, _) => todo + {m}
    case _ => {}
  }

  ghost predicate Covered(s: State) {
    s.listed.Some? && forall m | m in s.listed.value :: m in s.saved || m in s.skipped
  }

  // How far the one final save has come.
  ghost predicate ProgressOk(s: State) {
    && (s.stage.Saving? || s.stage.SavingOne? ==>
          && s.listed.Some? && !s.failed && !s.passed
          && Pending(s.stage) <= s.listed.value
          && (s.stage.SavingOne? ==> s.stage.mapId !in s.stage.todo)
          && forall m | m in s.listed.value :: m in s.saved || m in s.skipped <==> m !in Pending(s.stage))
    && (s.stage == Flagged(true) ==> s.listed.None? && !s.failed && !s.passed)
    && (s.stage == Flagged(false) ==> s.failed || s.passed)
    && (s.failed ==> !Covered(s))
    && (s.passed && !s.failed ==> Covered(s))
    && (s.draining && s.stage.Idle? ==> s.failed || s.passed)
    && (s.stage.Locked? && s.draining ==> s.failed || s.passed)
    && (!s.draining ==> s.listed.None? && !s.failed && !s.passed)
    && (s.listed.None? ==> s.saved == map[] && s.skipped == {})
  }

  ghost predicate Good(s: State) {
    RedisOk(s.redis) && Quiet(s) && WorldsOk(s) && SavedOk(s) && ProgressOk(s)
  }

  // What Good asks of the store alone.
  ghost predicate StoreOk(s: State, r: Redis) {
    RedisOk(r) && forall m | m in s.saved :: StillStored(r, s.id, m, s.saved[m].epoch, s.saved[m].cp)
  }

  lemma NewStoreKeepsGood(s: State, r: Redis)
    requires Good(s) && StoreOk(s, r)
    ensures Good(s.(redis := r))
  {
    hide RedisOk, StillStored, KeptOk, OfMap;
  }

  lemma GoodStore(s: State)
    requires Good(s)
    ensures StoreOk(s, s.redis)
  {
    hide RedisOk, StillStored, KeptOk, Quiet, WorldsOk, ProgressOk;
  }

  lemma OtherCommitKeepsGood(s: State, expected: nat, next: Topology, mig: Option<Migration>, term: nat)
    requires Good(s)
    ensures Good(s.(redis := AfterCas(s.redis, expected, next, mig, term)))
  {
    hide Good;
    GoodStore(s);
    CommitKeepsStoreOk(s, expected, next, mig, term);
    NewStoreKeepsGood(s, AfterCas(s.redis, expected, next, mig, term));
  }

  lemma CommitKeepsStoreOk(s: State, expected: nat, next: Topology, mig: Option<Migration>, term: nat)
    requires StoreOk(s, s.redis)
    ensures StoreOk(s, AfterCas(s.redis, expected, next, mig, term))
  {
    if CasVerdict(s.redis, expected, next, mig, term).Saved? {
      CommitKeepsFences(s.redis.fences, Stored(s.redis), next);
    }
  }

  lemma SaveKeepsRedis(r: Redis, cp: Checkpoint, n: NodeId, epoch: nat)
    requires RedisOk(r)
    ensures RedisOk(AfterSave(r, cp, n, epoch))
  {
  }

  lemma OtherSaveKeepsStoreOk(s: State, n: NodeId, cp: Checkpoint, epoch: nat)
    requires StoreOk(s, s.redis) && n != s.id
    ensures StoreOk(s, AfterSave(s.redis, cp, n, epoch))
  {
    hide RedisOk;
    SaveKeepsRedis(s.redis, cp, n, epoch);
  }

  lemma OtherSaveKeepsGood(s: State, n: NodeId, cp: Checkpoint, epoch: nat)
    requires Good(s) && n != s.id
    ensures Good(s.(redis := AfterSave(s.redis, cp, n, epoch)))
  {
    hide Good;
    GoodStore(s);
    OtherSaveKeepsStoreOk(s, n, cp, epoch);
    NewStoreKeepsGood(s, AfterSave(s.redis, cp, n, epoch));
  }

  lemma DrainSaveKeepsGood(s: State)
    requires Good(s) && s.stage.SavingOne?
    ensures Good(DoSave(s))
  {
    DrainSaveKeepsSaved(s);
    DrainSaveKeepsProgress(s);
  }

  lemma DrainSaveKeepsSaved(s: State)
    requires Good(s) && s.stage.SavingOne?
    ensures SavedOk(DoSave(s)) && RedisOk(DoSave(s).redis)
  {
    hide ProgressOk, KeptOk;
    var s', kept := DoSave(s), s.stage.kept;
    assert kept.cp.mapId == s.stage.mapId by { KeptIsUsable(s.worlds, s.id, s.stage.mapId, kept); }
    forall m | m in s'.saved
      ensures KeptOk(s'.worlds, s'.id, m, s'.saved[m]) && StillStored(s'.redis, s'.id, m, s'.saved[m].epoch, s'.saved[m].cp)
    {
      if m != s.stage.mapId { assert StillStored(s.redis, s.id, m, s.saved[m].epoch, s.saved[m].cp); }
    }
  }

  lemma KeptIsUsable(worlds: seq<W.World>, id: NodeId, m: MapId, kept: Kept)
    requires KeptOk(worlds, id, m, kept)
    ensures UsableCheckpoint(kept.cp, m, id, kept.epoch)
  {
  }

  lemma DrainSaveKeepsProgress(s: State)
    requires Good(s) && s.stage.SavingOne?
    ensures ProgressOk(DoSave(s))
  {
    hide SavedOk, RedisOk, WorldsOk;
  }

  lemma DrainPickKeepsGood(s: State, m: MapId, recent: bool, again: bool, cp: Checkpoint)
    requires Good(s) && s.stage.Saving? && m in s.stage.todo
    ensures Good(DoPick(s, m, Pickable(s, m, recent, again, cp)))
  {
    hide RedisOk, StillStored, Shows, RespawnedSince;
    if Pickable(s, m, recent, again, cp).Captures? { PickedIsKept(s, m, recent, again, cp); }
  }

  lemma PickedIsKept(s: State, m: MapId, recent: bool, again: bool, cp: Checkpoint)
    requires WorldsOk(s) && Pickable(s, m, recent, again, cp).Captures?
    ensures KeptOk(s.worlds, s.id, m, Pickable(s, m, recent, again, cp).kept)
  {
    NotYetRespawned(s.worlds[s.maps[m]]);
  }

  // Without `draining` nothing has been saved yet, so a writer can only disturb the store and the worlds' range.
  lemma WriterStepKeepsGood(s: State, w: nat, step: WriterStep)
    requires Good(s)
    ensures Good(DoWriter(s, w, step))
  {
    var t := DoWriter(s, w, step);
    if s.draining {
      DrainingWritersAreIdle(s, w, step);
      hide DoWriter, RedisOk, StillStored, KeptOk, OfMap;
    } else {
      WriterTouches(s, w, step);
      hide DoWriter, RedisOk, StillStored, KeptOk;
    }
  }

  predicate IsEntry(step: WriterStep) { step.CopyMap? || step.EnterTick? || step.Enter? || step.Leave? }

  // Each world is of its map as before, and its version has not fallen.
  ghost predicate Grown(before: seq<W.World>, after: seq<W.World>) {
    |after| == |before|
    && forall i | 0 <= i < |before| :: after[i].cfg == before[i].cfg && before[i].version <= after[i].version
  }

  lemma SteppedGrows(worlds: seq<W.World>, world: nat, step: W.Step)
    requires world < |worlds|
    ensures Grown(worlds, Stepped(worlds, world, step))
  {
    hide W.Do;
    WorldInvariants.StepRaisesVersion(worlds[world], step);
    StepKeepsConfig(worlds[world], step);
  }

  lemma StepKeepsConfig(w: W.World, step: W.Step)
    ensures W.Do(w, step).cfg == w.cfg
  {
    hide W.Walkable, W.NpcTarget, W.PlayerTarget, W.SafePosition, W.Found, W.FirstFree;
  }

  lemma RespawnedFurther(w: W.World, v: W.World, step: W.Step)
    requires RespawnedSince(w, v) && step.Refresh?
    ensures RespawnedSince(w, W.Do(v, step))
  {
    hide W.Do;
    var steps: seq<W.Step> :| OnlyRespawns(steps) && v == W.Run(w, steps);
    assert (steps + [step])[..|steps|] == steps;
    assert W.Run(w, steps + [step]) == W.Do(v, step);
  }

  ghost predicate WriterOutcome(s: State, t: State) {
    && t == s.(writers := t.writers, copies := t.copies, worlds := t.worlds, redis := t.redis)
    && Grown(s.worlds, t.worlds) && RedisOk(t.redis) && Quiet(t)
    && (!s.stage.Idle? ==> t.worlds == s.worlds)
  }

  lemma WriterTouches(s: State, w: nat, step: WriterStep)
    requires RedisOk(s.redis) && Quiet(s)
    ensures WriterOutcome(s, DoWriter(s, w, step))
  {
    if IsEntry(step) {
      EntryTouches(s, w, step);
    } else {
      hide RedisOk, Proceed;
      if w in s.writers {
        ProceedTouches(s, w, s.writers[w], step);
        ProceedStores(s, w, s.writers[w], step);
        ProceedIsQuiet(s, w, step);
        assert DoWriter(s, w, step) == Proceed(s, w, s.writers[w], step);
        hide DoWriter;
      }
    }
  }

  // An entry step copies a world, or brings a writer in, or lets it go.
  ghost predicate Enters(s: State, t: State, w: nat) {
    && t == s.(writers := t.writers, copies := t.copies)
    && (t.writers == s.writers || t.writers == s.writers - {w}
        || (s.stage.Idle? && exists held: Option<Held> :: t.writers == s.writers[w := Entered(held)]))
  }

  lemma EntryEnters(s: State, w: nat, step: WriterStep)
    requires IsEntry(step)
    ensures Enters(s, DoWriter(s, w, step), w)
  {
    hide Proceed;
  }

  lemma EnteringIsQuiet(s: State, t: State, w: nat)
    requires Quiet(s) && Enters(s, t, w)
    ensures Quiet(t)
  {
  }

  lemma EntryTouches(s: State, w: nat, step: WriterStep)
    requires RedisOk(s.redis) && Quiet(s) && IsEntry(step)
    ensures WriterOutcome(s, DoWriter(s, w, step))
  {
    EntryEnters(s, w, step);
    EnteringIsQuiet(s, DoWriter(s, w, step), w);
    EntriesOnly(s, DoWriter(s, w, step));
    hide DoWriter, RedisOk, Quiet, WriterOutcome;
  }

  lemma EntriesOnly(s: State, t: State)
    requires RedisOk(s.redis)
    ensures t == s.(writers := t.writers, copies := t.copies) && Quiet(t) ==> WriterOutcome(s, t)
  {
    hide RedisOk, Quiet;
  }

  ghost predicate OnlyTouches(s: State, t: State, stores: bool) {
    && t == s.(writers := t.writers, worlds := t.worlds, redis := t.redis)
    && Grown(s.worlds, t.worlds) && (t.redis == s.redis || stores)
  }

  lemma ProceedTouches(s: State, w: nat, at: Writer, step: WriterStep)
    ensures OnlyTouches(s, Proceed(s, w, at, step), step.SaveTick? && at.Captured?)
  {
    if step.CheckDraining? || step.CheckCache? || step.CheckFence? {
      CheckTouches(s, w, at, step);
    } else {
      WorkTouches(s, w, at, step);
    }
  }

  lemma CheckTouches(s: State, w: nat, at: Writer, step: WriterStep)
    requires step.CheckDraining? || step.CheckCache? || step.CheckFence?
    ensures OnlyTouches(s, Proceed(s, w, at, step), false)
  {
    OnlyWritersTouched(s, Proceed(s, w, at, step));
    hide OnlyTouches, OwnsAt, FenceHolds;
  }

  lemma OnlyWritersTouched(s: State, t: State)
    ensures t == s.(writers := t.writers) ==> OnlyTouches(s, t, false)
  {
  }

  lemma WorkTouches(s: State, w: nat, at: Writer, step: WriterStep)
    requires !step.CheckDraining? && !step.CheckCache? && !step.CheckFence?
    ensures OnlyTouches(s, Proceed(s, w, at, step), step.SaveTick? && at.Captured?)
  {
    hide OwnsAt, FenceHolds, AfterSave, Shows, Stepped;
    if at.Admitted? && HoldsWorld(s, at.held, at.mapId) && step.Write? { SteppedGrows(s.worlds, at.held.value.world, step.step); }
  }

  lemma ProceedStores(s: State, w: nat, at: Writer, step: WriterStep)
    requires RedisOk(s.redis)
    ensures RedisOk(Proceed(s, w, at, step).redis)
  {
    hide RedisOk, AfterSave;
    ProceedTouches(s, w, at, step);
    if at.Captured? && step.SaveTick? {
      SaveKeepsRedis(s.redis, at.cp, s.id, at.epoch);
    } else {
      hide Proceed;
    }
  }

  lemma ProceedIsQuiet(s: State, w: nat, step: WriterStep)
    requires Quiet(s) && w in s.writers
    ensures Quiet(Proceed(s, w, s.writers[w], step))
  {
    ProceedTouches(s, w, s.writers[w], step);
    if s.draining {
      DrainingWritersAreIdle(s, w, step);
    } else {
      hide Proceed;
    }
  }

  lemma HostStepKeepsGood(s: State, step: HostStep)
    requires Good(s)
    ensures Good(DoHost(s, step))
  {
    hide RedisOk, StillStored, KeptOk;
    match step
    case Host(m, start) => if m !in s.maps && Started(start, m) { NewWorldKeepsGood(s, m, start); }
    case InstallPromote(p, start, now) =>
      if p in s.promoting && start.cfg.id == s.promoting[p].mapId {
        NewWorldKeepsGood(s, s.promoting[p].mapId, C.Restored(start, s.promoting[p].cp, now));
        EndPromoteKeepsGood(NewWorld(s, s.promoting[p].mapId, C.Restored(start, s.promoting[p].cp, now)), p);
      }
    case _ => hide Started, NewWorld;
  }

  lemma NewWorldKeepsGood(s: State, m: MapId, start: W.World)
    requires Good(s) && Started(start, m)
    ensures Good(NewWorld(s, m, start))
  {
    hide RedisOk, StillStored, KeptOk;
    forall k | k in s.saved ensures KeptOk(s.worlds + [start], s.id, k, s.saved[k]) {
      KeptThere(s.worlds, start, s.id, k, s.saved[k]);
    }
    if s.stage.SavingOne? { KeptThere(s.worlds, start, s.id, s.stage.mapId, s.stage.kept); }
    NewWorldIsOfMap(s, m, start);
    hide OfMap;
  }

  lemma NewWorldIsOfMap(s: State, m: MapId, start: W.World)
    requires WorldsOk(s) && Started(start, m)
    ensures forall k | k in NewWorld(s, m, start).maps :: OfMap(NewWorld(s, m, start).worlds, NewWorld(s, m, start).maps[k], k)
  {
    hide KeptOk, Started;
  }

  lemma KeptThere(worlds: seq<W.World>, start: W.World, id: NodeId, m: MapId, kept: Kept)
    requires KeptOk(worlds, id, m, kept)
    ensures KeptOk(worlds + [start], id, m, kept)
  {
  }

  lemma EndPromoteKeepsGood(s: State, p: nat)
    requires Good(s)
    ensures Good(s.(promoting := s.promoting - {p}))
  {
    hide RedisOk, StillStored, KeptOk, OfMap;
  }

  lemma DrainStepKeepsGood(s: State, step: DrainStep)
    requires Good(s)
    ensures Good(DoDrain(s, step))
  {
    hide RedisOk, StillStored, KeptOk, OfMap, Pickable, DoPick, DoSave;
    match step
    case Pick(m, recent, again, cp) => if s.stage.Saving? && m in s.stage.todo { DrainPickKeepsGood(s, m, recent, again, cp); }
    case Save => if s.stage.SavingOne? { DrainSaveKeepsGood(s); }
    case _ =>
  }

  lemma LookFreezes(worlds: seq<W.World>, world: nat, step: W.Step, other: nat, since: W.World)
    requires world < |worlds| && step.Refresh? && Frozen(worlds, other, since)
    ensures Frozen(Stepped(worlds, world, step), other, since)
  {
    hide RespawnedSince;
    if world == other { RespawnedFurther(since, worlds[world], step); }
  }

  lemma LookKeepsGood(s: State, world: nat, step: W.Step)
    requires Good(s) && world < |s.worlds| && step.Refresh?
    ensures Good(s.(worlds := Stepped(s.worlds, world, step)))
  {
    hide RedisOk, StillStored, Shows, Stepped, Frozen;
    SteppedGrows(s.worlds, world, step);
    forall m | m in s.saved ensures Frozen(Stepped(s.worlds, world, step), s.saved[m].world, s.saved[m].shot) {
      assert KeptOk(s.worlds, s.id, m, s.saved[m]);
      LookFreezes(s.worlds, world, step, s.saved[m].world, s.saved[m].shot);
    }
    if s.stage.SavingOne? { LookFreezes(s.worlds, world, step, s.stage.kept.world, s.stage.kept.shot); }
  }

  lemma StepKeepsGood(s: State, l: Label)
    requires Good(s)
    ensures Good(Do(s, l))
  {
    hide Good;
    match l
    case ByWriter(w, step) => WriterStepKeepsGood(s, w, step);
    case ByHost(step) => HostStepKeepsGood(s, step);
    case ByDrain(step) => DrainStepKeepsGood(s, step);
    case Look(world, u, now, c) => if world < |s.worlds| { LookKeepsGood(s, world, W.Refresh(u, now, c)); }
    case OtherCommit(expected, next, mig, term) => OtherCommitKeepsGood(s, expected, next, mig, term);
    case OtherSave(n, cp, epoch) => if n != s.id { OtherSaveKeepsGood(s, n, cp, epoch); }
  }

  lemma {:induction false} RunsAreGood(id: NodeId, labels: seq<Label>)
    ensures Good(Run(id, labels))
  {
    if labels != [] {
      hide Do, Good;
      RunsAreGood(id, labels[..|labels| - 1]);
      StepKeepsGood(Run(id, labels[..|labels| - 1]), labels[|labels| - 1]);
    }
  }

  // ---- what steps leave alone ----

  lemma DrainingWritersAreIdle(s: State, w: nat, step: WriterStep)
    requires Quiet(s) && s.draining
    ensures var t := DoWriter(s, w, step);
            t == s.(writers := t.writers, copies := t.copies) && Quiet(t)
  {
    if w in s.writers { assert s.writers[w].Entered?; }
  }

  lemma HostingOnlyAdds(s: State, step: HostStep)
    ensures var t := DoHost(s, step); t.draining == s.draining && s.worlds <= t.worlds
  {
  }

  lemma DrainStepsTouchNoWorld(s: State, step: DrainStep)
    ensures var t := DoDrain(s, step);
            (s.draining ==> t.draining) && t.worlds == s.worlds && t.maps == s.maps
  {
    hide Pickable, DoList, DoPick, DoSave, MayUnlock;
    if step.Pick? {
      if s.stage.Saving? { PickTouches(s, step.mapId, Pickable(s, step.mapId, step.recent, step.again, step.cp)); }
    } else if step.Save? {
      if s.stage.SavingOne? { SaveTouches(s); }
    } else if step.List? {
      ListTouches(s, step.recent);
    } else {
      LockingTouches(s, step);
    }
  }

  lemma LockingTouches(s: State, step: DrainStep)
    requires step.Lock? || step.Flag? || step.Unlock?
    ensures var t := DoDrain(s, step);
            (s.draining ==> t.draining) && t.worlds == s.worlds && t.maps == s.maps
  {
    hide Pickable, DoList, DoPick, DoSave, MayUnlock;
  }

  lemma ListTouches(s: State, recent: bool)
    ensures var t := DoList(s, recent); t == s.(stage := t.stage, listed := t.listed, failed := t.failed)
  {
    hide OwnedMaps;
  }

  lemma PickTouches(s: State, m: MapId, p: Picked)
    requires s.stage.Saving?
    ensures var t := DoPick(s, m, p); t == s.(stage := t.stage, skipped := t.skipped, failed := t.failed)
  {
  }

  lemma SaveTouches(s: State)
    requires s.stage.SavingOne?
    ensures var t := DoSave(s); t == s.(redis := t.redis, stage := t.stage, saved := t.saved, failed := t.failed)
  {
    hide AfterSave, CheckpointAccepted;
  }
}
