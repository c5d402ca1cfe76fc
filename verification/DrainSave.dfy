/** Which worlds the one final save of a drain stores: all that were owned, exactly when no turn passes one by. */
module DrainSaves {
  import opened Text
  import opened Topologies
  import opened Stores
  import opened Authorities
  import opened Nodes
  import opened Drains
  import opened DrainInvariants
  import opened DrainTheorems
  import W = Worlds

  // The two `continue` branches: at the map's turn the cache is stale or does not name this node any more, or cache
  // and fence still do and the map is not hosted.
  predicate TurnSkips(s: State, l: Label) {
    && l.ByDrain? && l.drain.Pick? && s.stage.Saving? && l.drain.mapId in s.stage.todo
    && (!OwnsAt(s, l.drain.mapId, l.drain.recent)
        || (l.drain.again && FenceHolds(s.redis, l.drain.mapId, s.id, s.cache.value.EpochOf(l.drain.mapId)) && l.drain.mapId !in s.maps))
  }

  ghost predicate NeverSkips(id: NodeId, labels: seq<Label>) {
    forall i | 0 <= i < |labels| :: !TurnSkips(Run(id, labels[..i]), labels[i])
  }

  // A skipped map was listed and is not saved.
  ghost predicate SkippedOk(s: State) {
    s.saved.Keys !! s.skipped && (s.listed.Some? ==> s.skipped <= s.listed.value)
  }

  lemma StepKeepsSkippedOk(s: State, l: Label)
    requires Good(s) && SkippedOk(s)
    ensures SkippedOk(Do(s, l))
    ensures Do(s, l).skipped == if TurnSkips(s, l) then s.skipped + {l.drain.mapId} else s.skipped
  {
    hide RedisOk, Quiet, SavedOk, WorldsOk, ProgressOk;
    if l.ByDrain? {
      DrainStepKeepsSkippedOk(s, l.drain);
      hide DoDrain;
    } else {
      OthersSkipNothing(s, l);
      hide Do;
    }
  }

  ghost predicate SameSave(s: State, t: State) {
    t.saved == s.saved && t.skipped == s.skipped && t.listed == s.listed
  }

  lemma OthersSkipNothing(s: State, l: Label)
    requires !l.ByDrain?
    ensures SameSave(s, Do(s, l))
  {
    if l.ByWriter? {
      WriterSkipsNothing(s, l.w, l.writer);
      hide DoWriter, SameSave;
    } else if l.ByHost? {
      HostSkipsNothing(s, l.host);
      hide DoHost, SameSave;
    } else {
      ElsewhereSkipsNothing(s, l);
      hide Do, SameSave;
    }
  }

  lemma ElsewhereSkipsNothing(s: State, l: Label)
    requires l.OtherCommit? || l.OtherSave? || l.Look?
    ensures SameSave(s, Do(s, l))
  {
    hide SameSave, DoWriter, DoHost, DoDrain, AfterCas, AfterSave, Stepped;
    match l
    case OtherCommit(expected, next, mig, term) => OtherStore(s, AfterCas(s.redis, expected, next, mig, term));
    case OtherSave(n, cp, epoch) => OtherStore(s, AfterSave(s.redis, cp, n, epoch)); OtherWorlds(s, s.worlds);
    case Look(world, u, now, c) =>
      OtherWorlds(s, s.worlds);
      if world < |s.worlds| { OtherWorlds(s, Stepped(s.worlds, world, W.Refresh(u, now, c))); }
  }

  lemma OtherStore(s: State, r: Redis)
    ensures SameSave(s, s.(redis := r))
  {
  }

  lemma OtherWorlds(s: State, worlds: seq<W.World>)
    ensures SameSave(s, s.(worlds := worlds)) && s.(worlds := s.worlds) == s
  {
  }

  lemma WriterSkipsNothing(s: State, w: nat, step: WriterStep)
    ensures SameSave(s, DoWriter(s, w, step))
  {
    hide Proceed;
    if !IsEntry(step) && w in s.writers { ProceedTouches(s, w, s.writers[w], step); }
  }

  lemma HostSkipsNothing(s: State, step: HostStep)
    ensures SameSave(s, DoHost(s, step))
  {
  }

  lemma DrainStepKeepsSkippedOk(s: State, step: DrainStep)
    requires WorldsOk(s) && ProgressOk(s) && SkippedOk(s)
    ensures SkippedOk(DoDrain(s, step))
    ensures DoDrain(s, step).skipped == if TurnSkips(s, ByDrain(step)) then s.skipped + {step.mapId} else s.skipped
  {
    hide WorldsOk, DoPick, DoSave, DoList, Pickable, FenceHolds, OwnsAt;
    match step
    case Pick(m, recent, again, cp) => if s.stage.Saving? && m in s.stage.todo { PickKeepsSkippedOk(s, m, recent, again, cp); }
    case Save => if s.stage.SavingOne? { SaveKeepsSkippedOk(s); }
    case List(recent) => ListTouches(s, recent);
    case _ =>
  }

  lemma PickKeepsSkippedOk(s: State, m: MapId, recent: bool, again: bool, cp: Checkpoint)
    requires WorldsOk(s) && ProgressOk(s) && SkippedOk(s) && s.stage.Saving? && m in s.stage.todo
    ensures var t := DoPick(s, m, Pickable(s, m, recent, again, cp));
            SkippedOk(t) && t.skipped == if TurnSkips(s, ByDrain(Pick(m, recent, again, cp))) then s.skipped + {m} else s.skipped
  {
    hide KeptOk, Shows, FenceHolds, OwnsAt;
    assert m in s.maps ==> OfMap(s.worlds, s.maps[m], m);
  }

  lemma SaveKeepsSkippedOk(s: State)
    requires ProgressOk(s) && SkippedOk(s) && s.stage.SavingOne?
    ensures SkippedOk(DoSave(s)) && DoSave(s).skipped == s.skipped
  {
    hide AfterSave, CheckpointAccepted;
    assert s.stage.mapId in Pending(s.stage);
  }

  // Nothing is skipped exactly when no turn passes a map by.
  lemma {:induction false} SkippedNothingIff(id: NodeId, labels: seq<Label>)
    ensures SkippedOk(Run(id, labels))
    ensures Run(id, labels).skipped == {} <==> NeverSkips(id, labels)
  {
    hide Do, Good, SkippedOk, TurnSkips;
    if labels == [] {
      assert SkippedOk(Init(id)) by { InitSkippedOk(id); }
    } else {
      var last := |labels| - 1;
      SkippedNothingIff(id, labels[..last]);
      RunsAreGood(id, labels[..last]);
      StepKeepsSkippedOk(Run(id, labels[..last]), labels[last]);
      assert forall i | 0 <= i < last :: labels[..last][..i] == labels[..i] && labels[..last][i] == labels[i];
      NeverSkipsLast(id, labels);
    }
  }

  lemma InitSkippedOk(id: NodeId)
    ensures SkippedOk(Init(id))
  {
  }

  lemma NeverSkipsLast(id: NodeId, labels: seq<Label>)
    requires labels != []
    ensures var last := |labels| - 1;
            NeverSkips(id, labels) <==> NeverSkips(id, labels[..last]) && !TurnSkips(Run(id, labels[..last]), labels[last])
  {
    hide Run, TurnSkips;
    var last := |labels| - 1;
    var before := labels[..last];
    assert forall i | 0 <= i < last :: before[..i] == labels[..i] && before[i] == labels[i];
    if NeverSkips(id, before) && !TurnSkips(Run(id, before), labels[last]) {
      forall i | 0 <= i < |labels| ensures !TurnSkips(Run(id, labels[..i]), labels[i]) {
        if i < last { assert !TurnSkips(Run(id, before[..i]), before[i]); }
      }
    }
    if NeverSkips(id, labels) {
      forall i | 0 <= i < last ensures !TurnSkips(Run(id, before[..i]), before[i]) {
        assert !TurnSkips(Run(id, labels[..i]), labels[i]);
      }
    }
  }

  ghost predicate AllStored(s: State) {
    s.listed.Some? && forall m | m in s.listed.value :: StoredInFull(s, m)
  }

  // A BeginDrain that gets past its save phase has every listed map stored in full exactly when the one final save
  // did not fail and passed no map by.
  lemma PassedDrainStoredAllIff(id: NodeId, labels: seq<Label>)
    ensures var s := Run(id, labels); s.passed ==> (AllStored(s) <==> !s.failed && NeverSkips(id, labels))
  {
    hide Do, Run, NeverSkips, Shows, RespawnedSince, RedisOk, Quiet, WorldsOk, SavedOk;
    var s := Run(id, labels);
    RunsAreGood(id, labels);
    PassedDrainIsCoveredIffSaveSucceeded(id, labels);
    SkippedNothingIff(id, labels);
    forall m | m in s.saved ensures StoredInFull(s, m) { FinalSaveIncludesEveryWrite(id, labels, m); }
  }

  // What it lists are the maps that the cache gave to the node when the list was made.
  lemma {:induction false} ListedWereOwned(id: NodeId, labels: seq<Label>)
    ensures var s := Run(id, labels);
            s.listed.Some? ==>
              exists i :: 0 <= i < |labels| && labels[i] == ByDrain(List(true)) && Run(id, labels[..i]).cache.Some?
                          && s.listed.value == OwnedMaps(Run(id, labels[..i]))
  {
    if labels != [] {
      hide Do, OwnedMaps;
      var last := |labels| - 1;
      var before := Run(id, labels[..last]);
      ListedWereOwned(id, labels[..last]);
      ListedByList(before, labels[last]);
      if Run(id, labels).listed.Some? && Run(id, labels).listed == before.listed {
        var i :| 0 <= i < last && labels[..last][i] == ByDrain(List(true)) && Run(id, labels[..last][..i]).cache.Some?
                 && before.listed.value == OwnedMaps(Run(id, labels[..last][..i]));
        assert labels[..last][..i] == labels[..i];
      }
    }
  }

  lemma ListedByList(s: State, l: Label)
    ensures var t := Do(s, l);
            t.listed == s.listed || (l == ByDrain(List(true)) && s.cache.Some? && t.listed == Some(OwnedMaps(s)))
  {
    if l.ByDrain? {
      DrainListsByList(s, l.drain);
      hide DoDrain;
    } else {
      OthersSkipNothing(s, l);
      hide Do;
    }
  }

  lemma DrainListsByList(s: State, step: DrainStep)
    ensures var t := DoDrain(s, step);
            t.listed == s.listed || (step == List(true) && s.cache.Some? && t.listed == Some(OwnedMaps(s)))
  {
    hide DoPick, DoSave, Pickable, OwnedMaps;
    match step
    case Pick(m, recent, again, cp) => if s.stage.Saving? { PickTouches(s, m, Pickable(s, m, recent, again, cp)); }
    case Save => if s.stage.SavingOne? { SaveTouches(s); }
    case _ =>
  }
}
