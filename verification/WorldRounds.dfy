/** One background round of a map: respawns, NPC spawns, perhaps a treasure, then one turn for every NPC. */
module WorldRounds {
  import opened Text
  import opened WorldData
  import opened Worlds
  import opened WorldInvariants
  import opened WorldTreasure

  // In its turn an NPC first refreshes the players (the search for a target does that), then acts.
  datatype Turn = Turn(npc: string, refreshes: seq<Step>, act: Option<Step>)

  datatype Round = Round(refreshes: seq<Step>, spawns: seq<Step>, treasure: Option<Step>, turns: seq<Turn>)

  function Optional(step: Option<Step>): seq<Step> {
    match step
    case None => []
    case Some(s) => [s]
  }

  function TurnSteps(t: Turn): seq<Step> { t.refreshes + Optional(t.act) }

  ghost function AfterTurns(w: World, turns: seq<Turn>): World {
    if turns == [] then w
    else Run(AfterTurns(w, turns[..|turns| - 1]), TurnSteps(turns[|turns| - 1]))
  }

  ghost function BeforeTurns(w: World, r: Round): World {
    Run(w, r.refreshes + r.spawns + Optional(r.treasure))
  }

  ghost function AfterRound(w: World, r: Round): World {
    AfterTurns(BeforeTurns(w, r), r.turns)
  }

  predicate OnlyRefreshes(steps: seq<Step>, now: nat) {
    forall s | s in steps :: s.Refresh? && s.now == now
  }

  predicate NobodyDue(w: World, now: nat) {
    forall u | u in w.players :: !Due(w.players[u], now)
  }

  // Everyone due at that moment is back, and nothing else happened.
  ghost predicate IsRefresh(w: World, steps: seq<Step>, now: nat) {
    AllFit(w, steps) && OnlyRefreshes(steps, now) && NobodyDue(Run(w, steps), now)
  }

  // NPCs come while fewer than MIN_NPCS are there, until none is missing or no cell is free.
  ghost predicate IsSpawning(w: World, steps: seq<Step>) {
    && AllFit(w, steps)
    && (forall i | 0 <= i < |steps| :: steps[i].SpawnNPC? && FewNPCs(Run(w, steps[..i])))
    && (|Run(w, steps).npcs| >= MIN_NPCS || Crowded(Run(w, steps), ""))
  }

  ghost predicate IsTreasureDraw(w: World, step: Option<Step>) {
    step.Some? ==> step.value.SpawnTreasure? && Fits(w, step.value)
  }

  predicate IsActOf(n: string, step: Step) {
    (step.NPCAttack? || step.NPCMove?) && step.npc == n
  }

  // A living NPC acts exactly once: `Fits` makes it hit the weakest neighbour, or move if there is none.
  ghost predicate IsTurn(w: World, t: Turn) {
    if t.npc in w.npcs && w.npcs[t.npc].alive then
      && (exists now :: IsRefresh(w, t.refreshes, now))
      && t.act.Some? && IsActOf(t.npc, t.act.value) && Fits(Run(w, t.refreshes), t.act.value)
    else t.refreshes == [] && t.act == None
  }

  function NpcOfTurn(t: Turn): string { t.npc }

  // Every NPC has one turn, in the order of the ids.
  ghost predicate AreTurns(w: World, turns: seq<Turn>) {
    && SortedBy(turns, NpcOfTurn)
    && (forall i, j | 0 <= i < j < |turns| :: turns[i].npc != turns[j].npc)
    && (forall n :: n in w.npcs <==> exists i :: 0 <= i < |turns| && turns[i].npc == n)
    && AllTurns(w, turns)
  }

  // Each is a turn in the world that the ones before it leave.
  ghost predicate AllTurns(w: World, turns: seq<Turn>) {
    forall i | 0 <= i < |turns| :: IsTurn(AfterTurns(w, turns[..i]), turns[i])
  }

  // Every living NPC acts once in its turn: it hits if a living player stands next to it, else it may walk.
  lemma OneTurnEach(w: World, r: Round, now: nat, n: string)
    requires IsRound(w, r, now)
    ensures n in BeforeTurns(w, r).npcs <==> exists i :: 0 <= i < |r.turns| && r.turns[i].npc == n
    ensures forall i, j | 0 <= i < j < |r.turns| :: r.turns[i].npc != r.turns[j].npc && Le(r.turns[i].npc, r.turns[j].npc)
    ensures forall i | 0 <= i < |r.turns| ::
              var s := AfterTurns(BeforeTurns(w, r), r.turns[..i]);
              if r.turns[i].npc in s.npcs && s.npcs[r.turns[i].npc].alive
              then r.turns[i].act.Some? && (r.turns[i].act.value.NPCAttack? || r.turns[i].act.value.NPCMove?)
                   && r.turns[i].act.value.npc == r.turns[i].npc
              else TurnSteps(r.turns[i]) == []
  {
    hide AfterTurns, BeforeTurns, Fits, IsRefresh;
    forall i, j | 0 <= i < j < |r.turns| ensures Le(r.turns[i].npc, r.turns[j].npc) {
      assert Le(NpcOfTurn(r.turns[i]), NpcOfTurn(r.turns[j]));
    }
    forall i | 0 <= i < |r.turns| ensures IsTurn(AfterTurns(BeforeTurns(w, r), r.turns[..i]), r.turns[i]) {}
  }

  lemma NoTurns(w: World)
    ensures AllTurns(w, []) && AfterTurns(w, []) == w
  {
  }

  lemma LastOfAllTurns(w: World, turns: seq<Turn>)
    requires turns != []
    ensures var last := |turns| - 1;
            AllTurns(w, turns) <==> AllTurns(w, turns[..last]) && IsTurn(AfterTurns(w, turns[..last]), turns[last])
  {
    hide IsTurn, AfterTurns;
    var last := |turns| - 1;
    var before := turns[..last];
    assert forall i | 0 <= i < last :: before[..i] == turns[..i] && before[i] == turns[i];
    if AllTurns(w, before) && IsTurn(AfterTurns(w, before), turns[last]) {
      forall i | 0 <= i < |turns| ensures IsTurn(AfterTurns(w, turns[..i]), turns[i]) {
        if i < last { assert IsTurn(AfterTurns(w, before[..i]), before[i]); }
      }
    }
    if AllTurns(w, turns) {
      forall i | 0 <= i < last ensures IsTurn(AfterTurns(w, before[..i]), before[i]) {
        assert IsTurn(AfterTurns(w, turns[..i]), turns[i]);
      }
    }
  }

  ghost predicate IsRound(w: World, r: Round, now: nat) {
    && IsRefresh(w, r.refreshes, now)
    && IsSpawning(Run(w, r.refreshes), r.spawns)
    && IsTreasureDraw(Run(w, r.refreshes + r.spawns), r.treasure)
    && AreTurns(BeforeTurns(w, r), r.turns)
  }

  // ---- a round is a run ----

  lemma {:induction false} RunThenRun(w: World, a: seq<Step>, b: seq<Step>)
    ensures Run(w, a + b) == Run(Run(w, a), b)
  {
    hide Do;
    if b == [] {
      assert a + b == a;
    } else {
      var last, all := |b| - 1, a + b;
      RunThenRun(w, a, b[..last]);
      assert all[..|all| - 1] == a + b[..last] && all[|all| - 1] == b[last];
    }
  }

  lemma {:induction false} FitThenFit(w: World, a: seq<Step>, b: seq<Step>)
    ensures AllFit(w, a + b) <==> AllFit(w, a) && AllFit(Run(w, a), b)
  {
    hide Run, Fits;
    if b == [] {
      assert a + b == a;
    } else {
      hide AllFit;
      var last, all := |b| - 1, a + b;
      assert all[..|all| - 1] == a + b[..last] && all[|all| - 1] == b[last];
      FitThenFit(w, a, b[..last]);
      RunThenRun(w, a, b[..last]);
      FitsAtTheEnd(w, all);
      FitsAtTheEnd(Run(w, a), b);
    }
  }

  lemma FitsAtTheEnd(w: World, steps: seq<Step>)
    requires steps != []
    ensures var last := |steps| - 1;
            AllFit(w, steps) <==> AllFit(w, steps[..last]) && Fits(Run(w, steps[..last]), steps[last])
  {
    hide Do, Fits, Run;
    var last := |steps| - 1;
    forall i | 0 <= i < last ensures steps[..last][..i] == steps[..i] {}
    if AllFit(w, steps[..last]) && Fits(Run(w, steps[..last]), steps[last]) {
      forall i | 0 <= i < |steps| ensures Fits(Run(w, steps[..i]), steps[i]) {
        if i < last { assert steps[..last][i] == steps[i] && Fits(Run(w, steps[..last][..i]), steps[..last][i]); }
      }
    }
    if AllFit(w, steps) {
      forall i | 0 <= i < last ensures Fits(Run(w, steps[..last][..i]), steps[..last][i]) {
        assert Fits(Run(w, steps[..i]), steps[i]);
      }
    }
  }

  lemma RunOfOne(w: World, step: Step)
    ensures Run(w, [step]) == Do(w, step)
    ensures AllFit(w, [step]) <==> Fits(w, step)
  {
    assert [step][..0] == [];
    assert Run(w, []) == w;
  }

  lemma Extend(w: World, steps: seq<Step>, step: Step)
    requires AllFit(w, steps) && Fits(Run(w, steps), step)
    ensures Run(w, steps + [step]) == Do(Run(w, steps), step)
    ensures AllFit(w, steps + [step])
    ensures forall i | 0 <= i <= |steps| :: (steps + [step])[..i] == steps[..i]
  {
    hide Do, Fits;
    FitThenFit(w, steps, [step]);
    RunThenRun(w, steps, [step]);
    RunOfOne(Run(w, steps), step);
  }

  function StepsOfTurns(turns: seq<Turn>): seq<Step> {
    if turns == [] then [] else StepsOfTurns(turns[..|turns| - 1]) + TurnSteps(turns[|turns| - 1])
  }

  function StepsOf(r: Round): seq<Step> {
    r.refreshes + r.spawns + Optional(r.treasure) + StepsOfTurns(r.turns)
  }

  lemma OptionalRun(w: World, step: Option<Step>)
    ensures Run(w, Optional(step)) == if step.Some? then Do(w, step.value) else w
    ensures AllFit(w, Optional(step)) <==> step.None? || Fits(w, step.value)
  {
    if step.Some? { RunOfOne(w, step.value); }
  }

  lemma {:induction false} TurnsAreARun(w: World, turns: seq<Turn>)
    requires AllTurns(w, turns)
    ensures AfterTurns(w, turns) == Run(w, StepsOfTurns(turns)) && AllFit(w, StepsOfTurns(turns))
  {
    hide Run, Fits, IsTurn, AllTurns, AllFit, TurnSteps;
    if turns == [] {
      OptionalRun(w, None);
      assert StepsOfTurns(turns) == Optional(None);
    } else {
      var last := |turns| - 1;
      LastOfAllTurns(w, turns);
      TurnsAreARun(w, turns[..last]);
      var mid, t := AfterTurns(w, turns[..last]), turns[last];
      TurnFits(mid, t);
      RunThenRun(w, StepsOfTurns(turns[..last]), TurnSteps(t));
      FitThenFit(w, StepsOfTurns(turns[..last]), TurnSteps(t));
    }
  }

  lemma TurnFits(w: World, t: Turn)
    requires IsTurn(w, t)
    ensures AllFit(w, TurnSteps(t))
  {
    hide Run, Fits;
    FitThenFit(w, t.refreshes, Optional(t.act));
    OptionalRun(Run(w, t.refreshes), t.act);
  }

  // So whatever holds over runs holds over rounds.
  lemma RoundIsARun(w: World, r: Round, now: nat)
    ensures IsRound(w, r, now) ==> AfterRound(w, r) == Run(w, StepsOf(r)) && AllFit(w, StepsOf(r))
  {
    hide Run, Fits, AllTurns;
    if IsRound(w, r, now) {
      RunThenRun(w, r.refreshes, r.spawns);
      FitThenFit(w, r.refreshes, r.spawns);
      FitThenFit(w, r.refreshes + r.spawns, Optional(r.treasure));
      OptionalRun(Run(w, r.refreshes + r.spawns), r.treasure);
      TurnsAreARun(BeforeTurns(w, r), r.turns);
      RunThenRun(w, r.refreshes + r.spawns + Optional(r.treasure), StepsOfTurns(r.turns));
      FitThenFit(w, r.refreshes + r.spawns + Optional(r.treasure), StepsOfTurns(r.turns));
    }
  }

  // ---- a round on a map with enough floor ----

  function Max(a: int, b: int): int { if a < b then b else a }

  // A floor cell for every player, living or down, and for every NPC the round can have.
  ghost predicate Roomy(w: World) {
    |w.players| + Max(|w.npcs|, MIN_NPCS) <= |FloorCells(w.terrain)|
  }

  predicate InRound(w: World, step: Step) {
    step.Refresh? || step.SpawnTreasure? || step.NPCAttack? || step.NPCMove? || (step.SpawnNPC? && FewNPCs(w))
  }

  lemma RoomyLeavesRoom(w: World, step: Step)
    requires Roomy(w) && Occupancy(w) && InRound(w, step)
    ensures HasRoom(w, step)
  {
    hide FloorCells, Crowded, Max;
    if step.Refresh? && step.user in w.players && Due(w.players[step.user], step.now) {
      var u := step.user;
      assert u !in LivingPlayers(w, u);
      SubsetIsNoLarger(LivingPlayers(w, u), w.players.Keys - {u});
      SubsetIsNoLarger(LivingNpcs(w), w.npcs.Keys);
      FewerUnitsThanCellsLeaveRoom(w, u) by { assert |w.npcs| <= Max(|w.npcs|, MIN_NPCS) by { MaxBounds(|w.npcs|, MIN_NPCS); } }
    }
  }

  lemma MaxBounds(a: int, b: int)
    ensures a <= Max(a, b) && b <= Max(a, b)
  {
  }

  lemma NPCAttackKeepsKeys(w: World, step: Step)
    requires step.NPCAttack?
    ensures Do(w, step) == w.(players := Do(w, step).players, version := Do(w, step).version)
    ensures Do(w, step).players.Keys == w.players.Keys
  {
  }

  lemma RoundStepKeepsKeys(w: World, step: Step)
    requires InRound(w, step)
    ensures var w' := Do(w, step);
            && w'.terrain == w.terrain && w'.players.Keys == w.players.Keys
            && w'.npcs.Keys <= w.npcs.Keys + {NpcId(w.cfg, w.nextNPC)}
            && (!step.SpawnNPC? ==> w'.npcs.Keys == w.npcs.Keys)
  {
    hide Do, NpcId, FewNPCs, FewTreasures;
    match step
    case NPCAttack(_, _, _) => NPCAttackKeepsKeys(w, step);
    case NPCMove(_, _) => NPCMoveKeepsKeys(w, step);
    case _ => SpawnOrRefreshKeepsKeys(w, step);
  }

  lemma SpawnOrRefreshKeepsKeys(w: World, step: Step)
    requires step.SpawnNPC? || step.SpawnTreasure? || step.Refresh?
    ensures var w' := Do(w, step);
            && w'.terrain == w.terrain && w'.players.Keys == w.players.Keys
            && w'.npcs.Keys <= w.npcs.Keys + {NpcId(w.cfg, w.nextNPC)}
            && (!step.SpawnNPC? ==> w'.npcs.Keys == w.npcs.Keys)
  {
    hide Walkable, Found, SafePosition, TreasureId, NpcId;
  }

  lemma NPCMoveKeepsKeys(w: World, step: Step)
    requires step.NPCMove?
    ensures Do(w, step) == w.(npcs := Do(w, step).npcs, version := Do(w, step).version)
    ensures Do(w, step).npcs.Keys == w.npcs.Keys
  {
    hide PlayerTarget, FirstFree;
  }

  lemma RoundStepKeepsRoomy(w: World, step: Step)
    requires Roomy(w) && InRound(w, step)
    ensures Roomy(Do(w, step))
  {
    hide FloorCells, Do;
    var w' := Do(w, step);
    RoundStepKeepsKeys(w, step);
    SubsetIsNoLarger(w'.npcs.Keys, w.npcs.Keys + {NpcId(w.cfg, w.nextNPC)});
    assert |w'.npcs| == |w'.npcs.Keys| && |w.npcs| == |w.npcs.Keys|;
    assert |w'.players| == |w'.players.Keys| && |w.players| == |w.players.Keys|;
  }

  lemma {:induction false} RoundRunKeepsOccupancy(w: World, steps: seq<Step>)
    requires Occupancy(w) && Roomy(w)
    requires forall i | 0 <= i < |steps| :: InRound(Run(w, steps[..i]), steps[i])
    ensures Occupancy(Run(w, steps)) && Roomy(Run(w, steps))
  {
    hide Do, Occupancy, Roomy, InRound;
    if steps != [] {
      var before, last := steps[..|steps| - 1], steps[|steps| - 1];
      forall i | 0 <= i < |before| ensures InRound(Run(w, before[..i]), before[i]) { assert before[..i] == steps[..i]; }
      RoundRunKeepsOccupancy(w, before);
      assert InRound(Run(w, before), last);
      RoomyLeavesRoom(Run(w, before), last);
      StepKeepsOccupancy(Run(w, before), last);
      RoundStepKeepsRoomy(Run(w, before), last);
    }
  }

  lemma {:induction false} TurnsKeepOccupancy(w: World, turns: seq<Turn>)
    requires Occupancy(w) && Roomy(w) && AllTurns(w, turns)
    ensures Occupancy(AfterTurns(w, turns)) && Roomy(AfterTurns(w, turns))
  {
    hide Run, Occupancy, Roomy, IsTurn, AllTurns, TurnSteps;
    if turns != [] {
      var last := |turns| - 1;
      LastOfAllTurns(w, turns);
      TurnsKeepOccupancy(w, turns[..last]);
      TurnKeepsOccupancy(AfterTurns(w, turns[..last]), turns[last]);
    }
  }

  lemma TurnKeepsOccupancy(w: World, t: Turn)
    requires Occupancy(w) && Roomy(w) && IsTurn(w, t)
    ensures Occupancy(Run(w, TurnSteps(t))) && Roomy(Run(w, TurnSteps(t)))
  {
    hide Run, Occupancy, Roomy, Fits, AllFit, NobodyDue;
    RoundRunKeepsOccupancy(w, TurnSteps(t));
  }

  // The spawn fallback is never taken in such a round, and the next round has enough floor again.
  lemma RoundKeepsOccupancy(w: World, r: Round, now: nat)
    requires Occupancy(w) && Roomy(w)
    ensures IsRound(w, r, now) ==> Occupancy(AfterRound(w, r)) && Roomy(AfterRound(w, r))
  {
    hide Run, Occupancy, Roomy, AllTurns, Fits;
    if IsRound(w, r, now) {
      RoundRunKeepsOccupancy(w, r.refreshes);
      RoundRunKeepsOccupancy(Run(w, r.refreshes), r.spawns);
      RunThenRun(w, r.refreshes, r.spawns);
      RoundRunKeepsOccupancy(Run(w, r.refreshes + r.spawns), Optional(r.treasure));
      RunThenRun(w, r.refreshes + r.spawns, Optional(r.treasure));
      TurnsKeepOccupancy(BeforeTurns(w, r), r.turns);
    }
  }

  // ---- a round brings in its treasure and nothing else ----

  predicate NoTrade(step: Step) {
    step.Refresh? || step.SpawnNPC? || step.NPCAttack? || step.NPCMove?
  }

  lemma {:induction false} NoTradeKeepsTotal(w: World, steps: seq<Step>)
    requires Ground(w) && forall s | s in steps :: NoTrade(s)
    ensures Ground(Run(w, steps)) && Total(Run(w, steps)) == Total(w)
  {
    hide Do, Total, Ground;
    if steps != [] {
      var before, last := steps[..|steps| - 1], steps[|steps| - 1];
      NoTradeKeepsTotal(w, before);
      StepKeepsGround(Run(w, before), last);
      StepChangesTotalByDelta(Run(w, before), last);
      assert last in steps;
    }
  }

  lemma {:induction false} TurnsKeepTotal(w: World, turns: seq<Turn>)
    requires Ground(w) && AllTurns(w, turns)
    ensures Ground(AfterTurns(w, turns)) && Total(AfterTurns(w, turns)) == Total(w)
  {
    hide Run, Total, Ground, IsTurn, AllTurns, TurnSteps;
    if turns != [] {
      var last := |turns| - 1;
      LastOfAllTurns(w, turns);
      TurnsKeepTotal(w, turns[..last]);
      TurnKeepsTotal(AfterTurns(w, turns[..last]), turns[last]);
    }
  }

  lemma TurnKeepsTotal(w: World, t: Turn)
    requires Ground(w) && IsTurn(w, t)
    ensures Ground(Run(w, TurnSteps(t))) && Total(Run(w, TurnSteps(t))) == Total(w)
  {
    hide Run, Total, Ground, Fits, AllFit, NobodyDue;
    NoTradeKeepsTotal(w, TurnSteps(t));
  }

  lemma SpawnedTreasureAdds(w: World, step: Option<Step>)
    requires Ground(w) && IsTreasureDraw(w, step)
    ensures Ground(Run(w, Optional(step)))
    ensures Total(Run(w, Optional(step))) == Total(w) + if step.Some? then step.value.value else 0
  {
    hide Total, Ground, Found;
    OptionalRun(w, step);
    if step.Some? {
      StepKeepsGround(w, step.value);
      StepChangesTotalByDelta(w, step.value);
    }
  }

  lemma RoundAddsItsTreasure(w: World, r: Round, now: nat)
    requires Ground(w)
    ensures IsRound(w, r, now) ==>
      Ground(AfterRound(w, r)) && Total(AfterRound(w, r)) == Total(w) + if r.treasure.Some? then r.treasure.value.value else 0
  {
    hide Run, Total, Ground, AllTurns, Fits;
    if IsRound(w, r, now) {
      NoTradeKeepsTotal(w, r.refreshes);
      NoTradeKeepsTotal(Run(w, r.refreshes), r.spawns);
      RunThenRun(w, r.refreshes, r.spawns);
      SpawnedTreasureAdds(Run(w, r.refreshes + r.spawns), r.treasure);
      RunThenRun(w, r.refreshes + r.spawns, Optional(r.treasure));
      TurnsKeepTotal(BeforeTurns(w, r), r.turns);
    }
  }

  // ---- what a round leaves ----

  // The steps of turns, and refreshes.
  predicate IsTurnStep(step: Step) { step.Refresh? || step.NPCAttack? || step.NPCMove? }

  lemma TurnStepKeepsNpcs(w: World, step: Step)
    requires IsTurnStep(step)
    ensures Do(w, step).npcs.Keys == w.npcs.Keys
  {
    hide Walkable, PlayerTarget, SafePosition, FirstFree;
  }

  lemma {:induction false} TurnStepsKeepNpcs(w: World, steps: seq<Step>)
    requires forall s | s in steps :: IsTurnStep(s)
    ensures Run(w, steps).npcs.Keys == w.npcs.Keys
  {
    hide Do, IsTurnStep;
    if steps != [] {
      var last := |steps| - 1;
      assert steps[last] in steps && forall s | s in steps[..last] :: s in steps;
      TurnStepsKeepNpcs(w, steps[..last]);
      TurnStepKeepsNpcs(Run(w, steps[..last]), steps[last]);
    }
  }

  lemma {:induction false} TurnsKeepNpcs(w: World, turns: seq<Turn>)
    requires AllTurns(w, turns)
    ensures AfterTurns(w, turns).npcs.Keys == w.npcs.Keys
  {
    hide Run, IsTurn, AllTurns, TurnSteps;
    if turns != [] {
      var last := |turns| - 1;
      LastOfAllTurns(w, turns);
      TurnsKeepNpcs(w, turns[..last]);
      TurnIsOfTurnSteps(AfterTurns(w, turns[..last]), turns[last]);
      TurnStepsKeepNpcs(AfterTurns(w, turns[..last]), TurnSteps(turns[last]));
    }
  }

  lemma TurnIsOfTurnSteps(w: World, t: Turn)
    requires IsTurn(w, t)
    ensures forall s | s in TurnSteps(t) :: IsTurnStep(s)
  {
    hide Run, Fits, AllFit, NobodyDue;
  }

  // A round ends with at least five NPCs, unless no cell was free for the next one; and it begins by bringing back every
  // player whose time is over.
  lemma RoundRefills(w: World, r: Round, now: nat, u: string)
    requires IsRound(w, r, now)
    ensures |AfterRound(w, r).npcs| >= 5 || Crowded(Run(w, r.refreshes + r.spawns), "")
    ensures u in Run(w, r.refreshes).players ==>
              var p := Run(w, r.refreshes).players[u]; p.alive || p.respawnAt == 0 || now < p.respawnAt
    ensures forall s | s in r.refreshes :: s.Refresh? && s.now == now
  {
    hide Do, Fits, AllFit, Crowded, AllTurns;
    TurnsKeepNpcs(BeforeTurns(w, r), r.turns);
    SameSize(AfterRound(w, r).npcs, BeforeTurns(w, r).npcs);
    RunThenRun(w, r.refreshes, r.spawns);
    RunThenRun(w, r.refreshes + r.spawns, Optional(r.treasure));
    TreasureKeepsNpcs(Run(w, r.refreshes + r.spawns), r.treasure);
    if u in Run(w, r.refreshes).players { assert !Due(Run(w, r.refreshes).players[u], now); }
  }

  lemma SameSize<T>(a: map<string, T>, b: map<string, T>)
    requires a.Keys == b.Keys
    ensures |a| == |b|
  {
    assert |a| == |a.Keys| && |b| == |b.Keys|;
  }

  lemma TreasureKeepsNpcs(w: World, step: Option<Step>)
    requires IsTreasureDraw(w, step)
    ensures Run(w, Optional(step)).npcs == w.npcs
  {
    OptionalRun(w, step);
  }
}
