/** Hit points: a ledger of blows for NPCs and players, and what brings points back. */
module WorldHits {
  import opened Text
  import opened WorldData
  import opened Worlds
  import opened WorldTreasure
  import opened WorldCheckpoint

  // ---- NPCs ----

  // What the step takes from NPC n: the attack of the player that hits it.
  function BlowOnNpc(w: World, step: Step, n: string): int {
    if step.AttackNPC? && step.target == n && step.user in w.players then w.players[step.user].attack else 0
  }

  predicate HitsNpc(step: Step, n: string) { step.AttackNPC? && step.target == n }

  // No later spawn takes the id of n.
  ghost predicate BehindCounter(w: World, n: string) {
    forall k: nat | k >= w.nextNPC :: n != NpcId(w.cfg, k)
  }

  // A blow takes exactly the attacker's attack, and the NPC is gone exactly when nothing is left; no other step
  // changes anything of an NPC but its cell.
  lemma StepHitsNpc(w: World, step: Step, n: string)
    requires Keyed(w) && Fits(w, step) && n in w.npcs && BehindCounter(w, n)
    ensures var t, left := Do(w, step), w.npcs[n].hp - BlowOnNpc(w, step, n);
            && (n in t.npcs <==> !HitsNpc(step, n) || left > 0)
            && (n in t.npcs ==> t.npcs[n] == w.npcs[n].(hp := left, at := t.npcs[n].at))
            && BehindCounter(t, n)
  {
    hide Walkable, NpcId, PlayerTarget, SafePosition, Found, FirstFree, FewNPCs, FewTreasures;
    if step.AttackNPC? { hide Drop; DropKeepsNpcs(w, w.npcs[step.target].at, step.value, step.kind, step.found); }
  }

  lemma DropKeepsNpcs(w: World, c: Cell, value: int, kind: string, found: Option<string>)
    ensures var d := Drop(w, c, value, kind, found); d.npcs == w.npcs && d.cfg == w.cfg && d.nextNPC == w.nextNPC
  {
  }

  lemma StepKeepsGone(w: World, step: Step, n: string)
    requires Fits(w, step) && n !in w.npcs && BehindCounter(w, n)
    ensures n !in Do(w, step).npcs && BehindCounter(Do(w, step), n) && !HitsNpc(step, n)
  {
    hide Walkable, NpcId, PlayerTarget, SafePosition, Found, FirstFree, FewNPCs, FewTreasures;
    if step.AttackNPC? && step.target in w.npcs {
      hide Drop;
      DropKeepsNpcs(w, w.npcs[step.target].at, step.value, step.kind, step.found);
    }
  }

  ghost function BlowsOnNpc(w: World, steps: seq<Step>, n: string): int {
    if steps == [] then 0
    else
      var before := steps[..|steps| - 1];
      BlowsOnNpc(w, before, n) + BlowOnNpc(Run(w, before), steps[|steps| - 1], n)
  }

  lemma AllFitBefore(w: World, steps: seq<Step>)
    requires AllFit(w, steps) && steps != []
    ensures AllFit(w, steps[..|steps| - 1]) && Fits(Run(w, steps[..|steps| - 1]), steps[|steps| - 1])
  {
    hide Fits, Run;
    var before := steps[..|steps| - 1];
    forall i | 0 <= i < |before| ensures Fits(Run(w, before[..i]), before[i]) { assert before[..i] == steps[..i]; }
  }

  // An NPC of h hit points is gone after the first blows whose attacks add up to h, and not before; until then it has
  // h less the blows.
  lemma {:induction false} NpcFallsIff(w: World, steps: seq<Step>, n: string)
    requires Keyed(w) && AllFit(w, steps) && n in w.npcs && w.npcs[n].hp > 0 && BehindCounter(w, n)
    ensures var v, blows := Run(w, steps), BlowsOnNpc(w, steps, n);
            && (n in v.npcs <==> blows < w.npcs[n].hp)
            && (n in v.npcs ==> v.npcs[n] == w.npcs[n].(hp := w.npcs[n].hp - blows, at := v.npcs[n].at))
            && BehindCounter(v, n)
  {
    hide Do, Fits, AllFit, Keyed, BehindCounter;
    if steps != [] {
      var before, last := steps[..|steps| - 1], steps[|steps| - 1];
      AllFitBefore(w, steps);
      NpcFallsIff(w, before, n);
      RunKeepsKeyed(w, before);
      if n in Run(w, before).npcs {
        StepHitsNpc(Run(w, before), last, n);
      } else {
        StepKeepsGone(Run(w, before), last, n);
      }
    }
  }

  // Every NPC of a run from the empty world is behind the counter.
  ghost predicate AllBehind(w: World) { forall n | n in w.npcs :: BehindCounter(w, n) }

  lemma StepKeepsBehind(w: World, step: Step)
    requires AllBehind(w)
    ensures AllBehind(Do(w, step))
  {
    hide Walkable, NpcTarget, PlayerTarget, SafePosition, Found, FirstFree, NpcId;
    var t := Do(w, step);
    forall n | n in t.npcs ensures BehindCounter(t, n) {
      if n in w.npcs {
        assert BehindCounter(w, n);
      } else {
        SpawnedIsBehind(w, step, n);
      }
    }
  }

  lemma SpawnedIsBehind(w: World, step: Step, n: string)
    requires n in Do(w, step).npcs && n !in w.npcs
    ensures n == NpcId(w.cfg, w.nextNPC) && BehindCounter(Do(w, step), n)
  {
    hide Walkable, PlayerTarget, SafePosition, Found, FirstFree, NpcId;
    assert step.SpawnNPC?;
    forall k: nat | k > w.nextNPC ensures NpcId(w.cfg, w.nextNPC) != NpcId(w.cfg, k) {
      if NpcId(w.cfg, w.nextNPC) == NpcId(w.cfg, k) { NpcIdInjective(w.cfg, w.nextNPC, k); }
    }
  }

  lemma {:induction false} NewWorldsAreBehind(cfg: Config, grid: Grid, steps: seq<Step>)
    ensures AllBehind(Run(EmptyWorld(cfg, grid), steps))
  {
    hide Do, AllBehind;
    if steps == [] {
      NobodyIsBehind(cfg, grid);
    } else {
      NewWorldsAreBehind(cfg, grid, steps[..|steps| - 1]);
      StepKeepsBehind(Run(EmptyWorld(cfg, grid), steps[..|steps| - 1]), steps[|steps| - 1]);
    }
  }

  lemma NobodyIsBehind(cfg: Config, grid: Grid)
    ensures AllBehind(EmptyWorld(cfg, grid))
  {
  }

  // ---- players ----

  predicate HitsPlayer(step: Step, u: string) {
    (step.AttackPlayer? && step.target == u) || (step.NPCAttack? && step.target == u)
  }

  function BlowOnPlayer(w: World, step: Step, u: string): int {
    if step.AttackPlayer? && step.target == u && step.user in w.players then w.players[step.user].attack
    else if step.NPCAttack? && step.target == u && step.npc in w.npcs then w.npcs[step.npc].attack
    else 0
  }

  // The player is not healed or brought back and does not come or go.
  predicate LeavesAlone(step: Step, u: string) {
    !((step.Refresh? && step.user == u) || (step.Heal? && step.user == u) || (step.Leave? && step.user == u)
      || (step.Join? && step.profile.username == u))
  }

  // The same, but for refreshes before the player is due to come back.
  predicate NotHelped(w: World, step: Step, u: string) {
    || LeavesAlone(step, u)
    || (step.Refresh? && step.user == u && u in w.players
        && (w.players[u].alive || w.players[u].respawnAt == 0 || step.now < w.players[u].respawnAt))
  }

  lemma DropKeepsPlayers(w: World, c: Cell, value: int, kind: string, found: Option<string>)
    ensures Drop(w, c, value, kind, found).players == w.players
  {
  }

  // A blow takes exactly the attack of the one who hits; with nothing left the player is down for four seconds, where
  // it stood.
  lemma BlowLands(w: World, step: Step, u: string)
    requires Keyed(w) && Fits(w, step) && HitsPlayer(step, u)
    ensures u in w.players && w.players[u].alive && u in Do(w, step).players
    ensures var p, q, left := w.players[u], Do(w, step).players[u], w.players[u].hp - BlowOnPlayer(w, step, u);
            if left <= 0
            then q == p.(hp := 0, alive := false, deaths := p.deaths + 1, respawnAt := step.now + 4, lastUpdate := step.now)
            else q == p.(hp := left, lastUpdate := q.lastUpdate)
  {
    hide NpcTarget;
  }

  // No other step touches hit points or life, but heals, respawns, joins and leaves.
  lemma OthersLeaveHitPoints(w: World, step: Step, u: string)
    requires Keyed(w) && Fits(w, step) && u in w.players && LeavesAlone(step, u) && !HitsPlayer(step, u)
    ensures var t, p := Do(w, step), w.players[u];
            && u in t.players && t.players[u].maxHp == p.maxHp && t.players[u].hp == p.hp && t.players[u].alive == p.alive
            && t.players[u].deaths == p.deaths && t.players[u].respawnAt == p.respawnAt
  {
    hide Walkable, NpcTarget, SafePosition, Found, FirstFree, Drop, FewNPCs, FewTreasures;
    if step.AttackNPC? && step.target in w.npcs { DropKeepsPlayers(w, w.npcs[step.target].at, step.value, step.kind, step.found); }
    if step.SpawnTreasure? { DropKeepsPlayers(w, step.cell, step.value, step.kind, step.found); }
  }

  lemma EarlyRefreshDoesNothing(w: World, step: Step, u: string)
    requires u in w.players && NotHelped(w, step, u) && !LeavesAlone(step, u)
    ensures Do(w, step) == w && !HitsPlayer(step, u)
  {
    hide SafePosition;
  }

  ghost function BlowsOnPlayer(w: World, steps: seq<Step>, u: string): int {
    if steps == [] then 0
    else
      var before := steps[..|steps| - 1];
      BlowsOnPlayer(w, before, u) + BlowOnPlayer(Run(w, before), steps[|steps| - 1], u)
  }

  lemma StepOfPlayer(w: World, step: Step, u: string)
    requires Keyed(w) && Fits(w, step) && u in w.players && NotHelped(w, step, u)
    ensures u in Do(w, step).players
    ensures var p, q, left := w.players[u], Do(w, step).players[u], w.players[u].hp - BlowOnPlayer(w, step, u);
            && (!p.alive ==> !q.alive && q.hp == p.hp && q.deaths == p.deaths && !HitsPlayer(step, u))
            && (p.alive && HitsPlayer(step, u) && left <= 0 ==> !q.alive && q.hp == 0 && q.deaths == p.deaths + 1)
            && (p.alive && (!HitsPlayer(step, u) || left > 0) ==> q.alive && q.hp == left && q.deaths == p.deaths)
  {
    hide Do, Fits, Keyed;
    if HitsPlayer(step, u) {
      BlowLands(w, step, u);
    } else if LeavesAlone(step, u) {
      OthersLeaveHitPoints(w, step, u);
    } else {
      EarlyRefreshDoesNothing(w, step, u);
    }
  }

  // A player of h hit points that is not healed is down after the first blows that add up to h, and not before.
  lemma {:induction false} PlayerFallsIff(w: World, steps: seq<Step>, u: string)
    requires Keyed(w) && AllFit(w, steps) && u in w.players && w.players[u].alive && w.players[u].hp > 0
    requires forall i | 0 <= i < |steps| :: NotHelped(Run(w, steps[..i]), steps[i], u)
    ensures var v, p, blows := Run(w, steps), w.players[u], BlowsOnPlayer(w, steps, u);
            && u in v.players && (v.players[u].alive <==> blows < p.hp)
            && v.players[u].hp == (if v.players[u].alive then p.hp - blows else 0)
            && v.players[u].deaths == p.deaths + if v.players[u].alive then 0 else 1
  {
    hide Do, Fits, AllFit, Keyed, NotHelped, HitsPlayer;
    if steps != [] {
      var before, last := steps[..|steps| - 1], steps[|steps| - 1];
      forall i | 0 <= i < |before| ensures NotHelped(Run(w, before[..i]), before[i], u) { assert before[..i] == steps[..i]; }
      AllFitBefore(w, steps);
      PlayerFallsIff(w, before, u);
      RunKeepsKeyed(w, before);
      StepOfPlayer(Run(w, before), last, u);
      if !HitsPlayer(last, u) { NoBlow(Run(w, before), last, u); }
    }
  }

  lemma NoBlow(w: World, step: Step, u: string)
    requires !HitsPlayer(step, u)
    ensures BlowOnPlayer(w, step, u) == 0
  {
  }

  // ---- what brings points back ----

  // A heal costs a potion and gives thirty points, up to the maximum.
  lemma HealGives(w: World, u: string, now: nat)
    requires u in w.players
    ensures var t, p := Do(w, Heal(u, now)), w.players[u];
            && t.players.Keys == w.players.Keys
            && t == w.(players := w.players[u := t.players[u]], version := t.version)
            && (if p.alive && p.potions > 0
                then t.players[u] == p.(hp := if p.hp + 30 > p.maxHp then p.maxHp else p.hp + 30, potions := p.potions - 1,
                                        lastUpdate := now)
                     && t.version == w.version + 1
                else t == w)
  {
    if !(w.players[u].alive && w.players[u].potions > 0) { assert w.players[u := w.players[u]] == w.players; }
  }

  // A respawn comes exactly when the time is over, with full hit points and at least three potions.
  lemma RespawnGives(w: World, u: string, now: nat, c: Cell)
    requires u in w.players && Fits(w, Refresh(u, now, c))
    ensures var t, p := Do(w, Refresh(u, now, c)), w.players[u];
            && t == w.(players := w.players[u := t.players[u]], version := t.version)
            && (if !p.alive && p.respawnAt != 0 && now >= p.respawnAt
                then t.players[u] == p.(at := c, hp := p.maxHp, potions := if p.potions < 3 then 3 else p.potions, alive := true,
                                        respawnAt := 0, lastUpdate := now)
                     && t.version == w.version + 1
                else t == w)
  {
    hide SafePosition;
    var p := w.players[u];
    if !(!p.alive && p.respawnAt != 0 && now >= p.respawnAt) { assert w.players[u := w.players[u]] == w.players; }
  }
}
