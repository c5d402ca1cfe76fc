/** What the world keeps over all its runs: occupancy, treasure, version. */
module WorldInvariants {
  import opened WorldData
  import opened Worlds

  // ---- occupancy ----

  ghost predicate Named(w: World) {
    && (forall u | u in w.players :: w.players[u].username == u && u != "")
    && (forall n | n in w.npcs :: w.npcs[n].id == n)
  }

  ghost predicate OnFloor(w: World) {
    && (forall u | u in w.players && w.players[u].alive :: Floor(w.terrain, w.players[u].at))
    && (forall n | n in w.npcs && w.npcs[n].alive :: Floor(w.terrain, w.npcs[n].at))
  }

  ghost predicate Apart(w: World) {
    && (forall u, v | u in w.players && v in w.players && u != v && w.players[u].alive && w.players[v].alive ::
          w.players[u].at != w.players[v].at)
    && (forall m, n | m in w.npcs && n in w.npcs && m != n && w.npcs[m].alive && w.npcs[n].alive ::
          w.npcs[m].at != w.npcs[n].at)
    && (forall u, n | u in w.players && n in w.npcs && w.players[u].alive && w.npcs[n].alive ::
          w.players[u].at != w.npcs[n].at)
  }

  // No two living units share a cell, and all stand on floor.
  ghost predicate Occupancy(w: World) { Named(w) && OnFloor(w) && Apart(w) }

  // Every player that this step places finds some walkable cell.
  ghost predicate HasRoom(w: World, step: Step) {
    match step
    case Refresh(u, now, _) => u in w.players && Due(w.players[u], now) ==> !Crowded(w, u)
    case Join(p, c, now) =>
      p.username != "" && (Joined(p, c, now).alive && Crowded(w, "") ==> Walkable(w, w.cfg.spawn, p.username))
    case _ => true
  }

  // Placing a player keeps occupancy exactly when its cell is walkable for it, or it is down.
  lemma PlacedPlayerKeepsOccupancy(w: World, w': World, u: string, p: Player)
    requires Occupancy(w) && u != "" && p.username == u
    requires w' == w.(players := w.players[u := p], version := w'.version)
    ensures Occupancy(w') <==> (p.alive ==> Walkable(w, p.at, u))
  {
    if p.alive && !Walkable(w, p.at, u) { BlockedCellCollides(w, w', u, p); }
  }

  lemma BlockedCellCollides(w: World, w': World, u: string, p: Player)
    requires Named(w) && p.username == u && p.alive && !Walkable(w, p.at, u)
    requires w' == w.(players := w.players[u := p], version := w'.version)
    ensures !Occupancy(w')
  {
    assert w'.players[u] == p;
    if v :| v in w.players && w.players[v].username != u && w.players[v].alive && w.players[v].at == p.at {
      assert w'.players[v] == w.players[v];
    } else if n :| n in w.npcs && w.npcs[n].alive && w.npcs[n].at == p.at {
      assert w'.npcs[n] == w.npcs[n];
    } else {
      assert !Floor(w.terrain, p.at);
    }
  }

  lemma UnmovedPlayerKeepsOccupancy(w: World, w': World, u: string, p: Player)
    requires Occupancy(w) && u in w.players && p.username == u
    requires w'.players == w.players[u := p] && w'.npcs == w.npcs && w'.terrain == w.terrain
    requires p.alive ==> w.players[u].alive && p.at == w.players[u].at
    ensures Occupancy(w')
  {
  }

  lemma MovedNpcKeepsOccupancy(w: World, w': World, n: string, npc: NPC)
    requires Occupancy(w) && npc.id == n && Walkable(w, npc.at, "")
    requires w' == w.(npcs := w.npcs[n := npc], version := w'.version, nextNPC := w'.nextNPC)
    ensures Occupancy(w')
  {
  }

  lemma FirstFreeIsWalkable(w: World, c: Cell, d: nat, tries: nat)
    ensures FirstFree(w, c, d, tries).Some? ==> Walkable(w, FirstFree(w, c, d, tries).value, "")
    decreases tries
  {
  }

  lemma RemovalKeepsOccupancy(w: World, w': World)
    requires Occupancy(w) && w'.terrain == w.terrain
    requires w'.players.Keys <= w.players.Keys && forall u | u in w'.players :: w'.players[u] == w.players[u]
    requires w'.npcs.Keys <= w.npcs.Keys && forall n | n in w'.npcs :: w'.npcs[n] == w.npcs[n]
    ensures Occupancy(w')
  {
  }

  lemma AttackNpcKeepsOccupancy(w: World, step: Step)
    requires Occupancy(w) && step.AttackNPC?
    ensures Occupancy(Do(w, step))
  {
    var w' := Do(w, step);
    if w' != w {
      var p := w'.players[step.user];
      var mid := w.(players := w.players[step.user := p]);
      UnmovedPlayerKeepsOccupancy(w, mid, step.user, p);
      if step.target in w'.npcs {
        var n := w'.npcs[step.target];
        assert w'.npcs == w.npcs[step.target := n] && n.at == w.npcs[step.target].at && n.id == step.target;
        SameCellKeepsOccupancy(mid, w', step.target, n);
      } else {
        RemovalKeepsOccupancy(mid, w');
      }
    }
  }

  lemma SameCellKeepsOccupancy(w: World, w': World, n: string, npc: NPC)
    requires Occupancy(w) && n in w.npcs && npc.id == n && npc.at == w.npcs[n].at && w.npcs[n].alive
    requires w'.players == w.players && w'.terrain == w.terrain && w'.npcs == w.npcs[n := npc]
    ensures Occupancy(w')
  {
  }

  lemma AttackPlayerKeepsOccupancy(w: World, step: Step)
    requires Occupancy(w) && step.AttackPlayer?
    ensures Occupancy(Do(w, step))
  {
    var w' := Do(w, step);
    if w' != w {
      var mid := w.(players := w.players[step.user := w'.players[step.user]]);
      UnmovedPlayerKeepsOccupancy(w, mid, step.user, w'.players[step.user]);
      UnmovedPlayerKeepsOccupancy(mid, w', step.target, w'.players[step.target]);
    }
  }

  lemma NpcActKeepsOccupancy(w: World, step: Step)
    requires Occupancy(w) && (step.NPCAttack? || step.NPCMove?)
    ensures Occupancy(Do(w, step))
  {
    var w' := Do(w, step);
    if w' != w {
      if step.NPCAttack? {
        UnmovedPlayerKeepsOccupancy(w, w', step.target, w'.players[step.target]);
      } else {
        FirstFreeIsWalkable(w, w.npcs[step.npc].at, step.base, 4);
        MovedNpcKeepsOccupancy(w, w', step.npc, w'.npcs[step.npc]);
      }
    }
  }

  lemma MoveKeepsOccupancy(w: World, step: Step)
    requires Occupancy(w) && step.Move?
    ensures Occupancy(Do(w, step))
  {
    hide Occupancy, Walkable;
    var w' := Do(w, step);
    if w' != w {
      NamesMatch(w);
      var mid := w.(players := w'.players, version := w'.version);
      PlacedPlayerKeepsOccupancy(w, mid, step.user, w'.players[step.user]);
      RemovalKeepsOccupancy(mid, w');
    }
  }

  lemma StandingPlayerKeepsOccupancy(w: World, step: Step)
    requires Occupancy(w) && (step.Heal? || step.Buy? || step.Reward?)
    ensures Occupancy(Do(w, step))
  {
    hide Apart, OnFloor;
    var w' := Do(w, step);
    if w' != w { UnmovedPlayerKeepsOccupancy(w, w', step.user, w'.players[step.user]); }
  }

  lemma StepKeepsOccupancy(w: World, step: Step)
    requires Occupancy(w) && HasRoom(w, step)
    ensures Occupancy(Do(w, step))
  {
    hide Occupancy, Walkable, NpcTarget, PlayerTarget, DoMove, DoAttackNPC, DoAttackPlayer, DoNPCAttack, DoNPCMove,
         DoHeal, DoBuy, DoReward;
    var w' := Do(w, step);
    if w' != w {
      NamesMatch(w);
      match step
      case Refresh(u, _, c) => PlacedPlayerKeepsOccupancy(w, w', u, w'.players[u]);
      case Move(_, _, _, _) => MoveKeepsOccupancy(w, step);
      case Join(p, c, now) => JoinKeepsOccupancyIffRoom(w, p, c, now);
      case Heal(_, _) => StandingPlayerKeepsOccupancy(w, step);
      case Buy(_, _, _) => StandingPlayerKeepsOccupancy(w, step);
      case Reward(_, _, _, _) => StandingPlayerKeepsOccupancy(w, step);
      case AttackNPC(_, _, _, _, _, _) => AttackNpcKeepsOccupancy(w, step);
      case AttackPlayer(_, _, _) => AttackPlayerKeepsOccupancy(w, step);
      case Leave(_) => RemovalKeepsOccupancy(w, w');
      case SpawnNPC(c, _) => MovedNpcKeepsOccupancy(w, w', NpcId(w.cfg, w.nextNPC), w'.npcs[NpcId(w.cfg, w.nextNPC)]);
      case SpawnTreasure(_, _, _, _) => RemovalKeepsOccupancy(w, w');
      case NPCAttack(_, _, _) => NpcActKeepsOccupancy(w, step);
      case NPCMove(_, _) => NpcActKeepsOccupancy(w, step);
    }
  }

  lemma NamesMatch(w: World)
    requires Occupancy(w)
    ensures Named(w)
  {
  }

  lemma WalkableForAnyone(w: World, c: Cell, u: string)
    requires Named(w) && Walkable(w, c, "")
    ensures Walkable(w, c, u)
  {
  }

  // Each step of the run finds room for the player it places.
  ghost predicate AlwaysRoom(w: World, steps: seq<Step>) {
    forall i | 0 <= i < |steps| :: HasRoom(Run(w, steps[..i]), steps[i])
  }

  lemma {:induction false} OccupancyOverRuns(w: World, steps: seq<Step>)
    requires Occupancy(w) && AlwaysRoom(w, steps)
    ensures Occupancy(Run(w, steps))
  {
    hide Do;
    if steps != [] {
      var before := steps[..|steps| - 1];
      forall i | 0 <= i < |before| ensures HasRoom(Run(w, before[..i]), before[i]) {
        assert before[..i] == steps[..i] && HasRoom(Run(w, steps[..i]), steps[i]);
      }
      OccupancyOverRuns(w, before);
      StepKeepsOccupancy(Run(w, before), steps[|steps| - 1]);
    }
  }

  // ---- room by counting ----

  function FloorCells(g: Grid): set<Cell> {
    set y, x | 0 <= y < |g| && 0 <= x < |g[y]| && g[y][x] != '#' :: Cell(x, y)
  }

  function LivingPlayers(w: World, ignore: string): set<string> {
    set u | u in w.players && w.players[u].alive && w.players[u].username != ignore
  }

  function LivingNpcs(w: World): set<string> {
    set n | n in w.npcs && w.npcs[n].alive
  }

  function PlayerCells(w: World): map<string, Cell> { map u | u in w.players :: w.players[u].at }
  function NpcCells(w: World): map<string, Cell> { map n | n in w.npcs :: w.npcs[n].at }

  function CellsOf(at: map<string, Cell>, ks: set<string>): set<Cell>
    requires ks <= at.Keys
  {
    set k | k in ks :: at[k]
  }

  function TakenCells(w: World, ignore: string): set<Cell> {
    CellsOf(PlayerCells(w), LivingPlayers(w, ignore)) + CellsOf(NpcCells(w), LivingNpcs(w))
  }

  // No more cells than there are units, and as many when each has its own.
  lemma {:induction false} CellsCounted(at: map<string, Cell>, ks: set<string>)
    requires ks <= at.Keys
    ensures |CellsOf(at, ks)| <= |ks|
    ensures (forall j, k | j in ks && k in ks && j != k :: at[j] != at[k]) ==> |CellsOf(at, ks)| == |ks|
  {
    if ks != {} {
      var k :| k in ks;
      CellsCounted(at, ks - {k});
      assert CellsOf(at, ks) == CellsOf(at, ks - {k}) + {at[k]};
    }
  }

  lemma TakenCounted(w: World, ignore: string)
    ensures |TakenCells(w, ignore)| <= |LivingPlayers(w, ignore)| + |LivingNpcs(w)|
    ensures Apart(w) ==> |TakenCells(w, ignore)| == |LivingPlayers(w, ignore)| + |LivingNpcs(w)|
  {
    var ps, ns := CellsOf(PlayerCells(w), LivingPlayers(w, ignore)), CellsOf(NpcCells(w), LivingNpcs(w));
    CellsCounted(PlayerCells(w), LivingPlayers(w, ignore));
    CellsCounted(NpcCells(w), LivingNpcs(w));
    assert Apart(w) ==> ps !! ns;
    hide CellsOf, Apart;
    assert ps !! ns ==> |ps + ns| == |ps| + |ns|;
    assert |ps + ns| == |ps| + |ns| - |ps * ns|;
  }

  lemma CrowdedTakesAll(w: World, ignore: string)
    requires Crowded(w, ignore)
    ensures FloorCells(w.terrain) <= TakenCells(w, ignore)
  {
    forall c | c in FloorCells(w.terrain) ensures c in TakenCells(w, ignore) {
      assert Floor(w.terrain, c) && !Walkable(w, c, ignore);
      if u :| u in w.players && w.players[u].username != ignore && w.players[u].alive && w.players[u].at == c {
        assert u in LivingPlayers(w, ignore) && PlayerCells(w)[u] == c;
      } else {
        var n :| n in w.npcs && w.npcs[n].alive && w.npcs[n].at == c;
        assert n in LivingNpcs(w) && NpcCells(w)[n] == c;
      }
    }
  }

  // With fewer other living units than floor cells there is a walkable cell, so the unchecked spawn point is
  // never used.
  lemma FewerUnitsThanCellsLeaveRoom(w: World, ignore: string)
    requires |LivingPlayers(w, ignore)| + |LivingNpcs(w)| < |FloorCells(w.terrain)|
    ensures !Crowded(w, ignore)
  {
    TakenCounted(w, ignore);
    if Crowded(w, ignore) {
      CrowdedTakesAll(w, ignore);
      SubsetIsNoLarger(FloorCells(w.terrain), TakenCells(w, ignore));
      assert false;
    }
  }

  lemma {:induction false} SubsetIsNoLarger<T>(a: set<T>, b: set<T>)
    requires a <= b
    ensures |a| <= |b|
  {
    if a != {} {
      var x :| x in a;
      SubsetIsNoLarger(a - {x}, b - {x});
    }
  }

  // Fewer other living units than floor cells, at each step that places a player.
  ghost predicate EnoughFloor(w: World, step: Step) {
    match step
    case Refresh(u, now, _) =>
      u in w.players && Due(w.players[u], now) ==> |LivingPlayers(w, u)| + |LivingNpcs(w)| < |FloorCells(w.terrain)|
    case Join(p, _, _) => p.username != "" && |LivingPlayers(w, "")| + |LivingNpcs(w)| < |FloorCells(w.terrain)|
    case _ => true
  }

  lemma EnoughFloorIsRoom(w: World, step: Step)
    requires EnoughFloor(w, step)
    ensures HasRoom(w, step)
  {
    hide Crowded, LivingPlayers, LivingNpcs, FloorCells;
    match step
    case Refresh(u, now, _) => if u in w.players && Due(w.players[u], now) { FewerUnitsThanCellsLeaveRoom(w, u); }
    case Join(_, _, _) => FewerUnitsThanCellsLeaveRoom(w, "");
    case _ =>
  }

  lemma OccupancyByCounting(w: World, steps: seq<Step>)
    requires Occupancy(w) && forall i | 0 <= i < |steps| :: EnoughFloor(Run(w, steps[..i]), steps[i])
    ensures Occupancy(Run(w, steps))
  {
    forall i | 0 <= i < |steps| ensures HasRoom(Run(w, steps[..i]), steps[i]) {
      EnoughFloorIsRoom(Run(w, steps[..i]), steps[i]);
    }
    OccupancyOverRuns(w, steps);
  }

  // ---- exactly when occupancy is kept ----

  // The fallback is unchecked: a due respawn keeps occupancy exactly when some cell is walkable.
  lemma RespawnKeepsOccupancyIffRoom(w: World, u: string, now: nat, c: Cell)
    requires Occupancy(w) && u in w.players && Due(w.players[u], now) && SafePosition(w, w.cfg.spawn, u, c)
    ensures Occupancy(Do(w, Refresh(u, now, c))) <==> !Crowded(w, u)
  {
    hide Occupancy, Walkable;
    NamesMatch(w);
    PlacedPlayerKeepsOccupancy(w, Do(w, Refresh(u, now, c)), u, Respawned(w.players[u], c, now));
  }

  // A join keeps it exactly when the player is named and is down, finds a walkable cell, or takes the spawn point
  // from itself.
  lemma JoinKeepsOccupancyIffRoom(w: World, p: Profile, c: Cell, now: nat)
    requires Occupancy(w) && SafePosition(w, Preferred(w, p), "", c)
    ensures Occupancy(Do(w, Join(p, c, now))) <==>
              && p.username != ""
              && (!Joined(p, c, now).alive || !Crowded(w, "") || Walkable(w, w.cfg.spawn, p.username))
  {
    hide OnFloor, Apart, Walkable;
    if p.username == "" {
      assert "" in Do(w, Join(p, c, now)).players;
    } else {
      PlacedPlayerKeepsOccupancy(w, Do(w, Join(p, c, now)), p.username, Joined(p, c, now));
      if !Crowded(w, "") { WalkableForAnyone(w, c, p.username); }
    }
  }

  lemma StepKeepsOccupancyIff(w: World, step: Step)
    requires Occupancy(w) && Fits(w, step)
    ensures Occupancy(Do(w, step)) <==> HasRoom(w, step)
  {
    hide Occupancy, Walkable, Do;
    NamesMatch(w);
    if step.Refresh? && step.user in w.players && Due(w.players[step.user], step.now) {
      RespawnKeepsOccupancyIffRoom(w, step.user, step.now, step.cell);
    } else if step.Join? {
      JoinKeepsOccupancyIffRoom(w, step.profile, step.cell, step.now);
    } else {
      StepKeepsOccupancy(w, step);
    }
  }

  // A run keeps occupancy all along exactly when it starts with it and every placed player has room.
  lemma {:induction false} OccupancyAlongRunsIff(w: World, steps: seq<Step>)
    requires AllFit(w, steps)
    ensures (forall n | 0 <= n <= |steps| :: Occupancy(Run(w, steps[..n]))) <==> Occupancy(w) && AlwaysRoom(w, steps)
  {
    hide Do, Occupancy, Fits, HasRoom;
    if Occupancy(w) && AlwaysRoom(w, steps) {
      forall n | 0 <= n <= |steps| ensures Occupancy(Run(w, steps[..n])) {
        forall i | 0 <= i < n ensures HasRoom(Run(w, steps[..n][..i]), steps[..n][i]) { assert steps[..n][..i] == steps[..i]; }
        OccupancyOverRuns(w, steps[..n]);
      }
    }
    if forall n | 0 <= n <= |steps| :: Occupancy(Run(w, steps[..n])) {
      assert Run(w, steps[..0]) == w;
      forall i | 0 <= i < |steps| ensures HasRoom(Run(w, steps[..i]), steps[i]) {
        assert steps[..i + 1][..i] == steps[..i];
        assert Occupancy(Run(w, steps[..i + 1])) && Fits(Run(w, steps[..i]), steps[i]);
        StepKeepsOccupancyIff(Run(w, steps[..i]), steps[i]);
      }
    }
  }

  lemma EmptyWorldHasOccupancy(cfg: Config, grid: Grid)
    ensures Occupancy(EmptyWorld(cfg, grid))
  {
  }

  // Where the spawn point is floor, a respawn without room puts the player on the cell of another living unit.
  lemma BlockedRespawnSharesACell(w: World, u: string, now: nat, c: Cell)
    requires Occupancy(w) && u in w.players && Due(w.players[u], now) && Crowded(w, u) && Floor(w.terrain, w.cfg.spawn)
    ensures var t := Do(w, Refresh(u, now, c));
            Fits(w, Refresh(u, now, c)) ==>
              && t.players[u].alive && t.players[u].at == w.cfg.spawn
              && ((exists v | v in t.players :: v != u && t.players[v].alive && t.players[v].at == w.cfg.spawn)
                  || (exists n | n in t.npcs :: t.npcs[n].alive && t.npcs[n].at == w.cfg.spawn))
  {
    assert !Walkable(w, w.cfg.spawn, u);
    var t := Do(w, Refresh(u, now, c));
    if v :| v in w.players && w.players[v].username != u && w.players[v].alive && w.players[v].at == w.cfg.spawn {
      assert v != u && t.players[v] == w.players[v];
    }
  }

  // ---- crowding, counted ----

  // With occupancy there is no walkable cell exactly when the other living units are as many as the floor cells.
  lemma CrowdedIffCounted(w: World, ignore: string)
    requires Occupancy(w)
    ensures Crowded(w, ignore) <==> |LivingPlayers(w, ignore)| + |LivingNpcs(w)| == |FloorCells(w.terrain)|
  {
    TakenOnFloor(w, ignore);
    TakenCounted(w, ignore);
    hide Occupancy, LivingPlayers, LivingNpcs, FloorCells, TakenCells;
    if Crowded(w, ignore) {
      CrowdedTakesAll(w, ignore);
      assert TakenCells(w, ignore) == FloorCells(w.terrain);
    } else {
      var c :| Walkable(w, c, ignore);
      FreeIsNotTaken(w, c, ignore);
      SubsetIsNoLarger(TakenCells(w, ignore), FloorCells(w.terrain) - {c});
    }
  }

  lemma TakenOnFloor(w: World, ignore: string)
    requires Occupancy(w)
    ensures TakenCells(w, ignore) <= FloorCells(w.terrain)
  {
  }

  lemma FreeIsNotTaken(w: World, c: Cell, ignore: string)
    requires Walkable(w, c, ignore)
    ensures c in FloorCells(w.terrain) && c !in TakenCells(w, ignore)
  {
  }

  // So whether a due respawn keeps occupancy is a count the caller can take before.
  lemma RespawnKeepsOccupancyIffFewer(w: World, u: string, now: nat, c: Cell)
    requires Occupancy(w) && u in w.players && Due(w.players[u], now) && SafePosition(w, w.cfg.spawn, u, c)
    ensures Occupancy(Do(w, Refresh(u, now, c))) <==>
              |LivingPlayers(w, u)| + |LivingNpcs(w)| < |FloorCells(w.terrain)|
  {
    hide Occupancy, Crowded, LivingPlayers, LivingNpcs, FloorCells, SafePosition;
    RespawnKeepsOccupancyIffRoom(w, u, now, c);
    CrowdedIffCounted(w, u);
    CountedAtMost(w, u);
  }

  lemma CountedAtMost(w: World, ignore: string)
    requires Occupancy(w)
    ensures |LivingPlayers(w, ignore)| + |LivingNpcs(w)| <= |FloorCells(w.terrain)|
  {
    TakenOnFloor(w, ignore);
    TakenCounted(w, ignore);
    hide Occupancy, LivingPlayers, LivingNpcs, FloorCells, TakenCells;
    SubsetIsNoLarger(TakenCells(w, ignore), FloorCells(w.terrain));
  }

  // ---- version ----

  // The version never falls, and a step that changes anything raises it.
  lemma StepRaisesVersion(w: World, step: Step)
    ensures Do(w, step).version >= w.version
    ensures Do(w, step).version == w.version ==> Do(w, step) == w
  {
    hide Walkable, NpcTarget, PlayerTarget, SafePosition, Found, FirstFree;
  }

  lemma {:induction false} VersionDetectsChange(w: World, steps: seq<Step>, more: seq<Step>)
    ensures Run(w, steps + more).version >= Run(w, steps).version
    ensures Run(w, steps + more).version == Run(w, steps).version ==> Run(w, steps + more) == Run(w, steps)
  {
    hide Do;
    if more == [] {
      assert steps + more == steps;
    } else {
      var last, all := |more| - 1, steps + more;
      assert all[..|all| - 1] == steps + more[..last] && all[|all| - 1] == more[last];
      VersionDetectsChange(w, steps, more[..last]);
      StepRaisesVersion(Run(w, steps + more[..last]), more[last]);
    }
  }
}
