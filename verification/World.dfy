/**
 One map's world and its steps under the world's lock. Clock readings, random draws and the order in which Go
 walks a map enter as arguments of the step; a step whose arguments do not fit the state does nothing.
 */
module Worlds {
  import opened Text
  import opened WorldData

  const INIT_HP := 120
  const INIT_ATTACK := 35
  const ATTACK_RANGE := 2
  const NPC_DAMAGE := 18
  const HEAL_AMOUNT := 30
  const MAX_POTIONS := 3
  const POTION_CAP := 8
  const POTION_PRICE := 3
  const WEAPON_PRICE := 8
  const WEAPON_BOOST := 6
  const RESPAWN_SECONDS := 4
  const NPC_NAMES := 6
  const MIN_NPCS := 5
  const MAX_TREASURES := 8

  datatype Config = Config(id: string, spawn: Cell)

  // respawnAt == 0 is the zero time.
  datatype Player = Player(
    username: string, at: Cell, hp: int, maxHp: int, attack: int, potions: int, treasures: int,
    kills: int, deaths: int, victories: int, alive: bool, respawnAt: nat, lastUpdate: nat)

  datatype Profile = Profile(
    username: string, lastMap: string, at: Cell, hp: int, maxHp: int, attack: int, potions: int, treasures: int,
    kills: int, deaths: int, victories: int, alive: bool)

  datatype World = World(
    cfg: Config,
    terrain: Grid,
    players: map<string, Player>,
    npcs: map<string, NPC>,
    treasures: map<string, Treasure>,
    version: int,
    nextNPC: nat,
    nextTreasure: nat)

  // ---- cells ----

  predicate Floor(g: Grid, c: Cell) {
    0 <= c.y < |g| && 0 <= c.x < |g[c.y]| && g[c.y][c.x] != '#'
  }

  // walkableForLocked; the empty name ignores nobody as long as nobody is called that.
  predicate Walkable(w: World, c: Cell, ignore: string) {
    && Floor(w.terrain, c)
    && (forall u | u in w.players :: !(w.players[u].username != ignore && w.players[u].alive && w.players[u].at == c))
    && (forall n | n in w.npcs :: !(w.npcs[n].alive && w.npcs[n].at == c))
  }

  ghost predicate Crowded(w: World, ignore: string) {
    forall c :: !Walkable(w, c, ignore)
  }

  // findSafePositionLocked: the preferred cell, else some walkable cell, else the spawn point unchecked.
  ghost predicate SafePosition(w: World, preferred: Cell, ignore: string, c: Cell) {
    if Walkable(w, preferred, ignore) then c == preferred
    else if Crowded(w, ignore) then c == w.cfg.spawn
    else Walkable(w, c, ignore)
  }

  function Abs(n: int): int { if n < 0 then -n else n }

  function Distance(a: Cell, b: Cell): int { Abs(a.x - b.x) + Abs(a.y - b.y) }

  function ValueOr(v: int, fallback: int): int { if v == 0 then fallback else v }

  function Toward(c: Cell, dir: string): Cell {
    match dir
    case "up" => Cell(c.x, c.y - 1)
    case "down" => Cell(c.x, c.y + 1)
    case "left" => Cell(c.x - 1, c.y)
    case "right" => Cell(c.x + 1, c.y)
    case _ => c
  }

  // ---- treasures ----

  function TreasureId(cfg: Config, n: nat): string { cfg.id + "-t-" + Decimal(n) }
  function NpcId(cfg: Config, n: nat): string { cfg.id + "-npc-" + Decimal(n) }

  ghost predicate TreasureAt(w: World, c: Cell, id: string) {
    id in w.treasures && w.treasures[id].at == c
  }

  ghost predicate NoTreasureAt(w: World, c: Cell) {
    forall id | id in w.treasures :: w.treasures[id].at != c
  }

  // What treasureAtLocked may find: any treasure of the cell, nothing only if there is none.
  ghost predicate Found(w: World, c: Cell, found: Option<string>) {
    match found
    case Some(id) => TreasureAt(w, c, id)
    case None => NoTreasureAt(w, c)
  }

  predicate InGrid(g: Grid, c: Cell) { 0 <= c.y < |g| && 0 <= c.x < |g[c.y]| }

  function Drop(w: World, c: Cell, value: int, kind: string, found: Option<string>): World {
    if !InGrid(w.terrain, c) then w
    else if found.Some? && found.value in w.treasures then
      var t := w.treasures[found.value];
      w.(treasures := w.treasures[found.value := t.(value := t.value + value)], version := w.version + 1)
    else
      var id := TreasureId(w.cfg, w.nextTreasure);
      w.(treasures := w.treasures[id := Treasure(id, kind, c, value)], version := w.version + 1, nextTreasure := w.nextTreasure + 1)
  }

  // ---- players ----

  predicate Due(p: Player, now: nat) {
    !p.alive && p.respawnAt != 0 && now >= p.respawnAt
  }

  function Respawned(p: Player, c: Cell, now: nat): Player {
    p.(at := c, hp := p.maxHp, potions := if p.potions > MAX_POTIONS then p.potions else MAX_POTIONS,
       alive := true, respawnAt := 0, lastUpdate := now)
  }

  function KnockedDown(p: Player, now: nat): Player {
    p.(hp := 0, alive := false, deaths := p.deaths + 1, respawnAt := now + RESPAWN_SECONDS, lastUpdate := now)
  }

  function Hit(p: Player, damage: int, now: nat): Player {
    if p.hp - damage <= 0 then KnockedDown(p, now) else p.(hp := p.hp - damage)
  }

  function Joined(p: Profile, c: Cell, now: nat): Player {
    var hp, maxHp := ValueOr(p.hp, INIT_HP), ValueOr(p.maxHp, INIT_HP);
    Player(p.username, c, if hp <= 0 then maxHp else hp, maxHp, ValueOr(p.attack, INIT_ATTACK),
           ValueOr(p.potions, MAX_POTIONS), p.treasures, p.kills, p.deaths, p.victories, hp <= 0 || p.alive, 0, now)
  }

  function Preferred(w: World, p: Profile): Cell {
    if p.lastMap == w.cfg.id then p.at else w.cfg.spawn
  }

  // ---- targets: least HP, then least id ----

  predicate NpcInRange(w: World, c: Cell, id: string) {
    id in w.npcs && w.npcs[id].alive && Distance(c, w.npcs[id].at) <= ATTACK_RANGE
  }

  predicate PlayerInRange(w: World, c: Cell, range: int, except: Option<string>, u: string) {
    u in w.players && except != Some(w.players[u].username) && w.players[u].alive && Distance(c, w.players[u].at) <= range
  }

  predicate Before(hpA: int, idA: string, hpB: int, idB: string) {
    hpA < hpB || (hpA == hpB && Le(idA, idB))
  }

  ghost predicate NpcTarget(w: World, c: Cell, target: Option<string>) {
    match target
    case None => forall id :: !NpcInRange(w, c, id)
    case Some(id) =>
      && NpcInRange(w, c, id)
      && forall other | NpcInRange(w, c, other) :: Before(w.npcs[id].hp, w.npcs[id].id, w.npcs[other].hp, w.npcs[other].id)
  }

  ghost predicate PlayerTarget(w: World, c: Cell, range: int, except: Option<string>, target: Option<string>) {
    match target
    case None => forall u :: !PlayerInRange(w, c, range, except, u)
    case Some(u) =>
      && PlayerInRange(w, c, range, except, u)
      && forall other | PlayerInRange(w, c, range, except, other) ::
        Before(w.players[u].hp, w.players[u].username, w.players[other].hp, w.players[other].username)
  }

  // ---- the steps ----

  datatype Step =
    | Refresh(user: string, now: nat, cell: Cell)
    | Move(user: string, dir: string, now: nat, found: Option<string>)
    | Heal(user: string, now: nat)
    | AttackNPC(user: string, target: string, now: nat, value: int, kind: string, found: Option<string>)
    | AttackPlayer(user: string, target: string, now: nat)
    | Buy(user: string, item: string, now: nat)
    | Join(profile: Profile, cell: Cell, now: nat)
    | Leave(user: string)
    | Reward(user: string, treasureDelta: int, victoryDelta: int, now: nat)
    | SpawnNPC(cell: Cell, hp: int)
    | SpawnTreasure(cell: Cell, value: int, kind: string, found: Option<string>)
    | NPCAttack(npc: string, target: string, now: nat)
    | NPCMove(npc: string, base: nat)

  ghost function Do(w: World, step: Step): World {
    match step
    case Refresh(u, now, c) => DoRefresh(w, u, now, c)
    case Move(u, dir, now, found) => DoMove(w, u, dir, now, found)
    case Heal(u, now) => DoHeal(w, u, now)
    case AttackNPC(u, target, now, value, kind, found) => DoAttackNPC(w, u, target, now, value, kind, found)
    case AttackPlayer(u, target, now) => DoAttackPlayer(w, u, target, now)
    case Buy(u, item, now) => DoBuy(w, u, item, now)
    case Join(p, c, now) =>
      if SafePosition(w, Preferred(w, p), "", c)
      then w.(players := w.players[p.username := Joined(p, c, now)], version := w.version + 1) else w
    case Leave(u) => if u in w.players then w.(players := w.players - {u}, version := w.version + 1) else w
    case Reward(u, dt, dv, now) => DoReward(w, u, dt, dv, now)
    case SpawnNPC(c, hp) => if Walkable(w, c, "") then DoSpawnNPC(w, c, hp) else w
    case SpawnTreasure(c, value, kind, found) =>
      if Walkable(w, c, "") && Found(w, c, found) then Drop(w, c, value, kind, found) else w
    case NPCAttack(n, target, now) => DoNPCAttack(w, n, target, now)
    case NPCMove(n, base) => DoNPCMove(w, n, base)
  }

  ghost function DoRefresh(w: World, u: string, now: nat, c: Cell): World {
    if u in w.players && Due(w.players[u], now) && SafePosition(w, w.cfg.spawn, w.players[u].username, c)
    then w.(players := w.players[u := Respawned(w.players[u], c, now)], version := w.version + 1) else w
  }

  ghost function DoMove(w: World, u: string, dir: string, now: nat, found: Option<string>): World {
    if u in w.players && w.players[u].alive then
      var p := w.players[u];
      var c := Toward(p.at, dir);
      if Walkable(w, c, p.username) && Found(w, c, found) then
        w.(players := w.players[u := p.(at := c, lastUpdate := now,
                                        treasures := p.treasures + if found.Some? then w.treasures[found.value].value else 0)],
           treasures := if found.Some? then w.treasures - {found.value} else w.treasures,
           version := w.version + 1)
      else w
    else w
  }

  function DoHeal(w: World, u: string, now: nat): World {
    if u in w.players && w.players[u].alive && w.players[u].potions > 0 then
      var p := w.players[u];
      var hp := p.hp + HEAL_AMOUNT;
      w.(players := w.players[u := p.(potions := p.potions - 1, hp := if hp > p.maxHp then p.maxHp else hp, lastUpdate := now)],
         version := w.version + 1)
    else w
  }

  ghost function DoAttackNPC(w: World, u: string, target: string, now: nat, value: int, kind: string, found: Option<string>): World {
    if u in w.players && w.players[u].alive && NpcTarget(w, w.players[u].at, Some(target)) then
      var p, n := w.players[u].(lastUpdate := now), w.npcs[target];
      if n.hp - p.attack > 0
      then w.(players := w.players[u := p], npcs := w.npcs[target := n.(hp := n.hp - p.attack)], version := w.version + 1)
      else if Found(w, n.at, found) then
        var d := Drop(w, n.at, value, kind, found);
        d.(players := w.players[u := p.(kills := p.kills + 1)], npcs := w.npcs - {n.id}, version := d.version + 1)
      else w
    else w
  }

  ghost function DoAttackPlayer(w: World, u: string, target: string, now: nat): World {
    if u in w.players && w.players[u].alive && NpcTarget(w, w.players[u].at, None)
       && PlayerTarget(w, w.players[u].at, ATTACK_RANGE, Some(u), Some(target)) && target != u then
      var p, q := w.players[u].(lastUpdate := now), w.players[target];
      w.(players := w.players[u := if q.hp - p.attack <= 0 then p.(kills := p.kills + 1) else p]
                    [target := Hit(q, p.attack, now)],
         version := w.version + 1)
    else w
  }

  function DoBuy(w: World, u: string, item: string, now: nat): World {
    if u in w.players && w.players[u].alive then
      var p := w.players[u];
      if item == "potion" && p.treasures >= POTION_PRICE && p.potions < POTION_CAP
      then w.(players := w.players[u := p.(treasures := p.treasures - POTION_PRICE, potions := p.potions + 1, lastUpdate := now)],
              version := w.version + 1)
      else if item == "weapon" && p.treasures >= WEAPON_PRICE
      then w.(players := w.players[u := p.(treasures := p.treasures - WEAPON_PRICE, attack := p.attack + WEAPON_BOOST, lastUpdate := now)],
              version := w.version + 1)
      else w
    else w
  }

  function DoReward(w: World, u: string, dt: int, dv: int, now: nat): World {
    if u in w.players then
      var p := w.players[u];
      w.(players := w.players[u := p.(treasures := p.treasures + dt, victories := p.victories + dv, lastUpdate := now)],
         version := w.version + 1)
    else w
  }

  function DoSpawnNPC(w: World, c: Cell, hp: int): World {
    var id := NpcId(w.cfg, w.nextNPC);
    w.(npcs := w.npcs[id := NPC(id, w.nextNPC % NPC_NAMES, c, hp, 90, NPC_DAMAGE, true)],
       nextNPC := w.nextNPC + 1, version := w.version + 1)
  }

  // An NPC hits the weakest player next to it.
  ghost function DoNPCAttack(w: World, n: string, target: string, now: nat): World {
    if n in w.npcs && w.npcs[n].alive && PlayerTarget(w, w.npcs[n].at, 1, None, Some(target))
    then w.(players := w.players[target := Hit(w.players[target].(lastUpdate := now), w.npcs[n].attack, now)],
            version := w.version + 1)
    else w
  }

  function Direction(c: Cell, d: nat): Cell {
    if d % 4 == 0 then Cell(c.x, c.y - 1)
    else if d % 4 == 1 then Cell(c.x, c.y + 1)
    else if d % 4 == 2 then Cell(c.x - 1, c.y)
    else Cell(c.x + 1, c.y)
  }

  // The first walkable neighbour, looking around from direction `d` on; `tries` are left.
  function FirstFree(w: World, c: Cell, d: nat, tries: nat): Option<Cell>
    decreases tries
  {
    if tries == 0 then None
    else if Walkable(w, Direction(c, d), "") then Some(Direction(c, d))
    else FirstFree(w, c, d + 1, tries - 1)
  }

  // Without a player next to it, it takes a step.
  ghost function DoNPCMove(w: World, n: string, base: nat): World {
    if n in w.npcs && w.npcs[n].alive && PlayerTarget(w, w.npcs[n].at, 1, None, None)
       && FirstFree(w, w.npcs[n].at, base, 4).Some?
    then w.(npcs := w.npcs[n := w.npcs[n].(at := FirstFree(w, w.npcs[n].at, base, 4).value)], version := w.version + 1)
    else w
  }

  predicate FewNPCs(w: World) { |w.npcs| < MIN_NPCS }
  predicate FewTreasures(w: World) { |w.treasures| < MAX_TREASURES }

  // The arguments the code itself chooses for a step: cells, targets, found treasures and draws; and the counts
  // below which it spawns.
  ghost predicate Fits(w: World, step: Step) {
    match step
    case Refresh(u, now, c) =>
      u in w.players && Due(w.players[u], now) ==> SafePosition(w, w.cfg.spawn, w.players[u].username, c)
    case Move(u, dir, _, found) =>
      u in w.players && w.players[u].alive && Walkable(w, Toward(w.players[u].at, dir), w.players[u].username) ==>
        Found(w, Toward(w.players[u].at, dir), found)
    case AttackNPC(u, target, _, value, _, found) =>
      && u in w.players && w.players[u].alive && NpcTarget(w, w.players[u].at, Some(target))
      && 2 <= value < 5 && (w.npcs[target].hp - w.players[u].attack <= 0 ==> Found(w, w.npcs[target].at, found))
    case AttackPlayer(u, target, _) =>
      && u in w.players && w.players[u].alive && NpcTarget(w, w.players[u].at, None)
      && PlayerTarget(w, w.players[u].at, ATTACK_RANGE, Some(u), Some(target))
    case Join(p, c, _) => SafePosition(w, Preferred(w, p), "", c)
    case SpawnNPC(c, hp) => FewNPCs(w) && Walkable(w, c, "") && 70 <= hp < 100
    case SpawnTreasure(c, value, _, found) =>
      FewTreasures(w) && Walkable(w, c, "") && Found(w, c, found) && 1 <= value < 5
    case NPCAttack(n, target, _) => n in w.npcs && w.npcs[n].alive && PlayerTarget(w, w.npcs[n].at, 1, None, Some(target))
    case NPCMove(n, base) => n in w.npcs && w.npcs[n].alive && PlayerTarget(w, w.npcs[n].at, 1, None, None) && base < 4
    case _ => true
  }

  ghost function Run(w: World, steps: seq<Step>): World {
    if steps == [] then w else Do(Run(w, steps[..|steps| - 1]), steps[|steps| - 1])
  }

  // Every step of the run takes arguments the code could choose there.
  ghost predicate AllFit(w: World, steps: seq<Step>) {
    forall i | 0 <= i < |steps| :: Fits(Run(w, steps[..i]), steps[i])
  }

  // What NewWorld starts from; its spawns are the first steps of a run.
  function EmptyWorld(cfg: Config, grid: Grid): World {
    World(cfg, grid, map[], map[], map[], 0, 0, 0)
  }
}
