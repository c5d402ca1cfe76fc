/** The world object: each command under the lock does exactly one fitting step after a refresh of its player. */
module WorldEngine {
  import opened Text
  import opened WorldData
  import opened Worlds
  import opened WorldCheckpoint
  import opened WorldRounds
  import opened WorldTreasure
  import opened WorldSpawn
  import opened WorldLaws

  // rng.Intn
  method Intn(n: nat) returns (r: nat)
    requires n > 0
    ensures r < n
  {
    r :| r < n;
  }

  // time.Now
  method Now() returns (t: nat) {
    t := *;
  }

  class Engine {
    const cfg: Config
    var terrain: Grid
    var players: map<string, Player>
    var npcs: map<string, NPC>
    var treasures: map<string, Treasure>
    var version: int
    var nextNPC: nat
    var nextTreasure: nat

    ghost function State(): World
      reads this
    {
      World(cfg, terrain, players, npcs, treasures, version, nextNPC, nextTreasure)
    }

    // An empty world of the map; NewWorld then spawns the first NPCs and treasures by the steps below.
    constructor (cfg: Config, layout: Grid)
      ensures State() == EmptyWorld(cfg, layout)
    {
      this.cfg, terrain := cfg, layout;
      players, npcs, treasures, version, nextNPC, nextTreasure := map[], map[], map[], 0, 0, 0;
    }

    // ---- queries ----

    method WalkableFor(c: Cell, ignore: string) returns (ok: bool)
      ensures ok == Walkable(State(), c, ignore)
    {
      if c.y < 0 || c.y >= |terrain| || c.x < 0 || c.x >= |terrain[c.y]| { return false; }
      if terrain[c.y][c.x] == '#' { return false; }
      var us := players.Keys;
      while us != {}
        invariant us <= players.Keys
        invariant forall u | u in players.Keys - us :: !(players[u].username != ignore && players[u].alive && players[u].at == c)
        decreases us
      {
        var u :| u in us;
        if players[u].username != ignore && players[u].alive && players[u].at == c { return false; }
        us := us - {u};
      }
      var ns := npcs.Keys;
      while ns != {}
        invariant ns <= npcs.Keys
        invariant forall n | n in npcs.Keys - ns :: !(npcs[n].alive && npcs[n].at == c)
        decreases ns
      {
        var n :| n in ns;
        if npcs[n].alive && npcs[n].at == c { return false; }
        ns := ns - {n};
      }
      return true;
    }

    method FindTreasure(c: Cell) returns (found: Option<string>)
      ensures Found(State(), c, found)
    {
      var ids := treasures.Keys;
      while ids != {}
        invariant ids <= treasures.Keys
        invariant forall id | id in treasures.Keys - ids :: treasures[id].at != c
        decreases ids
      {
        var id :| id in ids;
        if treasures[id].at == c { return Some(id); }
        ids := ids - {id};
      }
      return None;
    }

    method NearestNPC(c: Cell) returns (d: int)
      ensures d == Nearest(NpcsAt(State()), c)
    {
      d := FAR;
      var ns := npcs.Keys;
      while ns != {}
        invariant ns <= npcs.Keys && d <= FAR
        invariant forall n | n in npcs.Keys - ns && npcs[n].alive :: d <= Distance(c, npcs[n].at)
        invariant d == FAR || exists n :: n in npcs && npcs[n].alive && d == Distance(c, npcs[n].at)
        decreases ns
      {
        var n :| n in ns;
        if npcs[n].alive { d := Min(Distance(c, npcs[n].at), d); }
        ns := ns - {n};
      }
      if d != FAR {
        ghost var n :| n in npcs && npcs[n].alive && d == Distance(c, npcs[n].at);
        assert npcs[n].at in NpcsAt(State());
      }
      OneNearest(NpcsAt(State()), c, d);
    }

    method NearestPlayer(c: Cell) returns (d: int)
      ensures d == Nearest(PlayersAt(State()), c)
    {
      d := FAR;
      var us := players.Keys;
      while us != {}
        invariant us <= players.Keys && d <= FAR
        invariant forall u | u in players.Keys - us && players[u].alive :: d <= Distance(c, players[u].at)
        invariant d == FAR || exists u :: u in players && players[u].alive && d == Distance(c, players[u].at)
        decreases us
      {
        var u :| u in us;
        if players[u].alive { d := Min(Distance(c, players[u].at), d); }
        us := us - {u};
      }
      if d != FAR {
        ghost var u :| u in players && players[u].alive && d == Distance(c, players[u].at);
        assert players[u].at in PlayersAt(State());
      }
      OneNearest(PlayersAt(State()), c, d);
    }

    method NearestTreasure(c: Cell) returns (d: int)
      ensures d == Nearest(TreasuresAt(State()), c)
    {
      d := FAR;
      var ids := treasures.Keys;
      while ids != {}
        invariant ids <= treasures.Keys && d <= FAR
        invariant forall id | id in treasures.Keys - ids :: d <= Distance(c, treasures[id].at)
        invariant d == FAR || exists id :: id in treasures && d == Distance(c, treasures[id].at)
        decreases ids
      {
        var id :| id in ids;
        d := Min(Distance(c, treasures[id].at), d);
        ids := ids - {id};
      }
      if d != FAR {
        ghost var id :| id in treasures && d == Distance(c, treasures[id].at);
        assert treasures[id].at in TreasuresAt(State());
      }
      OneNearest(TreasuresAt(State()), c, d);
    }

    method SpawnScore(c: Cell, preferNPC: bool) returns (score: int)
      requires terrain != []
      ensures score == Score(State(), c, preferNPC)
    {
      var npc := NearestNPC(c);
      var player := NearestPlayer(c);
      var treasure := NearestTreasure(c);
      score := ScoreOf(cfg, terrain, c, preferNPC, npc, player, treasure);
    }

    // Ranks the walkable cells by their score and draws one of the first twelve.
    method BestSpawnCell(ignore: string, preferNPC: bool) returns (c: Option<Cell>)
      ensures c.None? <==> Crowded(State(), ignore)
      ensures c.Some? ==> AmongTheBest(State(), c.value, ignore, preferNPC)
    {
      hide Score, Walkable;
      var candidates: seq<Scored> := [];
      WalkableOnGrid(State(), ignore);
      for y := 0 to |terrain|
        invariant Ranked(candidates) && forall s | s in candidates :: s.cell.y < y && IsScored(State(), s, ignore, preferNPC)
        invariant forall s: Scored | s.cell.y < y && IsScored(State(), s, ignore, preferNPC) :: s in candidates
      {
        for x := 0 to |terrain[y]|
          invariant Ranked(candidates)
          invariant forall s | s in candidates :: Scanned(s.cell, x, y) && IsScored(State(), s, ignore, preferNPC)
          invariant forall s: Scored | Scanned(s.cell, x, y) && IsScored(State(), s, ignore, preferNPC) :: s in candidates
        {
          var walkable := WalkableFor(Cell(x, y), ignore);
          if !walkable { continue; }
          var score := SpawnScore(Cell(x, y), preferNPC);
          InsertKeepsRanked(Scored(Cell(x, y), score), candidates);
          candidates := InsertRanked(Scored(Cell(x, y), score), candidates);
        }
        WalkableInRow(State(), y, ignore);
      }
      if candidates == [] {
        NoneScored(State(), ignore, preferNPC);
        return None;
      }
      var k := Intn(Min(LIMIT, |candidates|));
      FirstTwelve(State(), candidates, k, ignore, preferNPC);
      return Some(candidates[k].cell);
    }

    method FindSafePosition(preferred: Cell, ignore: string) returns (c: Cell)
      ensures SafePosition(State(), preferred, ignore, c)
      ensures c == preferred || c == cfg.spawn || AmongTheBest(State(), c, ignore, true)
    {
      var walkable := WalkableFor(preferred, ignore);
      if walkable { return preferred; }
      var best := BestSpawnCell(ignore, true);
      return if best.Some? then best.value else cfg.spawn;
    }

    // The weakest living NPC in range; ties go to the smaller id.
    method WeakestNPC(c: Cell) returns (target: Option<string>)
      ensures NpcTarget(State(), c, target)
    {
      target := None;
      var ns := npcs.Keys;
      while ns != {}
        invariant ns <= npcs.Keys
        invariant target.Some? ==> NpcInRange(State(), c, target.value)
        invariant forall n | n in npcs.Keys - ns && NpcInRange(State(), c, n) ::
            target.Some? && Before(npcs[target.value].hp, npcs[target.value].id, npcs[n].hp, npcs[n].id)
        decreases ns
      {
        var n :| n in ns;
        ns := ns - {n};
        if !npcs[n].alive || Distance(c, npcs[n].at) > ATTACK_RANGE { continue; }
        var id := npcs[n].id;
        LeTotal(id, id);
        if target.None? {
          target := Some(n);
        } else {
          var best := npcs[target.value];
          LeTotal(id, best.id);
          if npcs[n].hp < best.hp || (npcs[n].hp == best.hp && !Le(best.id, id)) {
            forall m | m in npcs.Keys - ns && m != n && NpcInRange(State(), c, m) ensures Before(npcs[n].hp, id, npcs[m].hp, npcs[m].id) {
              BeforeTransitive(npcs[n].hp, id, best.hp, best.id, npcs[m].hp, npcs[m].id);
            }
            target := Some(n);
          }
        }
      }
    }

    // The weakest living player in range other than `except`; ties go to the smaller name.
    method WeakestPlayer(c: Cell, range: int, except: Option<string>) returns (target: Option<string>)
      ensures PlayerTarget(State(), c, range, except, target)
    {
      target := None;
      var us := players.Keys;
      while us != {}
        invariant us <= players.Keys
        invariant target.Some? ==> PlayerInRange(State(), c, range, except, target.value)
        invariant forall u | u in players.Keys - us && PlayerInRange(State(), c, range, except, u) ::
            target.Some? && Before(players[target.value].hp, players[target.value].username, players[u].hp, players[u].username)
        decreases us
      {
        var u :| u in us;
        us := us - {u};
        var name := players[u].username;
        if except == Some(name) || !players[u].alive || Distance(c, players[u].at) > range { continue; }
        LeTotal(name, name);
        if target.None? {
          target := Some(u);
        } else {
          var best := players[target.value];
          LeTotal(name, best.username);
          if players[u].hp < best.hp || (players[u].hp == best.hp && !Le(best.username, name)) {
            forall v | v in players.Keys - us && v != u && PlayerInRange(State(), c, range, except, v)
              ensures Before(players[u].hp, name, players[v].hp, players[v].username)
            {
              BeforeTransitive(players[u].hp, name, best.hp, best.username, players[v].hp, players[v].username);
            }
            target := Some(u);
          }
        }
      }
    }

    // ---- commands ----

    method RefreshPlayer(u: string, now: nat) returns (ghost cell: Cell)
      modifies this`players, this`version
      ensures Fits(old(State()), Refresh(u, now, cell)) && Drawable(old(State()), Refresh(u, now, cell))
      ensures State() == Do(old(State()), Refresh(u, now, cell))
    {
      cell := cfg.spawn;
      if u !in players { return; }
      var p := players[u];
      if p.alive || p.respawnAt == 0 || now < p.respawnAt { return; }
      var c := FindSafePosition(cfg.spawn, p.username);
      cell := c;
      p := p.(at := c, hp := p.maxHp);
      p := p.(potions := if p.potions > MAX_POTIONS then p.potions else MAX_POTIONS);
      p := p.(alive := true, respawnAt := 0, lastUpdate := now);
      players := players[u := p];
      version := version + 1;
    }

    method AddOrRestorePlayer(profile: Profile, now: nat) returns (ghost cell: Cell)
      modifies this`players, this`version
      ensures Fits(old(State()), Join(profile, cell, now)) && Drawable(old(State()), Join(profile, cell, now))
      ensures State() == Do(old(State()), Join(profile, cell, now))
    {
      var preferred := profile.at;
      if profile.lastMap != cfg.id { preferred := cfg.spawn; }
      var c := FindSafePosition(preferred, "");
      cell := c;
      var p := Player(profile.username, c, ValueOr(profile.hp, INIT_HP), ValueOr(profile.maxHp, INIT_HP),
                      ValueOr(profile.attack, INIT_ATTACK), ValueOr(profile.potions, MAX_POTIONS), profile.treasures,
                      profile.kills, profile.deaths, profile.victories, profile.alive, 0, now);
      if profile.hp == 0 && !profile.alive { p := p.(alive := false); }
      if p.hp <= 0 { p := p.(hp := p.maxHp, alive := true); }
      players := players[p.username := p];
      version := version + 1;
    }

    method RemovePlayer(u: string) returns (known: bool)
      modifies this`players, this`version
      ensures known <==> u in old(players)
      ensures State() == Do(old(State()), Leave(u))
    {
      if u !in players { return false; }
      players := players - {u};
      version := version + 1;
      return true;
    }

    method MovePlayer(u: string, dir: string, now: nat) returns (ghost cell: Cell, ghost found: Option<string>)
      modifies this`players, this`treasures, this`version
      ensures var mid := Do(old(State()), Refresh(u, now, cell));
              && Fits(old(State()), Refresh(u, now, cell)) && Fits(mid, Move(u, dir, now, found))
              && State() == Do(mid, Move(u, dir, now, found))
    {
      hide Do, Fits;
      cell := RefreshPlayer(u, now);
      found := MoveRefreshed(u, dir, now);
    }

    method MoveRefreshed(u: string, dir: string, now: nat) returns (ghost found: Option<string>)
      modifies this`players, this`treasures, this`version
      ensures Fits(old(State()), Move(u, dir, now, found))
      ensures State() == Do(old(State()), Move(u, dir, now, found))
    {
      hide Walkable, Found, FewNPCs, FewTreasures;
      found := None;
      if u !in players || !players[u].alive { return; }
      var p := players[u];
      var c := p.at;
      match dir {
        case "up" => c := Cell(c.x, c.y - 1);
        case "down" => c := Cell(c.x, c.y + 1);
        case "left" => c := Cell(c.x - 1, c.y);
        case "right" => c := Cell(c.x + 1, c.y);
        case _ =>
      }
      var walkable := WalkableFor(c, p.username);
      if !walkable { return; }
      p := p.(at := c, lastUpdate := now);
      var id := FindTreasure(c);
      found := id;
      FoundIsThere(State(), c, id);
      if id.Some? {
        p := p.(treasures := p.treasures + treasures[id.value].value);
        treasures := treasures - {id.value};
      }
      players := players[u := p];
      version := version + 1;
    }

    method HealPlayer(u: string, now: nat) returns (ghost cell: Cell)
      modifies this`players, this`version
      ensures Fits(old(State()), Refresh(u, now, cell))
      ensures State() == Do(Do(old(State()), Refresh(u, now, cell)), Heal(u, now))
    {
      cell := RefreshPlayer(u, now);
      if u !in players || !players[u].alive { return; }
      var p := players[u];
      if p.potions <= 0 { return; }
      p := p.(potions := p.potions - 1, hp := p.hp + HEAL_AMOUNT);
      if p.hp > p.maxHp { p := p.(hp := p.maxHp); }
      players := players[u := p.(lastUpdate := now)];
      version := version + 1;
    }

    method BuyItem(u: string, item: string, now: nat) returns (ghost cell: Cell)
      modifies this`players, this`version
      ensures Fits(old(State()), Refresh(u, now, cell))
      ensures State() == Do(Do(old(State()), Refresh(u, now, cell)), Buy(u, item, now))
    {
      cell := RefreshPlayer(u, now);
      if u !in players || !players[u].alive { return; }
      var p := players[u];
      if item == "potion" {
        if p.treasures < POTION_PRICE || p.potions >= POTION_CAP { return; }
        players := players[u := p.(treasures := p.treasures - POTION_PRICE, potions := p.potions + 1, lastUpdate := now)];
        version := version + 1;
      } else if item == "weapon" {
        if p.treasures < WEAPON_PRICE { return; }
        players := players[u := p.(treasures := p.treasures - WEAPON_PRICE, attack := p.attack + WEAPON_BOOST, lastUpdate := now)];
        version := version + 1;
      }
    }

    method RewardPlayer(u: string, treasureDelta: int, victoryDelta: int, now: nat) returns (known: bool)
      modifies this`players, this`version
      ensures known <==> u in old(players)
      ensures State() == Do(old(State()), Reward(u, treasureDelta, victoryDelta, now))
    {
      if u !in players { return false; }
      var p := players[u];
      players := players[u := p.(treasures := p.treasures + treasureDelta, victories := p.victories + victoryDelta, lastUpdate := now)];
      version := version + 1;
      return true;
    }

    method DropTreasure(c: Cell, value: int, kind: string) returns (ghost found: Option<string>)
      modifies this`treasures, this`version, this`nextTreasure
      ensures Found(old(State()), c, found)
      ensures State() == Drop(old(State()), c, value, kind, found)
    {
      var id := FindTreasure(c);
      found := id;
      if c.x < 0 || c.y < 0 || c.y >= |terrain| || c.x >= |terrain[c.y]| { return; }
      if id.Some? {
        var t := treasures[id.value];
        treasures := treasures[id.value := t.(value := t.value + value)];
        version := version + 1;
        return;
      }
      var newId := TreasureId(cfg, nextTreasure);
      nextTreasure := nextTreasure + 1;
      treasures := treasures[newId := Treasure(newId, kind, c, value)];
      version := version + 1;
    }

    // `step` is what the attack came to; without a living player or a target there is none.
    method Attack(u: string, now: nat) returns (ghost cell: Cell, ghost step: Option<Step>)
      requires u in players ==> players[u].username == u
      modifies this
      ensures Fits(old(State()), Refresh(u, now, cell))
      ensures IsAttack(Do(old(State()), Refresh(u, now, cell)), u, now, step, State())
    {
      hide Fits, NpcTarget, PlayerTarget;
      cell := RefreshPlayer(u, now);
      RefreshKeepsName(old(State()), u, now, cell);
      hide Do;
      step := AttackRefreshed(u, now);
    }

    method AttackRefreshed(u: string, now: nat) returns (ghost step: Option<Step>)
      requires u in players ==> players[u].username == u
      modifies this
      ensures IsAttack(old(State()), u, now, step, State())
    {
      hide Do, Fits, NpcTarget, PlayerTarget;
      step := None;
      if u !in players || !players[u].alive { return; }
      var npcTarget := WeakestNPC(players[u].at);
      if npcTarget.Some? {
        ghost var hit := AttackTheNPC(u, npcTarget.value, now);
        step := Some(hit);
        return;
      }
      var playerTarget := WeakestPlayer(players[u].at, ATTACK_RANGE, Some(u));
      if playerTarget.None? { return; }
      step := Some(AttackPlayer(u, playerTarget.value, now));
      AttackThePlayer(u, playerTarget.value, now);
    }

    method AttackThePlayer(u: string, target: string, now: nat)
      requires u in players && players[u].alive && players[u].username == u && NpcTarget(State(), players[u].at, None)
      requires PlayerTarget(State(), players[u].at, ATTACK_RANGE, Some(u), Some(target))
      modifies this`players, this`version
      ensures Fits(old(State()), AttackPlayer(u, target, now))
      ensures State() == Do(old(State()), AttackPlayer(u, target, now))
    {
      hide NpcTarget;
      var p, q := players[u], players[target];
      q := q.(hp := q.hp - p.attack);
      p := p.(lastUpdate := now);
      if q.hp <= 0 {
        p := p.(kills := p.kills + 1);
        q := KnockDown(q, now);
      }
      players := players[u := p][target := q];
      version := version + 1;
    }

    static function KnockDown(p: Player, now: nat): Player {
      p.(hp := 0, alive := false, deaths := p.deaths + 1, respawnAt := now + RESPAWN_SECONDS, lastUpdate := now)
    }

    method AttackTheNPC(u: string, target: string, now: nat) returns (ghost step: Step)
      requires u in players && players[u].alive && NpcTarget(State(), players[u].at, Some(target))
      modifies this
      ensures step.AttackNPC? && step.user == u && step.target == target && step.now == now
      ensures Fits(old(State()), step) && State() == Do(old(State()), step)
    {
      hide FewNPCs, FewTreasures, Walkable, PlayerTarget;
      var p, n := players[u], npcs[target];
      n := n.(hp := n.hp - p.attack);
      p := p.(lastUpdate := now);
      var draw := Intn(3);
      step := AttackNPC(u, target, now, 2 + draw, "怪物战利品", None);
      if n.hp <= 0 {
        ghost var found := DropTreasure(n.at, 2 + draw, "怪物战利品");
        step := AttackNPC(u, target, now, 2 + draw, "怪物战利品", found);
        npcs := npcs - {n.id};
        p := p.(kills := p.kills + 1);
      } else {
        npcs := npcs[target := n];
      }
      players := players[u := p];
      version := version + 1;
    }

    // ---- the background step ----

    // Refreshes every player once, in any order.
    method RefreshAll(now: nat) returns (ghost steps: seq<Step>)
      modifies this`players, this`version
      ensures IsRefresh(old(State()), steps, now) && State() == Run(old(State()), steps)
    {
      hide Do, Fits;
      steps := [];
      var us := players.Keys;
      while us != {}
        invariant us <= players.Keys
        invariant State() == Run(old(State()), steps) && AllFit(old(State()), steps) && OnlyRefreshes(steps, now)
        invariant forall u | u in players.Keys - us :: !Due(players[u], now)
        decreases us
      {
        var u :| u in us;
        ghost var before := State();
        ghost var cell := RefreshPlayer(u, now);
        Extend(old(State()), steps, Refresh(u, now, cell));
        RefreshIsDone(before, u, now, cell);
        steps := steps + [Refresh(u, now, cell)];
        us := us - {u};
      }
    }

    method SpawnOneNPC() returns (spawned: bool, ghost step: Step)
      requires |npcs| < MIN_NPCS
      modifies this`npcs, this`nextNPC, this`version
      ensures step.SpawnNPC? && (spawned <==> !Crowded(old(State()), ""))
      ensures if spawned then Fits(old(State()), step) && Drawable(old(State()), step) && State() == Do(old(State()), step) else State() == old(State())
    {
      step := SpawnNPC(cfg.spawn, 0);
      var c := BestSpawnCell("", true);
      if c.None? { return false, step; }
      var id := NpcId(cfg, nextNPC);
      var draw := Intn(30);
      spawned, step := true, SpawnNPC(c.value, 70 + draw);
      npcs := npcs[id := NPC(id, nextNPC % NPC_NAMES, c.value, 70 + draw, 90, NPC_DAMAGE, true)];
      nextNPC := nextNPC + 1;
      version := version + 1;
    }

    // Terminates although a spawn in a restored world may overwrite an NPC: each id is tried once.
    method SpawnMissing() returns (ghost steps: seq<Step>)
      modifies this`npcs, this`nextNPC, this`version
      ensures IsSpawning(old(State()), steps) && State() == Run(old(State()), steps)
    {
      hide Do, Fits, Walkable, Crowded;
      steps := [];
      while |npcs| < MIN_NPCS
        invariant State() == Run(old(State()), steps) && AllFit(old(State()), steps)
        invariant forall i | 0 <= i < |steps| :: steps[i].SpawnNPC? && FewNPCs(Run(old(State()), steps[..i]))
        decreases MIN_NPCS - |npcs|, AheadOf(npcs.Keys, cfg, nextNPC)
      {
        ghost var before := State();
        var spawned;
        ghost var step;
        spawned, step := SpawnOneNPC();
        if !spawned { return; }
        Extend(old(State()), steps, step);
        SpawnIsProgress(before, step);
        steps := steps + [step];
      }
    }

    method SpawnTreasureMaybe() returns (ghost step: Option<Step>)
      modifies this`treasures, this`version, this`nextTreasure
      ensures IsTreasureDraw(old(State()), step) && (step.Some? ==> Drawable(old(State()), step.value))
      ensures State() == Run(old(State()), Optional(step))
    {
      step := None;
      OptionalRun(State(), None);
      if |treasures| >= MAX_TREASURES { return; }
      var draw := Intn(100);
      if draw >= 45 { return; }
      var c := BestSpawnCell("", false);
      if c.None? { return; }
      var value := Intn(4);
      ghost var found := DropTreasure(c.value, 1 + value, "野外宝箱");
      step := Some(SpawnTreasure(c.value, 1 + value, "野外宝箱", found));
      OptionalRun(old(State()), step);
    }

    method TakeTurn(id: string) returns (ghost turn: Turn)
      modifies this`players, this`npcs, this`version
      ensures turn.npc == id && IsTurn(old(State()), turn) && State() == Run(old(State()), TurnSteps(turn))
      ensures npcs.Keys == old(npcs).Keys
    {
      turn := Turn(id, [], None);
      OptionalRun(State(), None);
      if id !in npcs || !npcs[id].alive { return; }
      var now := Now();
      ghost var refreshes := RefreshAll(now);
      ghost var mid := State();
      ghost var act := Act(id, now);
      turn := Turn(id, refreshes, Some(act));
      RunThenRun(old(State()), refreshes, Optional(turn.act));
      OptionalRun(mid, turn.act);
    }

    method Act(id: string, now: nat) returns (ghost act: Step)
      requires id in npcs && npcs[id].alive
      modifies this`players, this`npcs, this`version
      ensures IsActOf(id, act) && Fits(old(State()), act) && State() == Do(old(State()), act)
      ensures npcs.Keys == old(npcs).Keys
    {
      hide PlayerTarget, Do;
      var target := WeakestPlayer(npcs[id].at, 1, None);
      if target.Some? {
        act := NPCAttack(id, target.value, now);
        HitByNPC(id, target.value, now);
      } else {
        act := StepNPC(id);
      }
    }

    method HitByNPC(id: string, target: string, now: nat)
      requires id in npcs && npcs[id].alive && PlayerTarget(State(), npcs[id].at, 1, None, Some(target))
      modifies this`players, this`version
      ensures State() == Do(old(State()), NPCAttack(id, target, now))
    {
      var p := players[target];
      p := p.(hp := p.hp - npcs[id].attack, lastUpdate := now);
      if p.hp <= 0 { p := KnockDown(p, now); }
      players := players[target := p];
      version := version + 1;
    }

    method StepNPC(id: string) returns (ghost act: Step)
      requires id in npcs && npcs[id].alive && PlayerTarget(State(), npcs[id].at, 1, None, None)
      modifies this`npcs, this`version
      ensures act.NPCMove? && act.npc == id && act.base < 4 && State() == Do(old(State()), act)
      ensures npcs.Keys == old(npcs).Keys
    {
      hide PlayerTarget, Walkable;
      var npc := npcs[id];
      var base := Intn(4);
      act := NPCMove(id, base);
      for step := 0 to 4
        invariant FirstFree(State(), npc.at, base, 4) == FirstFree(State(), npc.at, base + step, 4 - step)
        invariant State() == old(State())
      {
        var c := Direction(npc.at, base + step);
        var walkable := WalkableFor(c, "");
        if walkable {
          npcs := npcs[id := npc.(at := c)];
          version := version + 1;
          return;
        }
      }
    }

    method BackgroundStep(now: nat) returns (ghost round: Round)
      modifies this
      ensures IsRound(old(State()), round, now) && State() == AfterRound(old(State()), round)
    {
      hide Do, Fits, IsTurn, Run, IsSpawning, IsRefresh;
      ghost var refreshes := RefreshAll(now);
      ghost var spawns := SpawnMissing();
      RunThenRun(old(State()), refreshes, spawns);
      ghost var treasure := SpawnTreasureMaybe();
      RunThenRun(old(State()), refreshes + spawns, Optional(treasure));
      ghost var turns := TakeTurns();
      round := Round(refreshes, spawns, treasure, turns);
    }

    method TakeTurns() returns (ghost turns: seq<Turn>)
      modifies this`players, this`npcs, this`version
      ensures AreTurns(old(State()), turns) && State() == AfterTurns(old(State()), turns)
    {
      hide Do, Fits, IsTurn, AllTurns, Run;
      var ids := SortedMembers(npcs.Keys);
      turns := [];
      NoTurns(State());
      for k := 0 to |ids|
        invariant |turns| == k && forall i | 0 <= i < k :: turns[i].npc == ids[i]
        invariant AllTurns(old(State()), turns)
        invariant State() == AfterTurns(old(State()), turns)
      {
        ghost var turn := TakeTurn(ids[k]);
        AddTurn(old(State()), turns, turn);
        turns := turns + [turn];
      }
      TurnsFollow(old(State()), ids, turns);
    }

    // ---- checkpoints ----

    method CaptureCheckpoint(nodeId: string, now: nat) returns (cp: MapCheckpoint, ghost steps: seq<Step>)
      requires Keyed(State())
      modifies this`players, this`version
      ensures IsRefresh(old(State()), steps, now) && State() == Run(old(State()), steps)
      ensures IsCapture(State(), now, cp) && cp.nodeId == nodeId && cp.mapEpoch == 0
    {
      steps := RefreshAll(now);
      NamesKept(old(State()), steps);
      var views := Listing(Views(players, now), UserOf);
      var npcList := Listing(npcs, NpcOf);
      var treasureList := Listing(treasures, TreasureOf);
      cp := MapCheckpoint(cfg.id, nodeId, 0, version, terrain, views, npcList, treasureList);
    }

    method RestoreCheckpoint(cp: MapCheckpoint, now: nat)
      modifies this
      ensures State() == Restored(old(State()), cp, now)
    {
      hide ById;
      if cp.mapId != cfg.id || cp.version == 0 { return; }
      if |cp.terrain| > 0 { terrain := cp.terrain; }
      players := Revive(cp.players, now);
      npcs := Index(cp.npcs, NpcOf);
      treasures := Index(cp.treasures, TreasureOf);
      version := cp.version;
      nextNPC := |npcs| + 1;
      nextTreasure := |treasures| + 1;
    }
  }

  method Revive(views: seq<PlayerView>, now: nat) returns (players: map<string, Player>)
    ensures players == PlayersFrom(ById(views, UserOf), now)
  {
    players := map[];
    for i := 0 to |views|
      invariant players == PlayersFrom(ById(views[..i], UserOf), now)
    {
      assert views[..i + 1][..i] == views[..i];
      var v := views[i];
      players := players[v.username := Player(v.username, v.at, v.hp, v.maxHp, v.attack, ValueOr(v.potions, MAX_POTIONS),
                                              v.treasures, v.kills, v.deaths, v.victories, v.alive, 0, now)];
    }
    assert views[..|views|] == views;
  }

  method Index<T>(list: seq<T>, id: T -> string) returns (m: map<string, T>)
    ensures m == ById(list, id)
  {
    m := map[];
    for i := 0 to |list|
      invariant m == ById(list[..i], id)
    {
      assert list[..i + 1][..i] == list[..i];
      m := m[id(list[i]) := list[i]];
    }
    assert list[..|list|] == list;
  }

  // What an attack may come to, once the attacker is refreshed: a blow at the weakest NPC in range, else at the
  // weakest other player, else nothing.
  ghost predicate IsAttack(w: World, u: string, now: nat, step: Option<Step>, after: World) {
    match step
    case None =>
      && after == w
      && (u in w.players && w.players[u].alive ==>
            NpcTarget(w, w.players[u].at, None) && PlayerTarget(w, w.players[u].at, ATTACK_RANGE, Some(u), None))
    case Some(s) => (s.AttackNPC? || s.AttackPlayer?) && s.user == u && s.now == now && Fits(w, s) && after == Do(w, s)
  }

  // An attack of a living player comes to nothing only where no living NPC and no other living player is within two
  // cells; and it goes at NPCs first.
  lemma AttackFindsATarget(w: World, u: string, now: nat, step: Option<Step>, after: World, n: string, v: string)
    requires Keyed(w) && IsAttack(w, u, now, step, after) && u in w.players && w.players[u].alive
    ensures step.None? ==>
              && after == w
              && (n in w.npcs && w.npcs[n].alive ==> !Near(w.players[u].at, w.npcs[n].at, 2))
              && (v in w.players && v != u && w.players[v].alive ==> !Near(w.players[u].at, w.players[v].at, 2))
    ensures n in w.npcs && w.npcs[n].alive && Near(w.players[u].at, w.npcs[n].at, 2) ==> step.Some? && step.value.AttackNPC?
  {
    var at := w.players[u].at;
    if n in w.npcs && w.npcs[n].alive && Near(at, w.npcs[n].at, 2) { assert NpcInRange(w, at, n); }
    if v in w.players && v != u && w.players[v].alive && Near(at, w.players[v].at, 2) {
      assert PlayerInRange(w, at, ATTACK_RANGE, Some(u), v);
    }
  }

  lemma RefreshKeepsName(w: World, u: string, now: nat, cell: Cell)
    ensures var w' := Do(w, Refresh(u, now, cell));
            w'.players.Keys == w.players.Keys && (u in w.players ==> w'.players[u].username == w.players[u].username)
  {
  }

  lemma FoundIsThere(w: World, c: Cell, found: Option<string>)
    requires Found(w, c, found)
    ensures found.Some? ==> found.value in w.treasures
  {
  }

  // ---- order of targets ----

  lemma BeforeTransitive(hpA: int, a: string, hpB: int, b: string, hpC: int, c: string)
    requires Before(hpA, a, hpB, b) && Before(hpB, b, hpC, c)
    ensures Before(hpA, a, hpC, c)
  {
    if hpA == hpB == hpC { LeTransitive(a, b, c); }
  }

  // ---- turns in order ----

  lemma AddTurn(w: World, turns: seq<Turn>, turn: Turn)
    requires AllTurns(w, turns) && IsTurn(AfterTurns(w, turns), turn)
    ensures AfterTurns(w, turns + [turn]) == Run(AfterTurns(w, turns), TurnSteps(turn)) && AllTurns(w, turns + [turn])
  {
    hide Run, IsTurn, AfterTurns, AllTurns;
    assert (turns + [turn])[..|turns|] == turns;
    LastOfAllTurns(w, turns + [turn]);
    LastTurn(w, turns, turn);
  }

  lemma LastTurn(w: World, turns: seq<Turn>, turn: Turn)
    ensures AfterTurns(w, turns + [turn]) == Run(AfterTurns(w, turns), TurnSteps(turn))
  {
    hide Run, TurnSteps;
    var all := turns + [turn];
    assert all[..|all| - 1] == turns;
  }

  lemma TurnsFollow(w: World, ids: seq<string>, turns: seq<Turn>)
    requires |turns| == |ids| && forall i | 0 <= i < |ids| :: turns[i].npc == ids[i]
    requires SortedBy(ids, Itself) && Distinct(ids, Itself) && forall n :: n in ids <==> n in w.npcs
    requires AllTurns(w, turns)
    ensures AreTurns(w, turns)
  {
    hide AllTurns;
    forall i, j | 0 <= i < j < |turns| ensures turns[i].npc != turns[j].npc && Le(turns[i].npc, turns[j].npc) {
      assert Itself(ids[i]) != Itself(ids[j]) && Le(Itself(ids[i]), Itself(ids[j]));
    }
    forall n ensures n in w.npcs <==> exists i :: 0 <= i < |turns| && turns[i].npc == n {
      if n in w.npcs {
        var k :| 0 <= k < |ids| && ids[k] == n;
        assert turns[k].npc == n;
      }
    }
  }

  // A refreshed player is not due any more, and the others are as they were.
  lemma RefreshIsDone(w: World, u: string, now: nat, cell: Cell)
    requires Fits(w, Refresh(u, now, cell)) && u in w.players
    ensures var w' := Do(w, Refresh(u, now, cell));
            && w'.players.Keys == w.players.Keys && !Due(w'.players[u], now)
            && forall v | v in w.players && v != u :: w'.players[v] == w.players[v]
  {
  }

  lemma {:induction false} NamesKept(w: World, steps: seq<Step>)
    requires forall s | s in steps :: s.Refresh?
    requires forall u | u in w.players :: w.players[u].username == u
    ensures var w' := Run(w, steps);
            && (forall u | u in w'.players :: w'.players[u].username == u)
            && w'.npcs == w.npcs && w'.treasures == w.treasures
  {
    if steps != [] {
      var before, last := steps[..|steps| - 1], steps[|steps| - 1];
      NamesKept(w, before);
      assert last in steps;
      assert Run(w, steps) == DoRefresh(Run(w, before), last.user, last.now, last.cell);
    }
  }

  // ---- termination of spawning ----

  ghost predicate IsAhead(id: string, cfg: Config, from: nat) {
    exists k: nat :: k >= from && id == NpcId(cfg, k)
  }

  // The used ids that the counter has still to reach.
  ghost function AheadOf(ids: set<string>, cfg: Config, from: nat): set<string> {
    set id | id in ids && IsAhead(id, cfg, from)
  }

  lemma SpawnIsProgress(w: World, step: Step)
    requires step.SpawnNPC? && Fits(w, step)
    ensures var w' := Do(w, step);
            && w'.cfg == w.cfg
            && (|w'.npcs| > |w.npcs|
                || (|w'.npcs| == |w.npcs| && AheadOf(w'.npcs.Keys, w'.cfg, w'.nextNPC) < AheadOf(w.npcs.Keys, w.cfg, w.nextNPC)))
  {
    hide Walkable;
    var id, w' := NpcId(w.cfg, w.nextNPC), Do(w, step);
    if id in w.npcs {
      assert w'.npcs.Keys == w.npcs.Keys;
      assert |w'.npcs| == |w'.npcs.Keys| && |w.npcs| == |w.npcs.Keys|;
      assert IsAhead(id, w.cfg, w.nextNPC);
      if IsAhead(id, w.cfg, w.nextNPC + 1) {
        var k: nat :| k >= w.nextNPC + 1 && id == NpcId(w.cfg, k);
        NpcIdInjective(w.cfg, w.nextNPC, k);
        assert false;
      }
      assert id in AheadOf(w.npcs.Keys, w.cfg, w.nextNPC) && id !in AheadOf(w'.npcs.Keys, w.cfg, w.nextNPC + 1);
    } else {
      assert w'.npcs.Keys == w.npcs.Keys + {id};
      assert |w'.npcs| == |w'.npcs.Keys| && |w.npcs| == |w.npcs.Keys|;
    }
  }

  // ---- sorted listings ----

  lemma SortedListing<T>(list: seq<T>, m: map<string, T>, id: T -> string)
    requires Distinct(list, id) && Indexed(list, m, id)
    ensures Lists(Sort(list, id), m, id)
  {
    hide Sort, SortedBy, Distinct, Indexed;
    SortSorts(list, id);
    PermutationKeepsDistinct(list, Sort(list, id), id);
    SameMembers(Sort(list, id), list);
    SameIndex(list, Sort(list, id), m, id);
  }

  lemma SameIndex<T>(xs: seq<T>, ys: seq<T>, m: map<string, T>, id: T -> string)
    requires Indexed(xs, m, id) && forall x :: x in ys <==> x in xs
    ensures Indexed(ys, m, id)
  {
  }

  // Collects the values of the map and sorts them by id.
  method Listing<T>(m: map<string, T>, id: T -> string) returns (list: seq<T>)
    requires forall k | k in m :: id(m[k]) == k
    ensures Lists(list, m, id)
  {
    list := [];
    var ks := m.Keys;
    while ks != {}
      invariant ks <= m.Keys && Distinct(list, id)
      invariant forall x | x in list :: id(x) in m.Keys - ks && m[id(x)] == x
      invariant forall k | k in m.Keys - ks :: m[k] in list
      decreases ks
    {
      var k :| k in ks;
      AppendKeepsDistinct(list, m[k], id);
      list := list + [m[k]];
      ks := ks - {k};
    }
    SortedListing(list, m, id);
    list := Sort(list, id);
  }
}
