/** What the commands and the NPCs' turns change, told by the fields of the world they find and leave. */
module WorldLaws {
  import opened Text
  import opened WorldData
  import opened Worlds
  import opened WorldCheckpoint

  // Within that many cells, counted along the rows and columns.
  predicate Near(a: Cell, b: Cell, range: int) {
    && a.x - b.x + a.y - b.y <= range && a.x - b.x + b.y - a.y <= range
    && b.x - a.x + a.y - b.y <= range && b.x - a.x + b.y - a.y <= range
  }

  // ---- who is hit ----

  // A player hits a living NPC within two cells with the least hit points, ties going to the least id.
  lemma WeakestNpcIsHit(w: World, step: Step, other: string)
    requires Keyed(w) && step.AttackNPC? && Fits(w, step)
    ensures step.user in w.players && w.players[step.user].alive && step.target in w.npcs && w.npcs[step.target].alive
    ensures Near(w.players[step.user].at, w.npcs[step.target].at, 2)
    ensures other in w.npcs && w.npcs[other].alive && Near(w.players[step.user].at, w.npcs[other].at, 2) ==>
              w.npcs[step.target].hp < w.npcs[other].hp
              || (w.npcs[step.target].hp == w.npcs[other].hp && Le(step.target, other))
  {
    if other in w.npcs && w.npcs[other].alive && Near(w.players[step.user].at, w.npcs[other].at, 2) {
      assert NpcInRange(w, w.players[step.user].at, other);
    }
  }

  // Without one it hits the weakest other living player within two cells.
  lemma WeakestPlayerIsHit(w: World, step: Step, other: string)
    requires Keyed(w) && step.AttackPlayer? && Fits(w, step)
    ensures step.user in w.players && w.players[step.user].alive
    ensures step.target in w.players && w.players[step.target].alive && step.target != step.user
    ensures Near(w.players[step.user].at, w.players[step.target].at, 2)
    ensures other in w.npcs && w.npcs[other].alive ==> !Near(w.players[step.user].at, w.npcs[other].at, 2)
    ensures other in w.players && other != step.user && w.players[other].alive
            && Near(w.players[step.user].at, w.players[other].at, 2) ==>
              w.players[step.target].hp < w.players[other].hp
              || (w.players[step.target].hp == w.players[other].hp && Le(step.target, other))
  {
    var at := w.players[step.user].at;
    assert !NpcInRange(w, at, other);
    if other in w.players && other != step.user && w.players[other].alive && Near(at, w.players[other].at, 2) {
      assert PlayerInRange(w, at, ATTACK_RANGE, Some(step.user), other);
    }
  }

  // An NPC hits the weakest living player on its own or a neighbouring cell, and moves only if there is none.
  lemma NeighbourIsHit(w: World, step: Step, other: string)
    requires Keyed(w) && (step.NPCAttack? || step.NPCMove?) && Fits(w, step)
    ensures step.npc in w.npcs && w.npcs[step.npc].alive
    ensures step.NPCAttack? ==>
              && step.target in w.players && w.players[step.target].alive && Near(w.npcs[step.npc].at, w.players[step.target].at, 1)
              && (other in w.players && w.players[other].alive && Near(w.npcs[step.npc].at, w.players[other].at, 1) ==>
                    w.players[step.target].hp < w.players[other].hp
                    || (w.players[step.target].hp == w.players[other].hp && Le(step.target, other)))
    ensures step.NPCMove? ==> other in w.players && w.players[other].alive ==> !Near(w.npcs[step.npc].at, w.players[other].at, 1)
  {
    if other in w.players && w.players[other].alive && Near(w.npcs[step.npc].at, w.players[other].at, 1) {
      assert PlayerInRange(w, w.npcs[step.npc].at, 1, None, other);
    }
  }

  // ---- what the attacker gets ----

  // A kill counts for the attacker and leaves its value where the NPC stood: on a treasure that lies there, or as a
  // new one with the next number. A blow that does not kill leaves treasure alone.
  lemma KillPays(w: World, step: Step)
    requires Keyed(w) && step.AttackNPC? && Fits(w, step)
    ensures var t, u, n := Do(w, step), step.user, w.npcs[step.target];
            var kills := n.hp <= w.players[u].attack;
            && t.players == w.players[u := w.players[u].(kills := w.players[u].kills + if kills then 1 else 0, lastUpdate := step.now)]
            && (!kills ==> t.treasures == w.treasures && t.nextTreasure == w.nextTreasure)
            && (kills && 0 <= n.at.y < |w.terrain| && 0 <= n.at.x < |w.terrain[n.at.y]| ==>
                  && 2 <= step.value < 5
                  && (forall id | id in w.treasures && w.treasures[id].at == n.at && step.found == Some(id) ::
                        t.treasures == w.treasures[id := w.treasures[id].(value := w.treasures[id].value + step.value)]
                        && t.nextTreasure == w.nextTreasure)
                  && ((forall id | id in w.treasures :: w.treasures[id].at != n.at) ==>
                        t.treasures == w.treasures[w.cfg.id + "-t-" + Decimal(w.nextTreasure) :=
                                                     Treasure(w.cfg.id + "-t-" + Decimal(w.nextTreasure), step.kind, n.at, step.value)]
                        && t.nextTreasure == w.nextTreasure + 1))
  {
    hide NpcTarget;
  }

  lemma KnockoutPays(w: World, step: Step)
    requires Keyed(w) && step.AttackPlayer? && Fits(w, step)
    ensures var t, u := Do(w, step), step.user;
            && u in t.players
            && t.players[u] == w.players[u].(kills := w.players[u].kills + if w.players[step.target].hp <= w.players[u].attack then 1 else 0,
                                             lastUpdate := step.now)
            && t.treasures == w.treasures && t.npcs == w.npcs
  {
    hide NpcTarget;
  }

  // ---- walking ----

  predicate OneCell(dir: string, a: Cell, b: Cell) {
    || (dir == "up" && b == Cell(a.x, a.y - 1))
    || (dir == "down" && b == Cell(a.x, a.y + 1))
    || (dir == "left" && b == Cell(a.x - 1, a.y))
    || (dir == "right" && b == Cell(a.x + 1, a.y))
  }

  // Floor on which no other living player and no living NPC stands.
  ghost predicate Open(w: World, c: Cell, u: string) {
    && 0 <= c.y < |w.terrain| && 0 <= c.x < |w.terrain[c.y]| && w.terrain[c.y][c.x] != '#'
    && (forall v | v in w.players && v != u && w.players[v].alive :: w.players[v].at != c)
    && (forall n | n in w.npcs && w.npcs[n].alive :: w.npcs[n].at != c)
  }

  // A move takes a living player exactly one cell in its direction exactly when that cell is open, with the treasure
  // that lies there.
  lemma MoveGoes(w: World, step: Step, c: Cell)
    requires Keyed(w) && step.Move? && Fits(w, step) && step.user in w.players && OneCell(step.dir, w.players[step.user].at, c)
    ensures var t, p := Do(w, step), w.players[step.user];
            if !p.alive || !Open(w, c, step.user) then t == w
            else
              && (step.found.None? ==>
                    (forall id | id in w.treasures :: w.treasures[id].at != c)
                    && t == w.(players := w.players[step.user := p.(at := c, lastUpdate := step.now)], version := w.version + 1))
              && (step.found.Some? ==>
                    step.found.value in w.treasures && w.treasures[step.found.value].at == c
                    && t == w.(players := w.players[step.user := p.(at := c, lastUpdate := step.now,
                                                                    treasures := p.treasures + w.treasures[step.found.value].value)],
                               treasures := w.treasures - {step.found.value}, version := w.version + 1))
  {
    assert Toward(w.players[step.user].at, step.dir) == c;
    assert Walkable(w, c, step.user) <==> Open(w, c, step.user);
  }

  lemma OpenIsWalkable(w: World, c: Cell)
    requires Keyed(w) && "" !in w.players
    ensures Walkable(w, c, "") <==> Open(w, c, "")
  {
  }

  // b is the neighbour of a that comes k after the first one tried: up, down, left, right, and again.
  predicate Tried(base: nat, k: nat, a: Cell, b: Cell) {
    var d := (base + k) % 4;
    OneCell(if d == 0 then "up" else if d == 1 then "down" else if d == 2 then "left" else "right", a, b)
  }

  // An NPC takes the first open neighbour, looking round from its drawn direction, and stays where none is.
  lemma NpcWalks(w: World, step: Step, k: nat, c: Cell)
    requires Keyed(w) && "" !in w.players && step.NPCMove? && Fits(w, step) && k < 4
    requires Tried(step.base, k, w.npcs[step.npc].at, c)
    requires forall j: nat, d | j < k && Tried(step.base, j, w.npcs[step.npc].at, d) :: !Open(w, d, "")
    ensures Open(w, c, "") ==>
              Do(w, step) == w.(npcs := w.npcs[step.npc := w.npcs[step.npc].(at := c)], version := w.version + 1)
    ensures k == 3 && !Open(w, c, "") ==> Do(w, step) == w
  {
    hide Walkable, PlayerTarget, Open, FirstFree;
    var a, base := w.npcs[step.npc].at, step.base;
    OpenIsWalkable(w, c);
    assert c == Direction(a, base + k);
    FirstFreeIs(w, a, base, 4);
    if k > 0 { Blocked(w, base, 0, a); }
    if k > 1 { Blocked(w, base, 1, a); }
    if k > 2 { Blocked(w, base, 2, a); }
  }

  lemma Blocked(w: World, base: nat, k: nat, a: Cell)
    requires Keyed(w) && "" !in w.players && forall d | Tried(base, k, a, d) :: !Open(w, d, "")
    ensures !Walkable(w, Direction(a, base + k), "")
  {
    assert Tried(base, k, a, Direction(a, base + k));
    OpenIsWalkable(w, Direction(a, base + k));
  }

  lemma FirstFreeIs(w: World, a: Cell, base: nat, tries: nat)
    requires tries == 4
    ensures FirstFree(w, a, base, 4) ==
            if Walkable(w, Direction(a, base), "") then Some(Direction(a, base))
            else if Walkable(w, Direction(a, base + 1), "") then Some(Direction(a, base + 1))
            else if Walkable(w, Direction(a, base + 2), "") then Some(Direction(a, base + 2))
            else if Walkable(w, Direction(a, base + 3), "") then Some(Direction(a, base + 3)) else None
  {
    hide Walkable, Direction;
    assert FirstFree(w, a, base + 4, 0) == None;
    assert FirstFree(w, a, base + 3, 1) == if Walkable(w, Direction(a, base + 3), "") then Some(Direction(a, base + 3)) else None;
  }

  // ---- buying ----

  // Three treasures buy a potion, of which a player holds at most eight so; eight buy six points of attack.
  lemma BuyGives(w: World, u: string, item: string, now: nat)
    requires u in w.players
    ensures var t, p := Do(w, Buy(u, item, now)), w.players[u];
            if p.alive && item == "potion" && p.treasures >= 3 && p.potions < 8
            then t == w.(players := w.players[u := p.(treasures := p.treasures - 3, potions := p.potions + 1, lastUpdate := now)],
                         version := w.version + 1)
            else if p.alive && item == "weapon" && p.treasures >= 8
            then t == w.(players := w.players[u := p.(treasures := p.treasures - 8, attack := p.attack + 6, lastUpdate := now)],
                         version := w.version + 1)
            else t == w
  {
  }

  // ---- coming and going ----

  // A profile comes back with what it left with; a zero stands for the starting value, and hit points below zero for
  // all of them and a player that is up.
  lemma JoinGives(w: World, p: Profile, c: Cell, now: nat)
    requires Fits(w, Join(p, c, now))
    ensures var t := Do(w, Join(p, c, now));
            && t == w.(players := t.players, version := w.version + 1)
            && t.players.Keys == w.players.Keys + {p.username}
            && (forall v | v in w.players && v != p.username :: t.players[v] == w.players[v])
            && (var q, maxHp := t.players[p.username], if p.maxHp == 0 then 120 else p.maxHp;
                && q.username == p.username && q.at == c && q.maxHp == maxHp
                && q.hp == (if p.hp == 0 then 120 else if p.hp < 0 then maxHp else p.hp)
                && q.alive == (p.hp < 0 || p.alive)
                && q.attack == (if p.attack == 0 then 35 else p.attack) && q.potions == (if p.potions == 0 then 3 else p.potions)
                && q.treasures == p.treasures && q.kills == p.kills && q.deaths == p.deaths && q.victories == p.victories
                && q.respawnAt == 0 && q.lastUpdate == now)
  {
    hide SafePosition;
  }

  // The place: where the profile was on this map, else the spawn point, if that is open; else another open cell if
  // there is one.
  lemma JoinStands(w: World, p: Profile, c: Cell, now: nat, d: Cell)
    requires Keyed(w) && "" !in w.players && Fits(w, Join(p, c, now))
    ensures var wanted := if p.lastMap == w.cfg.id then p.at else w.cfg.spawn;
            && (Open(w, wanted, "") ==> c == wanted)
            && (!Open(w, wanted, "") && Open(w, d, "") ==> Open(w, c, ""))
            && (!Open(w, wanted, "") && !Open(w, c, "") ==> c == w.cfg.spawn)
  {
    assert Walkable(w, c, "") <==> Open(w, c, "");
    assert Walkable(w, d, "") <==> Open(w, d, "");
    var wanted := if p.lastMap == w.cfg.id then p.at else w.cfg.spawn;
    assert Walkable(w, wanted, "") <==> Open(w, wanted, "");
  }

  lemma LeaveTakes(w: World, u: string)
    ensures Do(w, Leave(u)) == if u in w.players then w.(players := map v | v in w.players && v != u :: w.players[v], version := w.version + 1) else w
  {
    assert w.players - {u} == map v | v in w.players && v != u :: w.players[v];
  }

  lemma RewardAdds(w: World, u: string, treasure: int, victories: int, now: nat)
    requires u in w.players
    ensures var t, p := Do(w, Reward(u, treasure, victories, now)), w.players[u];
            t == w.(players := w.players[u := p.(treasures := p.treasures + treasure, victories := p.victories + victories, lastUpdate := now)],
                    version := w.version + 1)
  {
  }

  // ---- spawning ----

  // A new NPC has the next number, seventy to ninety-nine hit points and an attack of eighteen.
  lemma SpawnedNpcIs(w: World, step: Step)
    requires step.SpawnNPC? && Fits(w, step)
    ensures var t, id := Do(w, step), w.cfg.id + "-npc-" + Decimal(w.nextNPC);
            && t == w.(npcs := t.npcs, nextNPC := w.nextNPC + 1, version := w.version + 1) && |w.npcs| < 5
            && id in t.npcs && t.npcs == w.npcs[id := t.npcs[id]]
            && var n := t.npcs[id];
               n.id == id && n.at == step.cell && 70 <= n.hp == step.hp < 100 && n.maxHp == 90 && n.attack == 18 && n.alive
               && n.name == w.nextNPC % 6
  {
    hide Walkable;
  }

  // A treasure of one to four comes on an open cell, onto one that lies there or as a new one, while fewer than eight
  // are there.
  lemma SpawnedTreasureIs(w: World, step: Step)
    requires Keyed(w) && "" !in w.players && step.SpawnTreasure? && Fits(w, step)
    ensures Open(w, step.cell, "") && |w.treasures| < 8 && 1 <= step.value < 5
    ensures var t, id := Do(w, step), w.cfg.id + "-t-" + Decimal(w.nextTreasure);
            && t.players == w.players && t.npcs == w.npcs && t.version == w.version + 1
            && (step.found.Some? ==>
                  step.found.value in w.treasures
                  && var lying := w.treasures[step.found.value];
                     lying.at == step.cell && t.nextTreasure == w.nextTreasure
                     && t.treasures == w.treasures[step.found.value := lying.(value := lying.value + step.value)])
            && (step.found.None? ==>
                  (forall o | o in w.treasures :: w.treasures[o].at != step.cell) && t.nextTreasure == w.nextTreasure + 1
                  && t.treasures == w.treasures[id := Treasure(id, step.kind, step.cell, step.value)])
  {
    OpenIsWalkable(w, step.cell);
  }
}
