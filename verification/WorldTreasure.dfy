/** Treasure: nothing is lost, duplicated or overwritten. */
module WorldTreasure {
  import opened Text
  import opened WorldData
  import opened Worlds

  // ---- the ids and cells of ground treasures ----

  ghost predicate Numbered(w: World, id: string) {
    exists n: nat :: n < w.nextTreasure && id == TreasureId(w.cfg, n)
  }

  ghost predicate Ground(w: World) {
    && (forall id | id in w.treasures :: w.treasures[id].id == id && Numbered(w, id))
    && (forall a, b | a in w.treasures && b in w.treasures && a != b :: w.treasures[a].at != w.treasures[b].at)
  }

  lemma EmptyWorldHasGround(cfg: Config, grid: Grid)
    ensures Ground(EmptyWorld(cfg, grid)) && Total(EmptyWorld(cfg, grid)) == 0
  {
  }

  lemma TreasureIdInjective(cfg: Config, a: nat, b: nat)
    requires TreasureId(cfg, a) == TreasureId(cfg, b)
    ensures a == b
  {
    var prefix := cfg.id + "-t-";
    assert TreasureId(cfg, a)[|prefix|..] == Decimal(a) && TreasureId(cfg, b)[|prefix|..] == Decimal(b);
    DecimalInjective(a, b);
  }

  lemma NpcIdInjective(cfg: Config, a: nat, b: nat)
    requires NpcId(cfg, a) == NpcId(cfg, b)
    ensures a == b
  {
    var prefix := cfg.id + "-npc-";
    assert NpcId(cfg, a)[|prefix|..] == Decimal(a) && NpcId(cfg, b)[|prefix|..] == Decimal(b);
    DecimalInjective(a, b);
  }

  // The next id is free: a drop never overwrites a treasure.
  lemma NextIdIsFree(w: World)
    requires Ground(w)
    ensures TreasureId(w.cfg, w.nextTreasure) !in w.treasures
  {
    var id := TreasureId(w.cfg, w.nextTreasure);
    if id in w.treasures {
      var n: nat :| n < w.nextTreasure && id == TreasureId(w.cfg, n);
      TreasureIdInjective(w.cfg, n, w.nextTreasure);
    }
  }

  lemma DropKeepsGround(w: World, c: Cell, value: int, kind: string, found: Option<string>)
    requires Ground(w) && Found(w, c, found)
    ensures Ground(Drop(w, c, value, kind, found))
  {
    var w' := Drop(w, c, value, kind, found);
    NextIdIsFree(w);
    forall id | id in w'.treasures ensures w'.treasures[id].id == id && Numbered(w', id) {
      if id in w.treasures {
        var n: nat :| n < w.nextTreasure && id == TreasureId(w.cfg, n);
        assert n < w'.nextTreasure;
      } else {
        assert id == TreasureId(w.cfg, w.nextTreasure);
      }
    }
  }

  // The drop an attack makes; every other step only removes treasures or leaves them.
  lemma StepKeepsGround(w: World, step: Step)
    requires Ground(w)
    ensures Ground(Do(w, step))
  {
    hide Walkable, PlayerTarget, NpcTarget, SafePosition, FirstFree;
    var w' := Do(w, step);
    if w' != w {
      if step.SpawnTreasure? {
        DropKeepsGround(w, step.cell, step.value, step.kind, step.found);
      } else if step.AttackNPC? {
        AttackKeepsGround(w, step);
      } else {
        FewerKeepGround(w, w');
      }
    }
  }

  lemma AttackKeepsGround(w: World, step: Step)
    requires Ground(w) && step.AttackNPC? && Do(w, step) != w
    ensures Ground(Do(w, step))
  {
    var p, n := w.players[step.user], w.npcs[step.target];
    if n.hp - p.attack <= 0 {
      DropKeepsGround(w, n.at, step.value, step.kind, step.found);
      FewerKeepGround(Drop(w, n.at, step.value, step.kind, step.found), Do(w, step));
    } else {
      FewerKeepGround(w, Do(w, step));
    }
  }

  lemma FewerKeepGround(w: World, w': World)
    requires Ground(w) && w'.cfg == w.cfg && w'.nextTreasure == w.nextTreasure
    requires w'.treasures.Keys <= w.treasures.Keys && forall id | id in w'.treasures :: w'.treasures[id] == w.treasures[id]
    ensures Ground(w')
  {
    forall id | id in w'.treasures ensures Numbered(w', id) {
      var n: nat :| n < w.nextTreasure && id == TreasureId(w.cfg, n);
    }
  }

  // ---- the sum ----

  ghost function Sum(m: map<string, int>): int {
    if m == map[] then 0 else var k :| k in m; m[k] + Sum(m - {k})
  }

  lemma {:induction false} SumAnyOrder(m: map<string, int>, k: string)
    requires k in m
    ensures Sum(m) == m[k] + Sum(m - {k})
  {
    var first :| first in m && Sum(m) == m[first] + Sum(m - {first});
    if first != k {
      SumAnyOrder(m - {first}, k);
      SumAnyOrder(m - {k}, first);
      assert m - {first} - {k} == m - {k} - {first};
    }
  }

  lemma SumUpdated(m: map<string, int>, k: string, v: int)
    ensures Sum(m[k := v]) == Sum(m) + v - if k in m then m[k] else 0
  {
    SumAnyOrder(m[k := v], k);
    assert m[k := v] - {k} == m - {k};
    if k in m { SumAnyOrder(m, k); } else { assert m - {k} == m; }
  }

  function Purses(players: map<string, Player>): map<string, int> {
    map u | u in players :: players[u].treasures
  }

  function Values(treasures: map<string, Treasure>): map<string, int> {
    map id | id in treasures :: treasures[id].value
  }

  // All treasure of the map: on the ground and in the purses.
  ghost function Total(w: World): int {
    Sum(Purses(w.players)) + Sum(Values(w.treasures))
  }

  function PurseOf(w: World, u: string): int {
    if u in w.players then w.players[u].treasures else 0
  }

  lemma PlayerUpdated(players: map<string, Player>, u: string, p: Player)
    ensures Sum(Purses(players[u := p])) == Sum(Purses(players)) + p.treasures - if u in players then players[u].treasures else 0
  {
    SumUpdated(Purses(players), u, p.treasures);
    assert Purses(players[u := p]) == Purses(players)[u := p.treasures];
  }

  lemma PlayerRemoved(players: map<string, Player>, u: string)
    requires u in players
    ensures Sum(Purses(players - {u})) == Sum(Purses(players)) - players[u].treasures
  {
    SumAnyOrder(Purses(players), u);
    assert Purses(players - {u}) == Purses(players) - {u};
  }

  lemma TreasureRemoved(treasures: map<string, Treasure>, id: string)
    requires id in treasures
    ensures Sum(Values(treasures - {id})) == Sum(Values(treasures)) - treasures[id].value
  {
    SumAnyOrder(Values(treasures), id);
    assert Values(treasures - {id}) == Values(treasures) - {id};
  }

  lemma TreasureUpdated(treasures: map<string, Treasure>, id: string, t: Treasure)
    ensures Sum(Values(treasures[id := t])) == Sum(Values(treasures)) + t.value - if id in treasures then treasures[id].value else 0
  {
    SumUpdated(Values(treasures), id, t.value);
    assert Values(treasures[id := t]) == Values(treasures)[id := t.value];
  }

  // What a step that takes effect brings into the map or takes out of it.
  ghost function Delta(w: World, step: Step): int {
    if Do(w, step) == w then 0
    else
      match step
      case AttackNPC(u, target, _, value, _, _) =>
        if w.npcs[target].hp - w.players[u].attack <= 0 && InGrid(w.terrain, w.npcs[target].at) then value else 0
      case SpawnTreasure(_, value, _, _) => value
      case Buy(_, item, _) => if item == "potion" then -POTION_PRICE else -WEAPON_PRICE
      case Reward(_, dt, _, _) => dt
      case Join(p, _, _) => p.treasures - PurseOf(w, p.username)
      case Leave(u) => -PurseOf(w, u)
      case _ => 0
  }

  lemma DropAddsValue(w: World, c: Cell, value: int, kind: string, found: Option<string>)
    requires Ground(w) && Found(w, c, found)
    ensures Sum(Values(Drop(w, c, value, kind, found).treasures)) ==
            Sum(Values(w.treasures)) + if InGrid(w.terrain, c) then value else 0
  {
    NextIdIsFree(w);
    var id := if found.Some? then found.value else TreasureId(w.cfg, w.nextTreasure);
    if InGrid(w.terrain, c) { TreasureUpdated(w.treasures, id, Drop(w, c, value, kind, found).treasures[id]); }
  }

  lemma MoveTransfers(w: World, step: Step)
    requires step.Move? && Do(w, step) != w
    ensures Total(Do(w, step)) == Total(w)
  {
    PlayerUpdated(w.players, step.user, Do(w, step).players[step.user]);
    if step.found.Some? { TreasureRemoved(w.treasures, step.found.value); }
  }

  lemma AttackNpcAdds(w: World, step: Step)
    requires Ground(w) && step.AttackNPC? && Do(w, step) != w
    ensures Total(Do(w, step)) == Total(w) + Delta(w, step)
  {
    var n := w.npcs[step.target];
    PlayerUpdated(w.players, step.user, Do(w, step).players[step.user]);
    if n.hp - w.players[step.user].attack <= 0 { DropAddsValue(w, n.at, step.value, step.kind, step.found); }
  }

  lemma AttackPlayerKeeps(w: World, step: Step)
    requires step.AttackPlayer? && Do(w, step) != w
    ensures Total(Do(w, step)) == Total(w)
  {
    var w' := Do(w, step);
    var mid := w.players[step.user := w'.players[step.user]];
    PlayerUpdated(w.players, step.user, w'.players[step.user]);
    PlayerUpdated(mid, step.target, w'.players[step.target]);
  }

  // A pickup only transfers; the total changes by exactly what drops, purchases, rewards, joins and leaves say.
  lemma StepChangesTotalByDelta(w: World, step: Step)
    requires Ground(w)
    ensures Total(Do(w, step)) == Total(w) + Delta(w, step)
  {
    hide Total, Walkable, PlayerTarget, NpcTarget, SafePosition, FirstFree;
    if Do(w, step) != w {
      match step
      case Move(_, _, _, _) => MoveTransfers(w, step);
      case AttackNPC(_, _, _, _, _, _) => AttackNpcAdds(w, step);
      case AttackPlayer(_, _, _) => AttackPlayerKeeps(w, step);
      case _ => OnePurseChanges(w, step);
    }
  }

  lemma OnePurseChanges(w: World, step: Step)
    requires Ground(w) && !step.Move? && !step.AttackNPC? && !step.AttackPlayer? && Do(w, step) != w
    ensures Total(Do(w, step)) == Total(w) + Delta(w, step)
  {
    hide Sum, Purses, Values, Walkable, NpcTarget, SafePosition, FirstFree;
    var w' := Do(w, step);
    match step
    case Refresh(u, _, _) => PlayerUpdated(w.players, u, w'.players[u]);
    case Heal(u, _) => PlayerUpdated(w.players, u, w'.players[u]);
    case Buy(u, _, _) => PlayerUpdated(w.players, u, w'.players[u]);
    case Reward(u, _, _, _) => PlayerUpdated(w.players, u, w'.players[u]);
    case Join(p, _, _) => PlayerUpdated(w.players, p.username, w'.players[p.username]);
    case Leave(u) => PlayerRemoved(w.players, u);
    case NPCAttack(_, u, _) => PlayerUpdated(w.players, u, w'.players[u]);
    case SpawnTreasure(c, value, kind, found) => DropAddsValue(w, c, value, kind, found);
    case _ =>
  }

  ghost function Ledger(w: World, steps: seq<Step>): int {
    if steps == [] then 0
    else
      var before := steps[..|steps| - 1];
      Ledger(w, before) + Delta(Run(w, before), steps[|steps| - 1])
  }

  lemma {:induction false} TreasureOverRuns(w: World, steps: seq<Step>)
    requires Ground(w)
    ensures Ground(Run(w, steps))
    ensures Total(Run(w, steps)) == Total(w) + Ledger(w, steps)
  {
    hide Do, Total, Delta, Ground;
    if steps != [] {
      var before := steps[..|steps| - 1];
      TreasureOverRuns(w, before);
      StepKeepsGround(Run(w, before), steps[|steps| - 1]);
      StepChangesTotalByDelta(Run(w, before), steps[|steps| - 1]);
    }
  }
}
