/** Where a spawn may fall: the twelve best walkable cells by their distance to everything, the edge and the centre. */
module WorldSpawn {
  import opened WorldData
  import opened Worlds
  import opened WorldInvariants

  const MAP_WIDTH := 56
  const MAP_HEIGHT := 24
  const FAR := MAP_WIDTH + MAP_HEIGHT
  const LIMIT := 12

  function Min(a: int, b: int): int { if a < b then a else b }

  // The distance to the nearest of the cells, at most FAR.
  ghost function Nearest(cells: set<Cell>, c: Cell): (d: int)
    ensures IsNearest(cells, c, d)
  {
    if cells == {} then FAR
    else
      var x :| x in cells;
      Min(Distance(c, x), Nearest(cells - {x}, c))
  }

  lemma OneNearest(cells: set<Cell>, c: Cell, d: int)
    requires IsNearest(cells, c, d)
    ensures d == Nearest(cells, c)
  {
  }

  predicate IsNearest(cells: set<Cell>, c: Cell, d: int) {
    && d <= FAR && (forall x | x in cells :: d <= Distance(c, x))
    && (d == FAR || exists x :: x in cells && d == Distance(c, x))
  }

  function NpcsAt(w: World): set<Cell> { set n | n in w.npcs && w.npcs[n].alive :: w.npcs[n].at }
  function PlayersAt(w: World): set<Cell> { set u | u in w.players && w.players[u].alive :: w.players[u].at }
  function TreasuresAt(w: World): set<Cell> { set id | id in w.treasures :: w.treasures[id].at }

  // spawnScoreLocked, from the three distances on.
  function ScoreOf(cfg: Config, terrain: Grid, c: Cell, preferNPC: bool, npc: int, player: int, treasure: int): int
    requires terrain != []
  {
    var width, height := |terrain[0]|, |terrain|;
    npc * 120 + player * 20 + treasure * 15 + Min(Min(c.x, width - 1 - c.x), Min(c.y, height - 1 - c.y)) * 30
    - Distance(c, Cell(width / 2, height / 2)) * 3 + if preferNPC then Distance(c, cfg.spawn) * 2 else 0
  }

  ghost function Score(w: World, c: Cell, preferNPC: bool): int
    requires w.terrain != []
  {
    ScoreOf(w.cfg, w.terrain, c, preferNPC, Nearest(NpcsAt(w), c), Nearest(PlayersAt(w), c), Nearest(TreasuresAt(w), c))
  }

  // What a cell farther from the next NPC, player or treasure gains; and a cell nearer to the centre, farther from the
  // edge, or, for NPCs and placed players, farther from the spawn point.
  lemma ScoreWeighs(cfg: Config, terrain: Grid, c: Cell, preferNPC: bool, npc: int, player: int, treasure: int)
    requires terrain != []
    ensures var score := ScoreOf(cfg, terrain, c, preferNPC, npc, player, treasure);
            && ScoreOf(cfg, terrain, c, preferNPC, npc + 1, player, treasure) == score + 120
            && ScoreOf(cfg, terrain, c, preferNPC, npc, player + 1, treasure) == score + 20
            && ScoreOf(cfg, terrain, c, preferNPC, npc, player, treasure + 1) == score + 15
            && ScoreOf(cfg, terrain, c, true, npc, player, treasure) - ScoreOf(cfg, terrain, c, false, npc, player, treasure)
               == 2 * Distance(c, cfg.spawn)
    ensures forall margin, off |
              && margin <= c.x && margin <= |terrain[0]| - 1 - c.x && margin <= c.y && margin <= |terrain| - 1 - c.y
              && (margin == c.x || margin == |terrain[0]| - 1 - c.x || margin == c.y || margin == |terrain| - 1 - c.y)
              && off == Distance(c, Cell(|terrain[0]| / 2, |terrain| / 2)) ::
              ScoreOf(cfg, terrain, c, false, 0, 0, 0) == 30 * margin - 3 * off
  {
  }

  datatype Scored = Scored(cell: Cell, score: int)

  // The higher score first, then the upper row, then the left column.
  predicate Ranks(a: Scored, b: Scored) {
    a.score > b.score || (a.score == b.score && (a.cell.y < b.cell.y || (a.cell.y == b.cell.y && a.cell.x < b.cell.x)))
  }

  predicate Ranked(list: seq<Scored>) { forall i, j | 0 <= i < j < |list| :: Ranks(list[i], list[j]) }

  function InsertRanked(s: Scored, list: seq<Scored>): (r: seq<Scored>) {
    if list == [] then [s] else if Ranks(s, list[0]) then [s] + list else [list[0]] + InsertRanked(s, list[1..])
  }

  lemma {:induction false} InsertKeepsRanked(s: Scored, list: seq<Scored>)
    requires Ranked(list) && forall t | t in list :: t.cell != s.cell
    ensures Ranked(InsertRanked(s, list)) && forall t :: t in InsertRanked(s, list) <==> t == s || t in list
  {
    if list != [] && !Ranks(s, list[0]) {
      InsertKeepsRanked(s, list[1..]);
      assert list == [list[0]] + list[1..];
      forall t | t in InsertRanked(s, list[1..]) ensures Ranks(list[0], t) {
        if t != s { var i :| 1 <= i < |list| && list[i] == t; }
      }
    }
  }

  ghost predicate IsScored(w: World, s: Scored, ignore: string, preferNPC: bool) {
    w.terrain != [] && Walkable(w, s.cell, ignore) && s.score == Score(w, s.cell, preferNPC)
  }

  // The cells before (x, y), row by row.
  predicate Scanned(c: Cell, x: int, y: int) { c.y < y || (c.y == y && c.x < x) }

  lemma WalkableInRow(w: World, y: nat, ignore: string)
    requires y < |w.terrain|
    ensures forall c: Cell | Walkable(w, c, ignore) :: c.y <= y <==> Scanned(c, |w.terrain[y]|, y)
  {
  }

  lemma WalkableOnGrid(w: World, ignore: string)
    ensures forall c: Cell | Walkable(w, c, ignore) :: 0 <= c.y < |w.terrain| && 0 <= c.x
  {
  }

  lemma WalkableIsScored(w: World, c: Cell, ignore: string, preferNPC: bool)
    requires Walkable(w, c, ignore)
    ensures w.terrain != [] && IsScored(w, Scored(c, Score(w, c, preferNPC)), ignore, preferNPC)
  {
    hide Score;
  }

  lemma NoneScored(w: World, ignore: string, preferNPC: bool)
    requires forall s :: !IsScored(w, s, ignore, preferNPC)
    ensures Crowded(w, ignore)
  {
    hide IsScored, Walkable;
    if !Crowded(w, ignore) {
      var c :| Walkable(w, c, ignore);
      WalkableIsScored(w, c, ignore, preferNPC);
      assert false;
    }
  }

  // Fewer than twelve walkable cells rank before it.
  ghost predicate AmongTheBest(w: World, c: Cell, ignore: string, preferNPC: bool) {
    && Walkable(w, c, ignore) && w.terrain != []
    && exists better: set<Cell> ::
      && |better| < LIMIT
      && forall s | IsScored(w, s, ignore, preferNPC) && Ranks(s, Scored(c, Score(w, c, preferNPC))) :: s.cell in better
  }

  function CellsIn(list: seq<Scored>): set<Cell> {
    if list == [] then {} else CellsIn(list[..|list| - 1]) + {list[|list| - 1].cell}
  }

  lemma {:induction false} AtMostAsMany(list: seq<Scored>)
    ensures |CellsIn(list)| <= |list| && forall s | s in list :: s.cell in CellsIn(list)
  {
    if list != [] {
      AtMostAsMany(list[..|list| - 1]);
      assert list == list[..|list| - 1] + [list[|list| - 1]];
    }
  }

  // The first twelve of the ranked candidates are among the best.
  lemma FirstTwelve(w: World, list: seq<Scored>, k: nat, ignore: string, preferNPC: bool)
    requires Ranked(list) && k < |list| && k < LIMIT
    requires forall s :: s in list <==> IsScored(w, s, ignore, preferNPC)
    ensures AmongTheBest(w, list[k].cell, ignore, preferNPC)
  {
    hide IsScored;
    AtMostAsMany(list[..k]);
    assert list[k] in list;
    forall s | IsScored(w, s, ignore, preferNPC) && Ranks(s, list[k]) ensures s.cell in CellsIn(list[..k]) {
      var i :| 0 <= i < |list| && list[i] == s;
      assert i < k && list[..k][i] == s;
    }
    ScoredMeans(w, list[k], ignore, preferNPC);
  }

  lemma ScoredMeans(w: World, s: Scored, ignore: string, preferNPC: bool)
    requires IsScored(w, s, ignore, preferNPC)
    ensures Walkable(w, s.cell, ignore) && s == Scored(s.cell, Score(w, s.cell, preferNPC))
  {
  }

  // Told by the cells: no twelve walkable cells score higher, or as high and lie in a row above or to the left.
  lemma BestMeans(w: World, c: Cell, ignore: string, preferNPC: bool, before: set<Cell>)
    requires AmongTheBest(w, c, ignore, preferNPC)
    requires forall d | d in before ::
               Walkable(w, d, ignore)
               && (Score(w, d, preferNPC) > Score(w, c, preferNPC)
                   || (Score(w, d, preferNPC) == Score(w, c, preferNPC) && (d.y < c.y || (d.y == c.y && d.x < c.x))))
    ensures |before| < 12
  {
    hide Score, Walkable;
    var better: set<Cell> :| |better| < LIMIT
      && forall s | IsScored(w, s, ignore, preferNPC) && Ranks(s, Scored(c, Score(w, c, preferNPC))) :: s.cell in better;
    forall d | d in before ensures d in better {
      var s := Scored(d, Score(w, d, preferNPC));
      assert IsScored(w, s, ignore, preferNPC) && Ranks(s, Scored(c, Score(w, c, preferNPC)));
    }
    SubsetIsNoLarger(before, better);
  }

  // And where at most eleven do, the cell may be drawn.
  lemma FewBeforeIsBest(w: World, c: Cell, ignore: string, preferNPC: bool, before: set<Cell>)
    requires Walkable(w, c, ignore) && |before| <= 11
    requires forall d: Cell |
               Walkable(w, d, ignore)
               && (Score(w, d, preferNPC) > Score(w, c, preferNPC)
                   || (Score(w, d, preferNPC) == Score(w, c, preferNPC) && (d.y < c.y || (d.y == c.y && d.x < c.x)))) :: d in before
    ensures AmongTheBest(w, c, ignore, preferNPC)
  {
    WalkableIsScored(w, c, ignore, preferNPC);
    hide Score, Walkable;
    assert |before| < LIMIT;
    forall s | IsScored(w, s, ignore, preferNPC) && Ranks(s, Scored(c, Score(w, c, preferNPC))) ensures s.cell in before {
      ScoredMeans(w, s, ignore, preferNPC);
    }
  }

  // On a map of at most twelve floor cells a spawn may fall on every walkable one.
  lemma FewCellsAreAllAmongTheBest(w: World, c: Cell, ignore: string, preferNPC: bool)
    requires Walkable(w, c, ignore) && |FloorCells(w.terrain)| <= LIMIT
    ensures AmongTheBest(w, c, ignore, preferNPC)
  {
    var better := FloorCells(w.terrain) - {c};
    assert c in FloorCells(w.terrain) && |better| < LIMIT;
    forall s | IsScored(w, s, ignore, preferNPC) && Ranks(s, Scored(c, Score(w, c, preferNPC))) ensures s.cell in better {
      assert s.cell in FloorCells(w.terrain);
    }
  }

  // The cell that the step draws is one the code may draw.
  ghost predicate Drawable(w: World, step: Step) {
    match step
    case SpawnNPC(c, _) => AmongTheBest(w, c, "", true)
    case SpawnTreasure(c, _, _, _) => AmongTheBest(w, c, "", false)
    case Join(p, c, _) => c == Preferred(w, p) || c == w.cfg.spawn || AmongTheBest(w, c, "", true)
    case Refresh(u, now, c) =>
      u in w.players && Due(w.players[u], now) ==> c == w.cfg.spawn || AmongTheBest(w, c, w.players[u].username, true)
    case _ => true
  }

  lemma FewCellsAreDrawable(w: World, step: Step)
    requires Fits(w, step) && |FloorCells(w.terrain)| <= LIMIT
    ensures Drawable(w, step)
  {
    hide FloorCells, Walkable, AmongTheBest, NpcTarget, PlayerTarget, Found;
    match step
    case SpawnNPC(c, _) => FewCellsAreAllAmongTheBest(w, c, "", true);
    case SpawnTreasure(c, _, _, _) => FewCellsAreAllAmongTheBest(w, c, "", false);
    case Join(p, c, _) => if Walkable(w, c, "") { FewCellsAreAllAmongTheBest(w, c, "", true); }
    case Refresh(u, now, c) =>
      if u in w.players && Due(w.players[u], now) && Walkable(w, c, w.players[u].username) {
        FewCellsAreAllAmongTheBest(w, c, w.players[u].username, true);
      }
    case _ =>
  }

  lemma StepKeepsTerrain(w: World, step: Step)
    ensures Do(w, step).terrain == w.terrain
  {
    hide Walkable, NpcTarget, PlayerTarget, SafePosition, Found, FirstFree;
  }

  lemma {:induction false} RunKeepsTerrain(w: World, steps: seq<Step>)
    ensures Run(w, steps).terrain == w.terrain
  {
    hide Do;
    if steps != [] {
      RunKeepsTerrain(w, steps[..|steps| - 1]);
      StepKeepsTerrain(Run(w, steps[..|steps| - 1]), steps[|steps| - 1]);
    }
  }

  // So every fitting run on such a map draws only cells that the code may draw.
  lemma FewCellsDrawTheBest(w: World, steps: seq<Step>)
    requires AllFit(w, steps) && |FloorCells(w.terrain)| <= LIMIT
    ensures forall i | 0 <= i < |steps| :: Drawable(Run(w, steps[..i]), steps[i])
  {
    hide Run, Fits, Drawable, FloorCells;
    forall i | 0 <= i < |steps| ensures Drawable(Run(w, steps[..i]), steps[i]) {
      RunKeepsTerrain(w, steps[..i]);
      FewCellsAreDrawable(Run(w, steps[..i]), steps[i]);
    }
  }
}
