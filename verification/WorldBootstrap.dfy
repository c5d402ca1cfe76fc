/**
 Worlds that NewWorld leaves: its five NPCs and four treasures, on any cells it may draw; and two runs that start
 from there, one into a restore that destroys a treasure, one into a respawn without room.
 */
module WorldBootstrap {
  import opened Text
  import opened WorldData
  import opened Worlds
  import opened WorldInvariants
  import opened WorldTreasure
  import opened WorldRounds
  import opened WorldCheckpoint
  import opened WorldRestore
  import opened WorldSpawn

  const SUPPLY := "遗迹补给"

  function NpcOn(cfg: Config, i: nat, c: Cell): NPC { NPC(NpcId(cfg, i), i % NPC_NAMES, c, 70, 90, NPC_DAMAGE, true) }
  function BoxOn(cfg: Config, i: nat, c: Cell): Treasure { Treasure(TreasureId(cfg, i), SUPPLY, c, 1) }

  function Npcs(cfg: Config, cells: seq<Cell>): map<string, NPC> {
    if cells == [] then map[]
    else
      var last := |cells| - 1;
      Npcs(cfg, cells[..last])[NpcId(cfg, last) := NpcOn(cfg, last, cells[last])]
  }

  function Boxes(cfg: Config, cells: seq<Cell>): map<string, Treasure> {
    if cells == [] then map[]
    else
      var last := |cells| - 1;
      Boxes(cfg, cells[..last])[TreasureId(cfg, last) := BoxOn(cfg, last, cells[last])]
  }

  function SpawnAll(npcCells: seq<Cell>): seq<Step> {
    seq(|npcCells|, i requires 0 <= i < |npcCells| => SpawnNPC(npcCells[i], 70))
  }

  function DropAll(boxCells: seq<Cell>): seq<Step> {
    seq(|boxCells|, i requires 0 <= i < |boxCells| => SpawnTreasure(boxCells[i], 1, SUPPLY, None))
  }

  // Different floor cells for the NPCs, and different floor cells beside them for the treasures.
  ghost predicate Spread(grid: Grid, npcCells: seq<Cell>, boxCells: seq<Cell>) {
    && (forall c | c in npcCells + boxCells :: Floor(grid, c))
    && (forall i, j | 0 <= i < j < |npcCells| :: npcCells[i] != npcCells[j])
    && (forall i, j | 0 <= i < j < |boxCells| :: boxCells[i] != boxCells[j])
    && (forall c | c in boxCells :: c !in npcCells)
  }

  function Populated(cfg: Config, grid: Grid, npcCells: seq<Cell>, boxCells: seq<Cell>): World {
    World(cfg, grid, map[], Npcs(cfg, npcCells), Boxes(cfg, boxCells), |npcCells| + |boxCells|, |npcCells|, |boxCells|)
  }

  lemma {:induction false} NpcsStand(cfg: Config, cells: seq<Cell>)
    ensures |Npcs(cfg, cells)| <= |cells| && forall n | n in Npcs(cfg, cells) :: Npcs(cfg, cells)[n].at in cells
  {
    hide NpcId;
    if cells != [] {
      NpcsStand(cfg, cells[..|cells| - 1]);
      assert cells == cells[..|cells| - 1] + [cells[|cells| - 1]];
    }
  }

  lemma {:induction false} NpcStands(cfg: Config, cells: seq<Cell>, i: nat)
    requires i < |cells|
    ensures NpcId(cfg, i) in Npcs(cfg, cells) && Npcs(cfg, cells)[NpcId(cfg, i)] == NpcOn(cfg, i, cells[i])
  {
    hide NpcId;
    if i < |cells| - 1 {
      NpcStands(cfg, cells[..|cells| - 1], i);
      if NpcId(cfg, i) == NpcId(cfg, |cells| - 1) { NpcIdInjective(cfg, i, |cells| - 1); }
    }
  }

  lemma DifferentIds(cfg: Config, i: nat, j: nat)
    requires i != j
    ensures TreasureId(cfg, i) != TreasureId(cfg, j)
  {
    if TreasureId(cfg, i) == TreasureId(cfg, j) { TreasureIdInjective(cfg, i, j); }
  }

  lemma {:induction false} BoxesLie(cfg: Config, cells: seq<Cell>)
    ensures |Boxes(cfg, cells)| <= |cells| && forall id | id in Boxes(cfg, cells) :: Boxes(cfg, cells)[id].at in cells
  {
    hide TreasureId;
    if cells != [] {
      BoxesLie(cfg, cells[..|cells| - 1]);
      assert cells == cells[..|cells| - 1] + [cells[|cells| - 1]];
    }
  }

  lemma {:induction false} BoxLies(cfg: Config, cells: seq<Cell>, i: nat)
    requires i < |cells|
    ensures TreasureId(cfg, i) in Boxes(cfg, cells) && Boxes(cfg, cells)[TreasureId(cfg, i)] == BoxOn(cfg, i, cells[i])
  {
    hide TreasureId;
    if i < |cells| - 1 {
      BoxLies(cfg, cells[..|cells| - 1], i);
      DifferentIds(cfg, i, |cells| - 1);
    }
  }

  lemma {:induction false} SpawnsRun(cfg: Config, grid: Grid, cells: seq<Cell>)
    requires Spread(grid, cells, []) && |cells| <= MIN_NPCS
    ensures AllFit(EmptyWorld(cfg, grid), SpawnAll(cells))
    ensures Run(EmptyWorld(cfg, grid), SpawnAll(cells)) == Populated(cfg, grid, cells, [])
  {
    hide Do, Fits, AllFit;
    var w0 := EmptyWorld(cfg, grid);
    if cells == [] {
      OptionalRun(w0, None);
      assert SpawnAll(cells) == Optional(None);
    } else {
      var last := |cells| - 1;
      var before, c := cells[..last], cells[last];
      assert cells == before + [c] && forall d | d in before :: d in cells;
      SpawnsRun(cfg, grid, before);
      assert SpawnAll(cells) == SpawnAll(before) + [SpawnNPC(c, 70)];
      OneMoreNPC(cfg, grid, before, c);
      Extend(w0, SpawnAll(before), SpawnNPC(c, 70));
    }
  }

  lemma OneMoreNPC(cfg: Config, grid: Grid, before: seq<Cell>, c: Cell)
    requires |before| < MIN_NPCS && Floor(grid, c) && c !in before
    ensures Fits(Populated(cfg, grid, before, []), SpawnNPC(c, 70))
    ensures Do(Populated(cfg, grid, before, []), SpawnNPC(c, 70)) == Populated(cfg, grid, before + [c], [])
  {
    hide NpcId;
    NpcsStand(cfg, before);
    assert (before + [c])[..|before|] == before;
    assert Walkable(Populated(cfg, grid, before, []), c, "");
  }

  lemma {:induction false} DropsRun(cfg: Config, grid: Grid, npcCells: seq<Cell>, cells: seq<Cell>)
    requires Spread(grid, npcCells, cells) && |cells| <= MAX_TREASURES
    ensures AllFit(Populated(cfg, grid, npcCells, []), DropAll(cells))
    ensures Run(Populated(cfg, grid, npcCells, []), DropAll(cells)) == Populated(cfg, grid, npcCells, cells)
  {
    hide Do, Fits, AllFit;
    var w0 := Populated(cfg, grid, npcCells, []);
    if cells == [] {
      OptionalRun(w0, None);
      assert DropAll(cells) == Optional(None);
    } else {
      var last := |cells| - 1;
      var before, c := cells[..last], cells[last];
      assert cells == before + [c] && forall d | d in before :: d in cells;
      assert c in npcCells + cells && forall d | d in npcCells + before :: d in npcCells + cells;
      DropsRun(cfg, grid, npcCells, before);
      assert DropAll(cells) == DropAll(before) + [SpawnTreasure(c, 1, SUPPLY, None)];
      OneMoreBox(cfg, grid, npcCells, before, c);
      Extend(w0, DropAll(before), SpawnTreasure(c, 1, SUPPLY, None));
    }
  }

  lemma OneMoreBox(cfg: Config, grid: Grid, npcCells: seq<Cell>, before: seq<Cell>, c: Cell)
    requires |before| < MAX_TREASURES && Floor(grid, c) && c !in before && c !in npcCells
    ensures var w, step := Populated(cfg, grid, npcCells, before), SpawnTreasure(c, 1, SUPPLY, None);
            Fits(w, step) && Do(w, step) == Populated(cfg, grid, npcCells, before + [c])
  {
    hide NpcId, TreasureId;
    NpcsStand(cfg, npcCells);
    BoxesLie(cfg, before);
    assert (before + [c])[..|before|] == before;
    var w := Populated(cfg, grid, npcCells, before);
    assert Walkable(w, c, "") && NoTreasureAt(w, c);
  }

  // Five NPCs and four treasures on any such cells: that is a run from the empty world, and what NewWorld returns
  // when its draws fall so.
  lemma BootstrapRuns(cfg: Config, grid: Grid, npcCells: seq<Cell>, boxCells: seq<Cell>)
    requires |npcCells| == MIN_NPCS && |boxCells| == MAX_TREASURES / 2 && Spread(grid, npcCells, boxCells)
    ensures AllFit(EmptyWorld(cfg, grid), SpawnAll(npcCells) + DropAll(boxCells))
    ensures Run(EmptyWorld(cfg, grid), SpawnAll(npcCells) + DropAll(boxCells)) == Populated(cfg, grid, npcCells, boxCells)
  {
    hide Do, Fits, AllFit, Run, Populated;
    assert Spread(grid, npcCells, []) by { assert forall c | c in npcCells :: c in npcCells + boxCells; }
    SpawnsRun(cfg, grid, npcCells);
    DropsRun(cfg, grid, npcCells, boxCells);
    RunThenRun(EmptyWorld(cfg, grid), SpawnAll(npcCells), DropAll(boxCells));
    FitThenFit(EmptyWorld(cfg, grid), SpawnAll(npcCells), DropAll(boxCells));
  }

  lemma PopulatedHasOccupancy(cfg: Config, grid: Grid, npcCells: seq<Cell>, boxCells: seq<Cell>)
    requires |npcCells| == MIN_NPCS && |boxCells| == MAX_TREASURES / 2 && Spread(grid, npcCells, boxCells)
    ensures Occupancy(Populated(cfg, grid, npcCells, boxCells))
  {
    hide Occupancy, Do, Run, Populated;
    var e, steps := EmptyWorld(cfg, grid), SpawnAll(npcCells) + DropAll(boxCells);
    BootstrapRuns(cfg, grid, npcCells, boxCells);
    EmptyWorldHasOccupancy(cfg, grid);
    forall i | 0 <= i < |steps| ensures HasRoom(Run(e, steps[..i]), steps[i]) {
      assert steps[i].SpawnNPC? || steps[i].SpawnTreasure?;
    }
    OccupancyOverRuns(e, steps);
  }

  // ---- a restore that destroys a treasure ----

  // A player comes in beside a treasure, steps onto it and leaves.
  function Fetch(cfg: Config, u: string, d: Cell, id: string): seq<Step> {
    [Join(Walker(cfg, u, d), d, 1)] + [Move(u, "left", 1, Some(id))] + [Leave(u)]
  }

  ghost predicate Fetchable(w: World, d: Cell, id: string) {
    w.players == map[] && Walkable(w, d, "") && Walkable(w, Toward(d, "left"), "") && TreasureAt(w, Toward(d, "left"), id)
  }

  lemma FetcherJoins(w: World, u: string, d: Cell)
    requires w.players == map[] && Walkable(w, d, "")
    ensures var join := Join(Walker(w.cfg, u, d), d, 1);
            Fits(w, join) && Do(w, join) == w.(players := map[u := Joined(Walker(w.cfg, u, d), d, 1)], version := w.version + 1)
  {
    hide Walkable;
  }

  lemma FetcherMoves(w: World, u: string, p: Player, id: string)
    requires w.players == map[u := p] && p.username == u && p.alive
    requires Walkable(w, Toward(p.at, "left"), u) && TreasureAt(w, Toward(p.at, "left"), id)
    ensures var move := Move(u, "left", 1, Some(id));
            && Fits(w, move) && Do(w, move).players.Keys == {u}
            && Do(w, move) == w.(players := Do(w, move).players, treasures := w.treasures - {id}, version := w.version + 1)
  {
    hide Walkable, Toward;
  }

  lemma FetchTakesTheBox(w: World, u: string, d: Cell, id: string)
    requires Fetchable(w, d, id)
    ensures AllFit(w, Fetch(w.cfg, u, d, id))
    ensures Run(w, Fetch(w.cfg, u, d, id)) == w.(treasures := w.treasures - {id}, version := w.version + 3)
  {
    var join, move, leave := Join(Walker(w.cfg, u, d), d, 1), Move(u, "left", 1, Some(id)), Leave(u);
    FetcherJoins(w, u, d);
    var s1 := Do(w, join);
    assert Walkable(s1, Toward(d, "left"), u);
    FetcherMoves(s1, u, Joined(Walker(w.cfg, u, d), d, 1), id);
    var s2 := Do(s1, move);
    assert Do(s2, leave).players == map[];
    hide Do, Fits, Run, AllFit;
    RunOfOne(w, join);
    Extend(w, [join], move);
    Extend(w, [join] + [move], leave);
  }

  // Free floor to the right of the first two treasures.
  ghost predicate Beside(grid: Grid, npcCells: seq<Cell>, boxCells: seq<Cell>, d0: Cell, d1: Cell) {
    && |npcCells| == MIN_NPCS && |boxCells| == MAX_TREASURES / 2 && Spread(grid, npcCells, boxCells)
    && Floor(grid, d0) && d0 !in npcCells && boxCells[0] == Cell(d0.x - 1, d0.y)
    && Floor(grid, d1) && d1 !in npcCells && boxCells[1] == Cell(d1.x - 1, d1.y)
  }

  function TwoLeft(cfg: Config, grid: Grid, npcCells: seq<Cell>, boxCells: seq<Cell>): World {
    Populated(cfg, grid, npcCells, boxCells).(treasures := Boxes(cfg, boxCells) - {TreasureId(cfg, 0)} - {TreasureId(cfg, 1)},
                                              version := |npcCells| + |boxCells| + 6)
  }

  lemma BothFetchable(cfg: Config, grid: Grid, npcCells: seq<Cell>, boxCells: seq<Cell>, d0: Cell, d1: Cell)
    requires Beside(grid, npcCells, boxCells, d0, d1)
    ensures var w := Populated(cfg, grid, npcCells, boxCells);
            && Fetchable(w, d0, TreasureId(cfg, 0))
            && Fetchable(w.(treasures := w.treasures - {TreasureId(cfg, 0)}, version := w.version + 3), d1, TreasureId(cfg, 1))
  {
    hide TreasureId, NpcId;
    NpcsStand(cfg, npcCells);
    BoxLies(cfg, boxCells, 0);
    BoxLies(cfg, boxCells, 1);
    DifferentIds(cfg, 0, 1);
    assert forall c | c in boxCells :: c in npcCells + boxCells;
    assert boxCells[0] in boxCells && boxCells[1] in boxCells;
  }

  lemma TwoFetches(cfg: Config, grid: Grid, npcCells: seq<Cell>, boxCells: seq<Cell>, d0: Cell, d1: Cell, u: string)
    requires Beside(grid, npcCells, boxCells, d0, d1)
    ensures var w, steps := Populated(cfg, grid, npcCells, boxCells), Fetch(cfg, u, d0, TreasureId(cfg, 0)) + Fetch(cfg, u, d1, TreasureId(cfg, 1));
            AllFit(w, steps) && Run(w, steps) == TwoLeft(cfg, grid, npcCells, boxCells)
  {
    hide TreasureId, Fetch, Run, AllFit, Fetchable, Beside, Npcs, Boxes;
    BothFetchable(cfg, grid, npcCells, boxCells, d0, d1);
    var w := Populated(cfg, grid, npcCells, boxCells);
    var f0, f1 := Fetch(cfg, u, d0, TreasureId(cfg, 0)), Fetch(cfg, u, d1, TreasureId(cfg, 1));
    FetchTakesTheBox(w, u, d0, TreasureId(cfg, 0));
    FetchTakesTheBox(Run(w, f0), u, d1, TreasureId(cfg, 1));
    RunThenRun(w, f0, f1);
    FitThenFit(w, f0, f1);
  }

  // So two fetched treasures are a run from the empty world ...
  lemma TwoLeftIsReachable(cfg: Config, grid: Grid, npcCells: seq<Cell>, boxCells: seq<Cell>, d0: Cell, d1: Cell, u: string)
    requires Beside(grid, npcCells, boxCells, d0, d1)
    ensures var steps := SpawnAll(npcCells) + DropAll(boxCells)
                         + (Fetch(cfg, u, d0, TreasureId(cfg, 0)) + Fetch(cfg, u, d1, TreasureId(cfg, 1)));
            AllFit(EmptyWorld(cfg, grid), steps) && Run(EmptyWorld(cfg, grid), steps) == TwoLeft(cfg, grid, npcCells, boxCells)
  {
    hide Run, AllFit, TreasureId, Fetch;
    var fetches := Fetch(cfg, u, d0, TreasureId(cfg, 0)) + Fetch(cfg, u, d1, TreasureId(cfg, 1));
    BootstrapRuns(cfg, grid, npcCells, boxCells);
    TwoFetches(cfg, grid, npcCells, boxCells, d0, d1, u);
    RunThenRun(EmptyWorld(cfg, grid), SpawnAll(npcCells) + DropAll(boxCells), fetches);
    FitThenFit(EmptyWorld(cfg, grid), SpawnAll(npcCells) + DropAll(boxCells), fetches);
  }

  // ... and whatever free cell the first drop after the restore draws, it destroys the fourth treasure.
  lemma RestoreDestroysTheFourth(cfg: Config, grid: Grid, npcCells: seq<Cell>, boxCells: seq<Cell>, d0: Cell, d1: Cell,
                                 v: World, cp: MapCheckpoint, taken: nat, now: nat, c: Cell)
    requires Beside(grid, npcCells, boxCells, d0, d1) && v.cfg == cfg
    requires IsCapture(TwoLeft(cfg, grid, npcCells, boxCells), taken, cp)
    requires Floor(grid, c) && c !in npcCells && c !in boxCells
    ensures var r, step, id := Restored(v, cp, now), SpawnTreasure(c, 1, KIND, None), TreasureId(cfg, 3);
            && Fits(r, step)
            && r.treasures == map[TreasureId(cfg, 2) := BoxOn(cfg, 2, boxCells[2]), id := BoxOn(cfg, 3, boxCells[3])]
            && Do(r, step).treasures == map[TreasureId(cfg, 2) := BoxOn(cfg, 2, boxCells[2]), id := Treasure(id, KIND, c, 1)]
            && Overwrites(r, step)
  {
    hide TreasureId, IsCapture, TwoLeft, Boxes;
    var w, r := TwoLeft(cfg, grid, npcCells, boxCells), Restored(v, cp, now);
    var two, three := TreasureId(cfg, 2), TreasureId(cfg, 3);
    TheTwoLeft(cfg, grid, npcCells, boxCells);
    NpcsStand(cfg, npcCells);
    CaptureThenRestore(w, v, cp, taken, now);
    hide Restored;
    assert r.players == map[];
    assert boxCells[2] in boxCells && boxCells[3] in boxCells;
    DifferentIds(cfg, 2, 3);
    assert w.treasures.Keys == {two, three};
    DropOverTheFourth(r, c, boxCells[2], boxCells[3]);
  }

  lemma DropOverTheFourth(r: World, c: Cell, at2: Cell, at3: Cell)
    requires Walkable(r, c, "") && c != at2 && c != at3 && r.nextTreasure == 3
    requires r.treasures == map[TreasureId(r.cfg, 2) := BoxOn(r.cfg, 2, at2), TreasureId(r.cfg, 3) := BoxOn(r.cfg, 3, at3)]
    ensures var step, id := SpawnTreasure(c, 1, KIND, None), TreasureId(r.cfg, 3);
            && Fits(r, step)
            && Do(r, step).treasures == map[TreasureId(r.cfg, 2) := BoxOn(r.cfg, 2, at2), id := Treasure(id, KIND, c, 1)]
            && Overwrites(r, step)
  {
    assert InGrid(r.terrain, c);
    hide TreasureId, Walkable;
    var two, three := TreasureId(r.cfg, 2), TreasureId(r.cfg, 3);
    DifferentIds(r.cfg, 2, 3);
    assert r.treasures.Keys == {two, three};
    assert Do(r, SpawnTreasure(c, 1, KIND, None)).treasures[three].at == c;
  }

  lemma TheTwoLeft(cfg: Config, grid: Grid, npcCells: seq<Cell>, boxCells: seq<Cell>)
    requires |boxCells| == 4 && |npcCells| == MIN_NPCS
    ensures TwoLeft(cfg, grid, npcCells, boxCells) ==
            World(cfg, grid, map[], Npcs(cfg, npcCells),
                  map[TreasureId(cfg, 2) := BoxOn(cfg, 2, boxCells[2]), TreasureId(cfg, 3) := BoxOn(cfg, 3, boxCells[3])], 15, 5, 4)
  {
    hide TreasureId;
    forall i: nat, j: nat | i < j < 4 ensures TreasureId(cfg, i) != TreasureId(cfg, j) {
      DifferentIds(cfg, i, j);
    }
    assert boxCells == [boxCells[0], boxCells[1], boxCells[2], boxCells[3]];
    FourBoxes(cfg, boxCells[0], boxCells[1], boxCells[2], boxCells[3]);
  }

  lemma FourBoxes(cfg: Config, a: Cell, b: Cell, c: Cell, d: Cell)
    ensures Boxes(cfg, [a, b, c, d]) ==
            map[][TreasureId(cfg, 0) := BoxOn(cfg, 0, a)][TreasureId(cfg, 1) := BoxOn(cfg, 1, b)]
                 [TreasureId(cfg, 2) := BoxOn(cfg, 2, c)][TreasureId(cfg, 3) := BoxOn(cfg, 3, d)]
  {
    hide TreasureId;
    assert [a, b, c, d][..3] == [a, b, c] && [a, b, c][..2] == [a, b] && [a, b][..1] == [a] && [a][..0] == [];
    assert Boxes(cfg, []) == map[];
    assert Boxes(cfg, [a]) == map[][TreasureId(cfg, 0) := BoxOn(cfg, 0, a)];
    assert Boxes(cfg, [a, b]) == Boxes(cfg, [a])[TreasureId(cfg, 1) := BoxOn(cfg, 1, b)];
    assert Boxes(cfg, [a, b, c]) == Boxes(cfg, [a, b])[TreasureId(cfg, 2) := BoxOn(cfg, 2, c)];
  }

  // One such map: a row of twelve floor cells, no more than the best twelve that a spawn draws from.
  const ROW: Grid := ["............"]

  const ROW_NPCS := [Cell(7, 0), Cell(8, 0), Cell(9, 0), Cell(10, 0), Cell(11, 0)]
  const ROW_BOXES := [Cell(0, 0), Cell(2, 0), Cell(4, 0), Cell(5, 0)]

  lemma RowHasRoomBeside()
    ensures Beside(ROW, ROW_NPCS, ROW_BOXES, Cell(1, 0), Cell(3, 0))
  {
  }

  lemma TreasureIsLostOnTheRow(cfg: Config, u: string, v: World, cp: MapCheckpoint, taken: nat, now: nat, x: int)
    requires v.cfg == cfg && (x == 1 || x == 3 || x == 6)
    ensures var steps := SpawnAll(ROW_NPCS) + DropAll(ROW_BOXES)
                         + (Fetch(cfg, u, Cell(1, 0), TreasureId(cfg, 0)) + Fetch(cfg, u, Cell(3, 0), TreasureId(cfg, 1)));
            var w, r, drop := Run(EmptyWorld(cfg, ROW), steps), Restored(v, cp, now), SpawnTreasure(Cell(x, 0), 1, KIND, None);
            && AllFit(EmptyWorld(cfg, ROW), steps)
            && (forall i | 0 <= i < |steps| :: Drawable(Run(EmptyWorld(cfg, ROW), steps[..i]), steps[i]))
            && (IsCapture(w, taken, cp) ==> Fits(r, drop) && Drawable(r, drop) && Overwrites(r, drop))
  {
    hide Run, AllFit, Fits, Overwrites, Restored, IsCapture, Fetch, Beside, TwoLeft, Do, Drawable, FloorCells;
    var steps := SpawnAll(ROW_NPCS) + DropAll(ROW_BOXES)
                 + (Fetch(cfg, u, Cell(1, 0), TreasureId(cfg, 0)) + Fetch(cfg, u, Cell(3, 0), TreasureId(cfg, 1)));
    var w, r, drop := TwoLeft(cfg, ROW, ROW_NPCS, ROW_BOXES), Restored(v, cp, now), SpawnTreasure(Cell(x, 0), 1, KIND, None);
    RowHasRoomBeside();
    RowIsSmall();
    TwoLeftIsReachable(cfg, ROW, ROW_NPCS, ROW_BOXES, Cell(1, 0), Cell(3, 0), u);
    FewCellsDrawTheBest(EmptyWorld(cfg, ROW), steps);
    if IsCapture(w, taken, cp) {
      RestoreDestroysTheFourth(cfg, ROW, ROW_NPCS, ROW_BOXES, Cell(1, 0), Cell(3, 0), v, cp, taken, now, Cell(x, 0));
      TheTwoLeft(cfg, ROW, ROW_NPCS, ROW_BOXES);
      CaptureThenRestore(w, v, cp, taken, now);
      FewCellsAreDrawable(r, drop);
    }
  }

  lemma RowIsSmall()
    ensures |FloorCells(ROW)| <= LIMIT
  {
    var left := {Cell(0, 0), Cell(1, 0), Cell(2, 0), Cell(3, 0), Cell(4, 0), Cell(5, 0)};
    var right := {Cell(6, 0), Cell(7, 0), Cell(8, 0), Cell(9, 0), Cell(10, 0), Cell(11, 0)};
    assert |left| <= 6 && |right| <= 6;
    forall c | c in FloorCells(ROW) ensures c in left + right { assert c == Cell(c.x, 0) && 0 <= c.x < 12; }
    SubsetIsNoLarger(FloorCells(ROW), left + right);
  }

  // ---- a respawn without room ----

  // Nine floor cells: five NPCs on the right, four treasures on the left.
  const NINE: Grid := ["........."]
  const FIVE := [Cell(4, 0), Cell(5, 0), Cell(6, 0), Cell(7, 0), Cell(8, 0)]
  const FOUR := [Cell(0, 0), Cell(1, 0), Cell(2, 0), Cell(3, 0)]

  function Guest(cfg: Config, u: string, x: int): Profile {
    Profile(u, cfg.id, Cell(x, 0), if u == "d" then 10 else 50, 50, 1, 1, 0, 0, 0, 0, true)
  }

  function Arrived(u: string, x: int): Player {
    Player(u, Cell(x, 0), if u == "d" then 10 else 50, 50, 1, 1, 0, 0, 0, 0, true, 0, 1)
  }

  // Four players take the left cells, an NPC knocks the fourth down, a fifth takes its place, the fourth is due.
  function Visits(cfg: Config): seq<Step> {
    [Join(Guest(cfg, "a", 0), Cell(0, 0), 1), Join(Guest(cfg, "b", 1), Cell(1, 0), 1), Join(Guest(cfg, "c", 2), Cell(2, 0), 1),
     Join(Guest(cfg, "d", 3), Cell(3, 0), 1), NPCAttack(NpcId(cfg, 0), "d", 1), Join(Guest(cfg, "e", 3), Cell(3, 0), 1)]
  }

  function Visitors(k: nat): map<string, Player> {
    (if k > 0 then map["a" := Arrived("a", 0)] else map[])
    + (if k > 1 then map["b" := Arrived("b", 1)] else map[])
    + (if k > 2 then map["c" := Arrived("c", 2)] else map[])
    + (if k > 4 then map["d" := KnockedDown(Arrived("d", 3), 1)] else if k > 3 then map["d" := Arrived("d", 3)] else map[])
    + (if k > 5 then map["e" := Arrived("e", 3)] else map[])
  }

  function Along(cfg: Config, k: nat): World {
    World(cfg, NINE, Visitors(k), Npcs(cfg, FIVE), Boxes(cfg, FOUR), 9 + k, 5, 4)
  }

  lemma NpcsOnTheRight(cfg: Config, x: int)
    requires 0 <= x < 4
    ensures forall n | n in Npcs(cfg, FIVE) :: Npcs(cfg, FIVE)[n].at != Cell(x, 0)
  {
    NpcsStand(cfg, FIVE);
  }

  lemma TheirCellIsFree(k: nat, u: string)
    requires (k < 4 || k == 5) && u in Visitors(k) && Visitors(k)[u].alive
    ensures Visitors(k)[u].at != Cell(if k < 4 then k else 3, 0)
  {
  }

  lemma ComesToItsCell(w: World, p: Profile)
    requires p.lastMap == w.cfg.id && Walkable(w, p.at, "")
    ensures Fits(w, Join(p, p.at, 1))
    ensures Do(w, Join(p, p.at, 1)) == w.(players := w.players[p.username := Joined(p, p.at, 1)], version := w.version + 1)
  {
  }

  lemma OneMoreVisitor(cfg: Config, k: nat)
    requires k < 4 || k == 5
    ensures var p := Guest(cfg, ["a", "b", "c", "d", "", "e"][k], if k < 4 then k else 3);
            Visits(cfg)[k] == Join(p, p.at, 1) && Visitors(k + 1) == Visitors(k)[p.username := Joined(p, p.at, 1)]
  {
  }

  lemma VisitorComes(cfg: Config, k: nat)
    requires k < 4 || k == 5
    ensures Fits(Along(cfg, k), Visits(cfg)[k]) && Do(Along(cfg, k), Visits(cfg)[k]) == Along(cfg, k + 1)
    ensures HasRoom(Along(cfg, k), Visits(cfg)[k])
  {
    hide Npcs, Boxes, Do, Fits, Visitors, Joined, Visits;
    var w, p := Along(cfg, k), Guest(cfg, ["a", "b", "c", "d", "", "e"][k], if k < 4 then k else 3);
    OneMoreVisitor(cfg, k);
    NpcsOnTheRight(cfg, p.at.x);
    forall u | u in w.players && w.players[u].alive ensures w.players[u].at != p.at { TheirCellIsFree(k, u); }
    assert Walkable(w, p.at, "");
    ComesToItsCell(w, p);
  }

  lemma OnlyTheFourthIsNear(u: string)
    requires u in Visitors(4) && Distance(Cell(4, 0), Visitors(4)[u].at) <= 1
    ensures u == "d"
  {
  }

  lemma NpcKnocksDown(w: World, n: string, u: string)
    requires n in w.npcs && w.npcs[n].alive && PlayerTarget(w, w.npcs[n].at, 1, None, Some(u))
    requires w.players[u].hp <= w.npcs[n].attack && w.players[u].lastUpdate == 1
    ensures Fits(w, NPCAttack(n, u, 1))
    ensures Do(w, NPCAttack(n, u, 1)) == w.(players := w.players[u := KnockedDown(w.players[u], 1)], version := w.version + 1)
  {
  }

  lemma TheFourthIsDown()
    ensures "d" in Visitors(4) && Visitors(4)["d"] == Arrived("d", 3)
    ensures Visitors(5) == Visitors(4)["d" := KnockedDown(Arrived("d", 3), 1)]
  {
    assert Visitors(4)["d"] == Arrived("d", 3);
  }

  lemma TheFourthIsTarget(cfg: Config)
    ensures PlayerTarget(Along(cfg, 4), Cell(4, 0), 1, None, Some("d"))
  {
    hide Npcs, Boxes, Visitors;
    TheFourthIsDown();
    forall u | PlayerInRange(Along(cfg, 4), Cell(4, 0), 1, None, u) ensures u == "d" { OnlyTheFourthIsNear(u); }
  }

  lemma TheFourthFalls(cfg: Config)
    ensures Fits(Along(cfg, 4), Visits(cfg)[4]) && Do(Along(cfg, 4), Visits(cfg)[4]) == Along(cfg, 5)
  {
    hide Npcs, Boxes, NpcId, Do, Fits, Visitors, PlayerTarget;
    NpcStands(cfg, FIVE, 0);
    TheFourthIsDown();
    TheFourthIsTarget(cfg);
    NpcKnocksDown(Along(cfg, 4), NpcId(cfg, 0), "d");
  }

  lemma {:induction false} VisitsRun(cfg: Config, k: nat)
    requires k <= 6
    ensures AllFit(Along(cfg, 0), Visits(cfg)[..k]) && Run(Along(cfg, 0), Visits(cfg)[..k]) == Along(cfg, k)
    ensures Occupancy(Along(cfg, 0)) ==> Occupancy(Along(cfg, k))
  {
    hide Do, Fits, AllFit, Along, Occupancy, Walkable;
    if k == 0 {
      OptionalRun(Along(cfg, 0), None);
    } else {
      VisitsRun(cfg, k - 1);
      if k == 5 { TheFourthFalls(cfg); } else { VisitorComes(cfg, k - 1); }
      if Occupancy(Along(cfg, 0)) { StepKeepsOccupancyIff(Along(cfg, k - 1), Visits(cfg)[k - 1]); }
      assert Visits(cfg)[..k] == Visits(cfg)[..k - 1] + [Visits(cfg)[k - 1]];
      Extend(Along(cfg, 0), Visits(cfg)[..k - 1], Visits(cfg)[k - 1]);
    }
  }

  lemma NineHasRoom()
    ensures Spread(NINE, FIVE, FOUR)
  {
  }

  lemma VisitsReach(cfg: Config)
    ensures var steps := SpawnAll(FIVE) + DropAll(FOUR) + Visits(cfg);
            && AllFit(EmptyWorld(cfg, NINE), steps) && Run(EmptyWorld(cfg, NINE), steps) == Along(cfg, 6)
    ensures Occupancy(Along(cfg, 6))
  {
    var e := EmptyWorld(cfg, NINE);
    assert Along(cfg, 0) == Populated(cfg, NINE, FIVE, FOUR);
    hide Run, AllFit, Occupancy, Along, Populated, Visits, Spread;
    NineHasRoom();
    BootstrapRuns(cfg, NINE, FIVE, FOUR);
    PopulatedHasOccupancy(cfg, NINE, FIVE, FOUR);
    VisitsRun(cfg, 6);
    assert Visits(cfg)[..6] == Visits(cfg) by { SixVisits(cfg); }
    RunThenRun(e, SpawnAll(FIVE) + DropAll(FOUR), Visits(cfg));
    FitThenFit(e, SpawnAll(FIVE) + DropAll(FOUR), Visits(cfg));
  }

  lemma SixVisits(cfg: Config)
    ensures |Visits(cfg)| == 6
  {
  }

  lemma FullRow(cfg: Config)
    ensures Crowded(Along(cfg, 6), "d") && Along(cfg, 6).cfg == cfg && {"a", "d"} <= Along(cfg, 6).players.Keys
    ensures var a, d := Along(cfg, 6).players["a"], Along(cfg, 6).players["d"];
            a.alive && a.at == Cell(0, 0) && Due(d, 5)
  {
    hide Npcs, Boxes, NpcId;
    var w := Along(cfg, 6);
    forall c ensures !Walkable(w, c, "d") {
      if Floor(NINE, c) {
        assert c.y == 0 && 0 <= c.x < 9;
        if c.x < 4 {
          var u := ["a", "b", "c", "e"][c.x];
          assert u in w.players && w.players[u].username != "d" && w.players[u].alive && w.players[u].at == c;
        } else {
          NpcStands(cfg, FIVE, c.x - 4);
        }
      }
    }
  }

  lemma RespawnsOnTheFirst(w: World, u: string, v: string)
    requires Occupancy(w) && Crowded(w, u) && u in w.players && Due(w.players[u], 5)
    requires v in w.players && w.players[v].alive && w.players[v].at == w.cfg.spawn
    ensures var t := Do(w, Refresh(u, 5, w.cfg.spawn));
            && Fits(w, Refresh(u, 5, w.cfg.spawn)) && !Occupancy(t)
            && {v, u} <= t.players.Keys && v != u
            && t.players[v].alive && t.players[v].at == t.players[u].at && t.players[u].alive
  {
    hide Occupancy, Walkable;
    NamesMatch(w);
    assert SafePosition(w, w.cfg.spawn, u, w.cfg.spawn);
    RespawnKeepsOccupancyIffRoom(w, u, 5, w.cfg.spawn);
  }

  // So a world that NewWorld made comes to a due respawn without room, and the player respawns on another one.
  lemma RespawnCollisionIsReachable(cfg: Config)
    requires cfg.spawn == Cell(0, 0)
    ensures var steps := SpawnAll(FIVE) + DropAll(FOUR) + Visits(cfg);
            var w, respawn := Run(EmptyWorld(cfg, NINE), steps), Refresh("d", 5, Cell(0, 0));
            var t := Do(w, respawn);
            && AllFit(EmptyWorld(cfg, NINE), steps) && Fits(w, respawn)
            && Occupancy(w) && !Occupancy(t)
            && {"a", "d"} <= t.players.Keys
            && t.players["a"].alive && t.players["a"].at == t.players["d"].at && t.players["d"].alive
  {
    hide Run, AllFit, Do, Fits, Occupancy, Along;
    VisitsReach(cfg);
    FullRow(cfg);
    RespawnsOnTheFirst(Along(cfg, 6), "d", "a");
  }
}
