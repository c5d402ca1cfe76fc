/** Treasure after a restore: when the restarted id counter is safe, and how it destroys treasure when it is not. */
module WorldRestore {
  import opened Text
  import opened WorldData
  import opened Worlds
  import opened WorldTreasure
  import opened WorldRounds
  import opened WorldCheckpoint

  // No treasure carries a number above the number of treasures.
  ghost predicate CounterCovers(w: World) {
    forall n: nat | TreasureId(w.cfg, n) in w.treasures :: n <= |w.treasures|
  }

  // The step puts another treasure in the place of one.
  ghost predicate Overwrites(w: World, step: Step) {
    exists id | id in w.treasures && id in Do(w, step).treasures :: Do(w, step).treasures[id].at != w.treasures[id].at
  }

  ghost predicate NeverOverwrites(w: World) {
    forall steps, step | AllFit(w, steps) && Fits(Run(w, steps), step) :: !Overwrites(Run(w, steps), step)
  }

  lemma RestoredTreasures(w: World, v: World, cp: MapCheckpoint, taken: nat, now: nat)
    requires IsCapture(w, taken, cp) && v.cfg == w.cfg && w.version != 0
    ensures var r := Restored(v, cp, now);
            r.cfg == w.cfg && r.treasures == w.treasures && r.nextTreasure == |w.treasures| + 1
  {
    hide IsCapture;
    CaptureThenRestore(w, v, cp, taken, now);
  }

  // The ground invariant survives a restore exactly when the restarted counter is above every number in use.
  lemma RestoredGroundIff(w: World, v: World, cp: MapCheckpoint, taken: nat, now: nat)
    requires IsCapture(w, taken, cp) && v.cfg == w.cfg && w.version != 0 && Ground(w)
    ensures Ground(Restored(v, cp, now)) <==> CounterCovers(w)
  {
    hide TreasureId, IsCapture;
    RestoredTreasures(w, v, cp, taken, now);
    var r := Restored(v, cp, now);
    if CounterCovers(w) {
      forall id | id in r.treasures ensures r.treasures[id].id == id && Numbered(r, id) {
        var n: nat :| n < w.nextTreasure && id == TreasureId(w.cfg, n);
        assert n < r.nextTreasure;
      }
    }
    if Ground(r) {
      forall n: nat | TreasureId(w.cfg, n) in w.treasures ensures n <= |w.treasures| {
        assert Numbered(r, TreasureId(w.cfg, n));
        var k: nat :| k < r.nextTreasure && TreasureId(w.cfg, n) == TreasureId(w.cfg, k);
        TreasureIdInjective(w.cfg, n, k);
      }
    }
  }

  // ---- the safe side ----

  lemma DropOverwritesNothing(w: World, c: Cell, value: int, kind: string, found: Option<string>, id: string)
    requires Ground(w) && Found(w, c, found) && id in w.treasures
    ensures id in Drop(w, c, value, kind, found).treasures && Drop(w, c, value, kind, found).treasures[id].at == w.treasures[id].at
  {
    NextIdIsFree(w);
  }

  lemma StepOverwritesNothing(w: World, step: Step)
    requires Ground(w)
    ensures !Overwrites(w, step)
  {
    hide Ground, Walkable, PlayerTarget, SafePosition, FirstFree, Found, Drop;
    forall id | id in w.treasures && id in Do(w, step).treasures ensures Do(w, step).treasures[id].at == w.treasures[id].at {
      match step
      case AttackNPC(u, target, _, value, kind, found) =>
        if u in w.players && target in w.npcs && Found(w, w.npcs[target].at, found) {
          DropOverwritesNothing(w, w.npcs[target].at, value, kind, found, id);
        }
      case SpawnTreasure(c, value, kind, found) =>
        if Found(w, c, found) { DropOverwritesNothing(w, c, value, kind, found, id); }
      case _ =>
    }
  }

  lemma GroundNeverOverwrites(w: World)
    requires Ground(w)
    ensures NeverOverwrites(w)
  {
    hide Ground, Do, Fits, Overwrites;
    forall steps, step | AllFit(w, steps) && Fits(Run(w, steps), step) ensures !Overwrites(Run(w, steps), step) {
      TreasureOverRuns(w, steps);
      StepOverwritesNothing(Run(w, steps), step);
    }
  }

  // A covered restore keeps the books over every later run.
  lemma CoveredRestoreKeepsTheLedger(w: World, v: World, cp: MapCheckpoint, taken: nat, now: nat, steps: seq<Step>)
    requires IsCapture(w, taken, cp) && v.cfg == w.cfg && w.version != 0 && Ground(w) && CounterCovers(w)
    ensures var r := Restored(v, cp, now);
            Ground(Run(r, steps)) && Total(Run(r, steps)) == Total(r) + Ledger(r, steps)
  {
    hide Ground, IsCapture, CounterCovers, Do;
    RestoredGroundIff(w, v, cp, taken, now);
    TreasureOverRuns(Restored(v, cp, now), steps);
  }

  // ---- the unsafe side ----

  ghost predicate FreeCell(w: World, c: Cell) {
    Walkable(w, c, "") && NoTreasureAt(w, c)
  }

  // Room for one more player u who walks between two free cells, and for one more treasure.
  ghost predicate RoomToWalk(w: World, c: Cell, d: Cell, u: string) {
    && FreeCell(w, c) && FreeCell(w, d) && c == Cell(d.x + 1, d.y)
    && FewTreasures(w) && u != "" && u !in w.players && forall v | v in w.players :: w.players[v].username != ""
  }

  const KIND := "野外宝箱"

  function Walker(cfg: Config, u: string, d: Cell): Profile {
    Profile(u, cfg.id, d, 50, 50, 1, 1, 0, 0, 0, 0, true)
  }

  // The world with the walker in it, whatever it has picked up, and the counter at n.
  ghost predicate Walking(w: World, s: World, u: string, at: Cell, n: nat) {
    && u in s.players && s.players[u].username == u && s.players[u].alive && s.players[u].at == at
    && s == w.(players := w.players[u := s.players[u]], treasures := s.treasures, version := s.version, nextTreasure := n)
  }

  lemma WalkerJoins(w: World, c: Cell, d: Cell, u: string)
    requires RoomToWalk(w, c, d, u)
    ensures var step := Join(Walker(w.cfg, u, d), d, 1);
            && Fits(w, step)
            && Walking(w, Do(w, step), u, d, w.nextTreasure) && Do(w, step).treasures == w.treasures
  {
  }

  // A drop on the one cell while the walker is on the other: fresh, or over a used number.
  lemma DropBeside(w: World, s: World, c: Cell, d: Cell, u: string, n: nat)
    requires RoomToWalk(w, c, d, u) && Walking(w, s, u, d, n) && s.treasures == w.treasures
    ensures var step, id := SpawnTreasure(c, 1, KIND, None), TreasureId(w.cfg, n);
            && Fits(s, step)
            && Walking(w, Do(s, step), u, d, n + 1)
            && Do(s, step).treasures == w.treasures[id := Treasure(id, KIND, c, 1)]
  {
    hide TreasureId;
    assert c != d;
  }

  lemma WalkerPicksUp(w: World, s: World, c: Cell, d: Cell, u: string, n: nat, id: string)
    requires RoomToWalk(w, c, d, u) && Walking(w, s, u, d, n)
    requires id !in w.treasures && s.treasures == w.treasures[id := Treasure(id, KIND, c, 1)]
    ensures var step := Move(u, "right", 1, Some(id));
            && Fits(s, step)
            && Walking(w, Do(s, step), u, c, n) && Do(s, step).treasures == w.treasures
  {
    assert Walkable(s, c, u);
    assert w.treasures[id := Treasure(id, KIND, c, 1)] - {id} == w.treasures;
  }

  lemma WalkerReturns(w: World, s: World, c: Cell, d: Cell, u: string, n: nat)
    requires RoomToWalk(w, c, d, u) && Walking(w, s, u, c, n) && s.treasures == w.treasures
    ensures var step := Move(u, "left", 1, None);
            && Fits(s, step)
            && Walking(w, Do(s, step), u, d, n) && Do(s, step).treasures == w.treasures
  {
    assert Walkable(s, d, u);
  }

  // Drop and pick up, again and again, as far as the numbers are unused: the counter moves on and nothing else.
  lemma {:induction false} WalkTo(w: World, c: Cell, d: Cell, u: string, n: nat) returns (steps: seq<Step>)
    requires RoomToWalk(w, c, d, u) && w.nextTreasure <= n
    requires forall k: nat | w.nextTreasure <= k < n :: TreasureId(w.cfg, k) !in w.treasures
    ensures AllFit(w, steps) && Walking(w, Run(w, steps), u, d, n) && Run(w, steps).treasures == w.treasures
  {
    hide Do, Fits, RoomToWalk, Walking, TreasureId, Run, AllFit;
    if n == w.nextTreasure {
      steps := [Join(Walker(w.cfg, u, d), d, 1)];
      WalkerJoins(w, c, d, u);
      RunOfOne(w, steps[0]);
    } else {
      var before := WalkTo(w, c, d, u, n - 1);
      var id := TreasureId(w.cfg, n - 1);
      var s0 := Run(w, before);
      DropBeside(w, s0, c, d, u, n - 1);
      Extend(w, before, SpawnTreasure(c, 1, KIND, None));
      var dropped := before + [SpawnTreasure(c, 1, KIND, None)];
      WalkerPicksUp(w, Run(w, dropped), c, d, u, n, id);
      Extend(w, dropped, Move(u, "right", 1, Some(id)));
      var picked := dropped + [Move(u, "right", 1, Some(id))];
      WalkerReturns(w, Run(w, picked), c, d, u, n);
      Extend(w, picked, Move(u, "left", 1, None));
      steps := picked + [Move(u, "left", 1, None)];
    }
  }

  lemma {:induction false} LeastUsedNumber(w: World, from: nat, n: nat) returns (k: nat)
    requires from <= n && TreasureId(w.cfg, n) in w.treasures
    ensures from <= k <= n && TreasureId(w.cfg, k) in w.treasures
    ensures forall j: nat | from <= j < k :: TreasureId(w.cfg, j) !in w.treasures
    decreases n - from
  {
    hide TreasureId;
    if TreasureId(w.cfg, from) in w.treasures { k := from; } else { k := LeastUsedNumber(w, from + 1, n); }
  }

  // With a used number ahead of the counter, one more player on two free cells reaches it, and the next drop
  // destroys its treasure.
  lemma UsedNumberIsOverwritten(w: World, n: nat, c: Cell, d: Cell, u: string)
    requires w.nextTreasure <= n && TreasureId(w.cfg, n) in w.treasures && RoomToWalk(w, c, d, u)
    ensures !NeverOverwrites(w)
  {
    hide Do, Fits, TreasureId, Run, AllFit;
    var k := LeastUsedNumber(w, w.nextTreasure, n);
    var steps := WalkTo(w, c, d, u, k);
    var s, step, id := Run(w, steps), SpawnTreasure(c, 1, KIND, None), TreasureId(w.cfg, k);
    DropBeside(w, s, c, d, u, k);
    assert Do(s, step).treasures[id].at == c && s.treasures[id] == w.treasures[id];
    assert Overwrites(s, step);
  }

  // A restored world with room to walk destroys no treasure in any later run exactly when the captured numbers were
  // covered.
  lemma RestoredNeverOverwritesIff(w: World, v: World, cp: MapCheckpoint, taken: nat, now: nat, c: Cell, d: Cell, u: string)
    requires IsCapture(w, taken, cp) && v.cfg == w.cfg && w.version != 0 && Ground(w)
    requires RoomToWalk(Restored(v, cp, now), c, d, u)
    ensures NeverOverwrites(Restored(v, cp, now)) <==> CounterCovers(w)
  {
    hide IsCapture, RoomToWalk, NeverOverwrites, TreasureId;
    var r := Restored(v, cp, now);
    RestoredTreasures(w, v, cp, taken, now);
    RestoredGroundIff(w, v, cp, taken, now);
    if CounterCovers(w) {
      GroundNeverOverwrites(r);
    } else {
      var n: nat :| TreasureId(w.cfg, n) in w.treasures && n > |w.treasures|;
      UsedNumberIsOverwritten(r, n, c, d, u);
    }
  }

  // What an overwriting drop costs: the next one on a free cell keeps the number of treasures, and the value of the
  // one in its place is gone, exactly when the restarted number is in use.
  lemma DropAfterRestoreOverwritesIff(w: World, v: World, cp: MapCheckpoint, taken: nat, now: nat, c: Cell, value: int, kind: string)
    requires IsCapture(w, taken, cp) && v.cfg == w.cfg && w.version != 0
    requires NoTreasureAt(w, c) && InGrid(Restored(v, cp, now).terrain, c)
    ensures var after := Drop(Restored(v, cp, now), c, value, kind, None);
            var id := TreasureId(w.cfg, |w.treasures| + 1);
            && (id in w.treasures <==> after.treasures.Keys == w.treasures.Keys)
            && Sum(Values(after.treasures)) ==
               Sum(Values(w.treasures)) + value - if id in w.treasures then w.treasures[id].value else 0
  {
    hide IsCapture, TreasureId;
    RestoredTreasures(w, v, cp, taken, now);
    var id := TreasureId(w.cfg, |w.treasures| + 1);
    TreasureUpdated(w.treasures, id, Treasure(id, kind, c, value));
  }
}
