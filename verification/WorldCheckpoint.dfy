/** Capturing a world and restoring it into another world of the same map. */
module WorldCheckpoint {
  import opened Text
  import opened WorldData
  import opened Worlds
  import opened WorldInvariants

  // Everything is filed under its own name or id.
  ghost predicate Keyed(w: World) {
    && (forall u | u in w.players :: w.players[u].username == u)
    && (forall n | n in w.npcs :: w.npcs[n].id == n)
    && (forall id | id in w.treasures :: w.treasures[id].id == id)
  }

  lemma StepKeepsKeyed(w: World, step: Step)
    requires Keyed(w)
    ensures Keyed(Do(w, step))
  {
    hide Walkable, SafePosition, Found, FirstFree;
  }

  lemma {:induction false} RunKeepsKeyed(w: World, steps: seq<Step>)
    requires Keyed(w)
    ensures Keyed(Run(w, steps))
  {
    hide Keyed, Do;
    if steps != [] {
      RunKeepsKeyed(w, steps[..|steps| - 1]);
      StepKeepsKeyed(Run(w, steps[..|steps| - 1]), steps[|steps| - 1]);
    }
  }

  function RespawnIn(p: Player, now: nat): int {
    if p.alive || p.respawnAt == 0 then 0
    else if p.respawnAt - now < 1 then 1 else p.respawnAt - now
  }

  function ViewOf(p: Player, now: nat): PlayerView {
    PlayerView(p.username, p.at, p.hp, p.maxHp, p.attack, p.potions, p.treasures, p.kills, p.deaths, p.victories,
               p.alive, RespawnIn(p, now), p.lastUpdate)
  }

  function FromView(v: PlayerView, now: nat): Player {
    Player(v.username, v.at, v.hp, v.maxHp, v.attack, ValueOr(v.potions, MAX_POTIONS), v.treasures, v.kills, v.deaths,
           v.victories, v.alive, 0, now)
  }

  // `list` holds exactly the values of m, each once, in the order of their ids.
  ghost predicate Lists<T>(list: seq<T>, m: map<string, T>, id: T -> string) {
    SortedBy(list, id) && Distinct(list, id) && Indexed(list, m, id)
  }

  ghost predicate Indexed<T>(list: seq<T>, m: map<string, T>, id: T -> string) {
    && (forall x | x in list :: id(x) in m && m[id(x)] == x)
    && (forall k | k in m :: m[k] in list && id(m[k]) == k)
  }

  function Views(players: map<string, Player>, now: nat): map<string, PlayerView> {
    map u | u in players :: ViewOf(players[u], now)
  }

  ghost predicate IsCapture(w: World, now: nat, cp: MapCheckpoint) {
    && cp.mapId == w.cfg.id && cp.version == w.version && cp.terrain == w.terrain
    && Lists(cp.players, Views(w.players, now), UserOf)
    && Lists(cp.npcs, w.npcs, NpcOf)
    && Lists(cp.treasures, w.treasures, TreasureOf)
  }

  function UserOf(v: PlayerView): string { v.username }
  function NpcOf(n: NPC): string { n.id }
  function TreasureOf(t: Treasure): string { t.id }

  // Later entries replace earlier ones of the same id.
  function ById<T>(list: seq<T>, id: T -> string): map<string, T> {
    if list == [] then map[]
    else
      var last := list[|list| - 1];
      ById(list[..|list| - 1], id)[id(last) := last]
  }

  function PlayersFrom(views: map<string, PlayerView>, now: nat): map<string, Player> {
    map u | u in views :: FromView(views[u], now)
  }

  function Restored(w: World, cp: MapCheckpoint, now: nat): World {
    if cp.mapId != w.cfg.id || cp.version == 0 then w
    else
      var npcs, treasures := ById(cp.npcs, NpcOf), ById(cp.treasures, TreasureOf);
      World(w.cfg, if cp.terrain != [] then cp.terrain else w.terrain,
            PlayersFrom(ById(cp.players, UserOf), now), npcs, treasures, cp.version, |npcs| + 1, |treasures| + 1)
  }

  lemma {:induction false} ByIdHolds<T>(list: seq<T>, id: T -> string)
    requires Distinct(list, id)
    ensures forall k :: k in ById(list, id) <==> exists x :: x in list && id(x) == k
    ensures forall x | x in list :: ById(list, id)[id(x)] == x
  {
    if list != [] {
      var before, last := list[..|list| - 1], list[|list| - 1];
      ByIdHolds(before, id);
      assert list == before + [last];
      assert last in list && forall x | x in before :: x in list;
    }
  }

  lemma RebuiltFromListing<T>(list: seq<T>, m: map<string, T>, id: T -> string)
    requires Lists(list, m, id)
    ensures ById(list, id) == m
  {
    ByIdHolds(list, id);
    var rebuilt := ById(list, id);
    forall k | k in m ensures k in rebuilt && rebuilt[k] == m[k] { assert m[k] in list; }
    forall k | k in rebuilt ensures k in m {
      var x :| x in list && id(x) == k;
    }
  }

  // What survives a capture and restore of a player.
  function Carried(p: Player, now: nat): Player {
    p.(potions := ValueOr(p.potions, MAX_POTIONS), respawnAt := 0, lastUpdate := now)
  }

  // Restoring a capture gives back terrain, version, NPCs, treasures and every player, except that zero potions
  // become three and the respawn and update times are lost.
  lemma CaptureThenRestore(w: World, v: World, cp: MapCheckpoint, taken: nat, now: nat)
    requires IsCapture(w, taken, cp) && v.cfg == w.cfg && w.version != 0
    ensures Restored(v, cp, now) ==
            World(w.cfg, if w.terrain != [] then w.terrain else v.terrain,
                  map u | u in w.players :: Carried(w.players[u], now),
                  w.npcs, w.treasures, w.version, |w.npcs| + 1, |w.treasures| + 1)
  {
    hide Lists;
    RebuiltFromListing(cp.players, Views(w.players, taken), UserOf);
    RebuiltFromListing(cp.npcs, w.npcs, NpcOf);
    RebuiltFromListing(cp.treasures, w.treasures, TreasureOf);
  }

  // Field by field: who comes back with what.
  lemma RestoredPlayerIs(w: World, v: World, cp: MapCheckpoint, taken: nat, now: nat, u: string)
    requires IsCapture(w, taken, cp) && v.cfg == w.cfg && w.version != 0
    ensures var r := Restored(v, cp, now);
            && (u in r.players <==> u in w.players)
            && (u in w.players ==>
                  var p, q := w.players[u], r.players[u];
                  && q.username == p.username && q.at == p.at && q.hp == p.hp && q.maxHp == p.maxHp && q.attack == p.attack
                  && q.treasures == p.treasures && q.kills == p.kills && q.deaths == p.deaths && q.victories == p.victories
                  && q.alive == p.alive && q.potions == (if p.potions == 0 then 3 else p.potions)
                  && q.respawnAt == 0 && q.lastUpdate == now)
  {
    CaptureThenRestore(w, v, cp, taken, now);
  }

  // A capture lists everything once, in the order of names and ids.
  lemma CaptureIsSorted(w: World, cp: MapCheckpoint, taken: nat, i: nat, j: nat)
    requires IsCapture(w, taken, cp) && i < j
    ensures j < |cp.players| ==> Le(cp.players[i].username, cp.players[j].username) && cp.players[i].username != cp.players[j].username
    ensures j < |cp.npcs| ==> Le(cp.npcs[i].id, cp.npcs[j].id) && cp.npcs[i].id != cp.npcs[j].id
    ensures j < |cp.treasures| ==> Le(cp.treasures[i].id, cp.treasures[j].id) && cp.treasures[i].id != cp.treasures[j].id
  {
    if j < |cp.players| { assert Le(UserOf(cp.players[i]), UserOf(cp.players[j])) && UserOf(cp.players[i]) != UserOf(cp.players[j]); }
    if j < |cp.npcs| { assert Le(NpcOf(cp.npcs[i]), NpcOf(cp.npcs[j])) && NpcOf(cp.npcs[i]) != NpcOf(cp.npcs[j]); }
    if j < |cp.treasures| {
      assert Le(TreasureOf(cp.treasures[i]), TreasureOf(cp.treasures[j])) && TreasureOf(cp.treasures[i]) != TreasureOf(cp.treasures[j]);
    }
  }

  // What a capture says of a player that is down: at least a second to wait, while it has a respawn time.
  lemma CapturedWaitIs(w: World, cp: MapCheckpoint, taken: nat, view: PlayerView)
    requires IsCapture(w, taken, cp) && view in cp.players
    ensures view.username in w.players
    ensures var p := w.players[view.username];
            && (view.respawnIn == 0 <==> p.alive || p.respawnAt == 0)
            && (!p.alive && p.respawnAt != 0 ==>
                  (p.respawnAt > taken ==> taken + view.respawnIn == p.respawnAt) && (p.respawnAt <= taken ==> view.respawnIn == 1))
            && view.at == p.at && view.hp == p.hp && view.alive == p.alive && view.potions == p.potions && view.lastUpdate == p.lastUpdate
  {
    assert Views(w.players, taken)[UserOf(view)] == view;
  }

  // A second round changes nothing but the update times: nobody in a restored world is due to respawn, so its
  // capture touches no player.
  lemma SecondRoundChangesNothing(w: World, cp: MapCheckpoint, taken: nat, now: nat, cp2: MapCheckpoint, taken2: nat, now2: nat)
    requires IsCapture(w, taken, cp) && w.version != 0 && w.terrain != []
    requires IsCapture(Restored(w, cp, now), taken2, cp2)
    ensures var w1, w2 := Restored(w, cp, now), Restored(w, cp2, now2);
            && (forall u | u in w1.players :: !Due(w1.players[u], taken2))
            && w2 == w1.(players := map u | u in w1.players :: w1.players[u].(lastUpdate := now2))
  {
    hide IsCapture;
    CaptureThenRestore(w, w, cp, taken, now);
    CaptureThenRestore(Restored(w, cp, now), w, cp2, taken2, now2);
  }

  lemma RestoredIsKeyed(w: World, cp: MapCheckpoint, now: nat)
    ensures Keyed(w) ==> Keyed(Restored(w, cp, now))
  {
    ByIdIsKeyed(cp.players, UserOf);
    ByIdIsKeyed(cp.npcs, NpcOf);
    ByIdIsKeyed(cp.treasures, TreasureOf);
  }

  lemma {:induction false} ByIdIsKeyed<T>(list: seq<T>, id: T -> string)
    ensures forall k | k in ById(list, id) :: id(ById(list, id)[k]) == k
  {
    if list != [] { ByIdIsKeyed(list[..|list| - 1], id); }
  }

  lemma RestoreKeepsOccupancy(w: World, v: World, cp: MapCheckpoint, taken: nat, now: nat)
    requires Occupancy(w) && IsCapture(w, taken, cp) && v.cfg == w.cfg && w.version != 0 && w.terrain != []
    ensures Occupancy(Restored(v, cp, now))
  {
    CaptureThenRestore(w, v, cp, taken, now);
  }
}
