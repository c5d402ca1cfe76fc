/** Players that are down: who comes back, and who stays down for good. */
module WorldDowned {
  import opened WorldData
  import opened Worlds
  import opened WorldCheckpoint
  import opened WorldRounds

  ghost predicate DownIn(w: World, u: string) {
    u in w.players && !w.players[u].alive
  }

  ghost predicate DownForGood(w: World, u: string) {
    DownIn(w, u) && w.players[u].username == u && w.players[u].respawnAt == 0
  }

  predicate Rejoins(step: Step, u: string) {
    (step.Join? && step.profile.username == u) || (step.Leave? && step.user == u)
  }

  predicate NoRejoin(steps: seq<Step>, u: string) {
    forall s | s in steps :: !Rejoins(s, u)
  }

  // Whatever happens in the world, as long as the player itself does not leave or join.
  ghost predicate StaysDown(w: World, u: string) {
    forall steps | AllFit(w, steps) && NoRejoin(steps, u) :: DownIn(Run(w, steps), u)
  }

  lemma {:induction false} DownWithoutTimerStaysDown(w: World, steps: seq<Step>, u: string)
    requires DownForGood(w, u) && NoRejoin(steps, u)
    ensures DownForGood(Run(w, steps), u)
  {
    hide Do;
    if steps != [] {
      var last := |steps| - 1;
      assert steps[last] in steps && forall s | s in steps[..last] :: s in steps;
      DownWithoutTimerStaysDown(w, steps[..last], u);
      StepKeepsDown(Run(w, steps[..last]), steps[last], u);
    }
  }

  lemma StepKeepsDown(w: World, step: Step, u: string)
    requires DownForGood(w, u) && !Rejoins(step, u)
    ensures DownForGood(Do(w, step), u)
  {
    hide Walkable, NpcTarget, SafePosition, Found, FirstFree;
  }

  lemma DueRefreshRevives(w: World, u: string, now: nat, c: Cell)
    requires DownIn(w, u) && w.players[u].respawnAt != 0 && now >= w.players[u].respawnAt
    ensures Fits(w, Refresh(u, now, c)) ==> Do(w, Refresh(u, now, c)).players[u].alive
  {
  }

  // A cell the placement may choose always exists.
  lemma SomeSafePosition(w: World, preferred: Cell, ignore: string) returns (c: Cell)
    ensures SafePosition(w, preferred, ignore, c)
  {
    if Walkable(w, preferred, ignore) { c := preferred; }
    else if Crowded(w, ignore) { c := w.cfg.spawn; }
    else { c :| Walkable(w, c, ignore); }
  }

  // A down player stays down over all runs exactly when it has no respawn time.
  lemma StaysDownIff(w: World, u: string)
    requires DownIn(w, u) && w.players[u].username == u
    ensures StaysDown(w, u) <==> w.players[u].respawnAt == 0
  {
    hide Do, SafePosition;
    if w.players[u].respawnAt == 0 {
      forall steps | AllFit(w, steps) && NoRejoin(steps, u) ensures DownIn(Run(w, steps), u) {
        DownWithoutTimerStaysDown(w, steps, u);
      }
    } else {
      var now := w.players[u].respawnAt;
      var c := SomeSafePosition(w, w.cfg.spawn, u);
      var steps := [Refresh(u, now, c)];
      RunOfOne(w, steps[0]);
      DueRefreshRevives(w, u, now, c);
      assert AllFit(w, steps) && NoRejoin(steps, u) && !DownIn(Run(w, steps), u);
    }
  }

  lemma LivingPlayersAreNotDown(w: World, u: string)
    requires u in w.players && w.players[u].alive
    ensures !StaysDown(w, u)
  {
    assert AllFit(w, []) && NoRejoin([], u) && Run(w, []) == w;
  }

  // A player that joins stays down exactly when its profile is down with hit points left, where zero hit points
  // count as the full number.
  lemma JoinedStaysDownIff(w: World, p: Profile, c: Cell, now: nat)
    requires Fits(w, Join(p, c, now))
    ensures StaysDown(Do(w, Join(p, c, now)), p.username) <==> !p.alive && ValueOr(p.hp, INIT_HP) > 0
  {
    hide StaysDown, SafePosition;
    var after := Do(w, Join(p, c, now));
    assert after.players[p.username] == Joined(p, c, now);
    if Joined(p, c, now).alive { LivingPlayersAreNotDown(after, p.username); } else { StaysDownIff(after, p.username); }
  }

  // profileLocked, which a leave returns and the next login hands back.
  function ProfileOf(w: World, p: Player): Profile {
    Profile(p.username, w.cfg.id, p.at, p.hp, p.maxHp, p.attack, p.potions, p.treasures, p.kills, p.deaths, p.victories, p.alive)
  }

  // So leaving while knocked down and coming back, after other things have happened, is a way to stay down.
  lemma LeavingWhileDownStaysDown(w: World, u: string, steps: seq<Step>, c: Cell, now: nat)
    requires DownIn(w, u) && w.players[u].username == u && w.players[u].hp == 0
    requires Fits(Run(Do(w, Leave(u)), steps), Join(ProfileOf(w, w.players[u]), c, now))
    ensures StaysDown(Do(Run(Do(w, Leave(u)), steps), Join(ProfileOf(w, w.players[u]), c, now)), u)
  {
    hide StaysDown, Do, Fits;
    JoinedStaysDownIff(Run(Do(w, Leave(u)), steps), ProfileOf(w, w.players[u]), c, now);
  }

  // A restore loses the respawn times: exactly the players captured while down stay down.
  lemma RestoredStaysDownIff(w: World, v: World, cp: MapCheckpoint, taken: nat, now: nat, u: string)
    requires IsCapture(w, taken, cp) && v.cfg == w.cfg && w.version != 0 && u in w.players
    ensures StaysDown(Restored(v, cp, now), u) <==> !w.players[u].alive
  {
    hide StaysDown;
    assert w.players[u].username == u by { assert Indexed(cp.players, Views(w.players, taken), UserOf); assert u in Views(w.players, taken); }
    CaptureThenRestore(w, v, cp, taken, now);
    hide IsCapture;
    var r := Restored(v, cp, now);
    assert u in r.players && r.players[u] == Carried(w.players[u], now);
    if r.players[u].alive { LivingPlayersAreNotDown(r, u); } else { StaysDownIff(r, u); }
  }
}
