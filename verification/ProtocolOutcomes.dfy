/** What commits, migrations, lost leadership and promotions come to, in the fields of what they change. */
module ProtocolOutcomes {
  import opened Text
  import opened Topologies
  import opened Stores
  import opened Electors
  import opened Authorities
  import opened Coordinators
  import opened Protocol
  import opened ProtocolInvariants
  import opened ProtocolTheorems
  import opened CoordinatorRuns

  // ---- a commit ----

  // A failover's commit gives one map to the standby, one epoch and one version up, under the run's term, and changes
  // nothing else of the topology. Without a commit the store stays as it is.
  lemma FailoverCommitIs(labels: seq<Label>, id: nat, now: nat)
    ensures var s, t := Run(labels), Do(Run(labels), CommitFailover(id, now));
            t.commits != s.commits ==>
              && id in s.tasks && s.tasks[id].Confirmed?
              && var x, cur := s.tasks[id], Current(s.commits);
                 && x.mapId in cur.owners && x.mapId in cur.mapEpochs && cur.owners[x.mapId] == x.failed != x.standby
                 && t.commits == s.commits
                      + [Commit(Topology(cur.version + 1, x.term, cur.owners[x.mapId := x.standby],
                                         cur.mapEpochs[x.mapId := cur.mapEpochs[x.mapId] + 1], now),
                                Failover(x.coord, x.term, x.mapId, x.failed, x.standby), s.redis.term)]
                 && t.redis.topology == Some(Json(t.commits[|s.commits|].topology))
    ensures var s, t := Run(labels), Do(Run(labels), CommitFailover(id, now));
            t.commits == s.commits ==> t.redis == s.redis
  {
    var s := Run(labels);
    RunsAreGood(labels);
    hide Run, CasEffect, CasVerdict;
    if id in s.tasks && s.tasks[id].Confirmed? {
      var x := s.tasks[id];
      if LeaderVerdict(s.redis, x.topology.version, FailoverProposal(x, now), FailoverMigration(x), x.term).Saved? {
        SavedFailoverStartsFromCurrent(s, id, now);
        assert TaskOk(s.commits, s.promotions, x);
        hide Good;
        EffectStoresTopology(s.redis, FailoverProposal(x, now), FailoverMigration(x));
      }
      hide Good, LeaderVerdict;
    }
  }

  lemma EffectStoresTopology(r: Redis, next: Topology, mig: Option<Migration>)
    ensures CasEffect(r, next, mig).topology == Some(Json(next))
  {
  }

  lemma EffectIs(r: Redis, expected: nat, next: Topology, mig: Migration, term: nat)
    requires LeaderVerdict(r, expected, next, Some(mig), term).Saved?
    ensures AfterCas(r, expected, next, Some(mig), term) == CasEffect(r, next, Some(mig))
    ensures forall u | u in r.sessions :: r.sessions[u].Json?
  {
  }

  // It moves exactly the sessions of the map on the failed node, one version up.
  lemma FailoverMovesItsSessions(labels: seq<Label>, id: nat, now: nat, u: string)
    ensures var s, t := Run(labels), Do(Run(labels), CommitFailover(id, now));
            t.commits != s.commits ==>
              && id in s.tasks && s.tasks[id].Confirmed?
              && (u in t.redis.sessions <==> u in s.redis.sessions)
              && (u in s.redis.sessions ==>
                    s.redis.sessions[u].Json?
                    && var session, x := s.redis.sessions[u].value, s.tasks[id];
                       t.redis.sessions[u] ==
                       if session.mapId == x.mapId && session.nodeId == x.failed
                       then Json(Session(x.mapId, x.standby, session.version + 1)) else s.redis.sessions[u])
  {
    var s := Run(labels);
    hide Run, CasEffect, CasVerdict, LeaderVerdict, AfterCas;
    if id in s.tasks && s.tasks[id].Confirmed? {
      var x := s.tasks[id];
      var next, mig := FailoverProposal(x, now), Migration(x.mapId, x.failed, x.standby);
      if LeaderVerdict(s.redis, x.topology.version, next, Some(mig), x.term).Saved? {
        EffectIs(s.redis, x.topology.version, next, mig, x.term);
        MigrationMovesExactlyTheAffected(s.redis, x.topology.version, next, mig, x.term, u);
        SavedByTheScript(s.redis, x.topology.version, next, mig, x.term);
      }
    }
  }

  lemma SavedByTheScript(r: Redis, expected: nat, next: Topology, mig: Migration, term: nat)
    requires LeaderVerdict(r, expected, next, Some(mig), term).Saved?
    ensures CasVerdict(r, expected, next, Some(mig), term).Saved?
  {
    hide CasVerdict;
  }

  // A bootstrap's commit is the built topology under the run's term, over no topology at all.
  lemma BootstrapCommitIs(labels: seq<Label>, id: nat)
    ensures var s, t := Run(labels), Do(Run(labels), CommitBootstrap(id));
            t.commits != s.commits ==>
              && s.commits == [] && s.redis.topology.None?
              && id in s.tasks && s.tasks[id].BootConfirmed?
              && var x := s.tasks[id];
                 && t.commits == [Commit(x.topology, Bootstrap(x.coord, x.term), s.redis.term)]
                 && x.topology.version == 1 && x.topology.leaderTerm == x.term == s.redis.term
                 && t.redis.topology == Some(Json(x.topology)) && t.redis.sessions == s.redis.sessions
  {
    var s := Run(labels);
    RunsAreGood(labels);
    hide Run;
    if id in s.tasks && s.tasks[id].BootConfirmed? {
      assert TaskOk(s.commits, s.promotions, s.tasks[id]);
      SavedIff(s.redis, 0, s.tasks[id].topology, None, s.tasks[id].term);
    }
  }

  // ---- sessions ----

  // The labels that can change a session of map m on node n: its own writes, and commits that migrate m away from n.
  ghost predicate MayChange(s: Sys, l: Label, u: string, m: MapId, n: NodeId) {
    match l
    case WriteSession(v, _) => v == u
    case DeleteSession(v) => v == u
    case CommitFailover(id, _) => id in s.tasks && s.tasks[id].Confirmed? && s.tasks[id].mapId == m && s.tasks[id].failed == n
    case CommitRepair(_, _, mig) => mig.Some? && mig.value.mapId == m && mig.value.oldNodeId == n
    case _ => false
  }

  ghost predicate HasSession(s: Sys, u: string, session: Session) {
    u in s.redis.sessions && s.redis.sessions[u] == Json(session)
  }

  lemma MigrationLeaves(r: Redis, next: Topology, mig: Option<Migration>, u: string, session: Session)
    requires u in r.sessions && r.sessions[u] == Json(session)
    requires mig.Some? ==> mig.value.mapId != session.mapId || mig.value.oldNodeId != session.nodeId
    ensures u in CasEffect(r, next, mig).sessions && CasEffect(r, next, mig).sessions[u] == Json(session)
  {
  }

  lemma CommitLeavesSession(s: Sys, l: Label, u: string, session: Session)
    requires l.CommitFailover? || l.CommitBootstrap? || l.CommitRepair?
    requires HasSession(s, u, session) && !MayChange(s, l, u, session.mapId, session.nodeId)
    ensures HasSession(Do(s, l), u, session)
  {
    hide CasVerdict, CasEffect, LeaderVerdict;
    match l
    case CommitFailover(id, now) =>
      if id in s.tasks && s.tasks[id].Confirmed? {
        MigrationLeaves(s.redis, FailoverProposal(s.tasks[id], now), FailoverMigration(s.tasks[id]), u, session);
      }
    case CommitBootstrap(id) =>
      if id in s.tasks && s.tasks[id].BootConfirmed? { MigrationLeaves(s.redis, s.tasks[id].topology, None, u, session); }
    case CommitRepair(_, next, mig) => MigrationLeaves(s.redis, next, mig, u, session);
  }

  lemma StepLeavesSession(s: Sys, l: Label, u: string, session: Session)
    requires HasSession(s, u, session) && !MayChange(s, l, u, session.mapId, session.nodeId)
    ensures HasSession(Do(s, l), u, session)
  {
    if l.CommitFailover? || l.CommitBootstrap? || l.CommitRepair? {
      CommitLeavesSession(s, l, u, session);
      hide Do;
    } else if !l.WriteSession? && !l.DeleteSession? {
      OtherStepsLeaveSessions(s, l);
      hide Do;
    }
  }

  // However many failovers of other maps and other nodes commit, a session of map m on node n stays as it is: a
  // session that a login put on a third node is not migrated.
  lemma {:induction false} SessionStaysUntilMigrated(labels: seq<Label>, more: seq<Label>, u: string, session: Session)
    requires HasSession(Run(labels), u, session)
    requires forall i | 0 <= i < |more| :: !MayChange(Run(labels + more[..i]), more[i], u, session.mapId, session.nodeId)
    ensures HasSession(Run(labels + more), u, session)
  {
    hide Do, MayChange, HasSession;
    if more == [] {
      assert labels + more == labels;
    } else {
      var last, all := |more| - 1, labels + more;
      assert all[..|all| - 1] == labels + more[..last] && all[|all| - 1] == more[last];
      forall i | 0 <= i < last ensures !MayChange(Run(labels + more[..last][..i]), more[..last][i], u, session.mapId, session.nodeId) {
        assert more[..last][..i] == more[..i];
      }
      SessionStaysUntilMigrated(labels, more[..last], u, session);
      StepLeavesSession(Run(labels + more[..last]), more[last], u, session);
    }
  }

  // ---- leadership ----

  // What ends the leadership of c: it gives up, its context is cancelled, a renewal finds the lease not its own, or
  // an acquire script fails.
  predicate EndsLeadership(s: Sys, l: Label, c: CoordId) {
    || l == Lose(c) || l == CancelContext(c) || (l == Renew(c) && s.redis.lease != Some(c))
  }

  predicate Idle(e: Elector) { !e.leader || !e.live }

  lemma EndIsIdle(s: Sys, l: Label, c: CoordId)
    requires EndsLeadership(s, l, c)
    ensures Idle(ElectorOf(Do(s, l), c))
  {
  }

  lemma StaysIdle(s: Sys, l: Label, c: CoordId)
    requires Idle(ElectorOf(s, c)) && l != Assign(c)
    ensures Idle(ElectorOf(Do(s, l), c))
  {
    hide CasVerdict, CasEffect, Load, Valid, AfterSave, UsableCheckpoint, MayPromote, IsInitial, LeaderVerdict;
  }

  lemma {:induction false} IdleUntilAssigned(labels: seq<Label>, more: seq<Label>, c: CoordId)
    requires Idle(ElectorOf(Run(labels), c)) && Assign(c) !in more
    ensures Idle(ElectorOf(Run(labels + more), c))
  {
    hide Do, Idle;
    if more == [] {
      assert labels + more == labels;
    } else {
      var last, all := |more| - 1, labels + more;
      assert all[..|all| - 1] == labels + more[..last] && all[|all| - 1] == more[last];
      assert more[last] in more && forall l | l in more[..last] :: l in more;
      IdleUntilAssigned(labels, more[..last], c);
      StaysIdle(Run(labels + more[..last]), more[last], c);
    }
  }

  // A coordinator whose leadership ended holds no term until it is assigned one again: it starts no failover and no
  // bootstrap, and confirms none.
  lemma LostLeadershipLasts(labels: seq<Label>, l: Label, more: seq<Label>, c: CoordId, id: nat, m: MapId, failed: NodeId)
    requires EndsLeadership(Run(labels), l, c) && Assign(c) !in more
    ensures var s := Run(labels + [l] + more);
            && TermOf(ElectorOf(s, c)) == 0
            && Do(s, Start(id, c, m, failed)) == s && Do(s, BootStart(id, c)) == s
            && (id in s.tasks && s.tasks[id].coord == c ==> Do(s, Confirm(id)) == s && Do(s, BootConfirm(id)) == s)
  {
    hide Run;
    EndIsIdle(Run(labels), l, c);
    RunOneMore(labels, l);
    IdleUntilAssigned(labels + [l], more, c);
  }

  lemma RunOneMore(labels: seq<Label>, l: Label)
    ensures Run(labels + [l]) == Do(Run(labels), l)
  {
    assert (labels + [l])[..|labels|] == labels;
  }

  ghost predicate NeverEnds(labels: seq<Label>, more: seq<Label>, c: CoordId) {
    forall i | 0 <= i < |more| :: !EndsLeadership(Run(labels + more[..i]), more[i], c)
  }

  lemma NeverEndsBefore(labels: seq<Label>, more: seq<Label>, c: CoordId)
    requires NeverEnds(labels, more, c) && more != []
    ensures var last := |more| - 1;
            NeverEnds(labels, more[..last], c) && !EndsLeadership(Run(labels + more[..last]), more[last], c)
  {
    hide Run, EndsLeadership;
    var last := |more| - 1;
    forall i | 0 <= i < last ensures !EndsLeadership(Run(labels + more[..last][..i]), more[..last][i], c) {
      assert more[..last][..i] == more[..i];
    }
  }

  // Without such an end a leader keeps its term.
  lemma {:induction false} LeadershipLasts(labels: seq<Label>, more: seq<Label>, c: CoordId, term: nat)
    requires LeadsAt(ElectorOf(Run(labels), c), term) && NeverEnds(labels, more, c)
    ensures LeadsAt(ElectorOf(Run(labels + more), c), term)
  {
    hide Run, EndsLeadership, LeadsAt, NeverEnds;
    if more == [] {
      assert labels + more == labels;
    } else {
      var last := |more| - 1;
      assert labels + more == (labels + more[..last]) + [more[last]];
      RunOneMore(labels + more[..last], more[last]);
      NeverEndsBefore(labels, more, c);
      LeadershipLasts(labels, more[..last], c, term);
      hide Do;
      KeepsLeading(Run(labels + more[..last]), more[last], c, term);
    }
  }

  // So over runs without a new assignment a leader keeps its term exactly as long as nothing ends its leadership.
  lemma LeadershipLastsIff(labels: seq<Label>, more: seq<Label>, c: CoordId, term: nat)
    requires LeadsAt(ElectorOf(Run(labels), c), term) && term > 0 && Assign(c) !in more
    ensures TermOf(ElectorOf(Run(labels + more), c)) == term <==>
              forall i | 0 <= i < |more| :: !EndsLeadership(Run(labels + more[..i]), more[i], c)
  {
    hide Run, EndsLeadership;
    if i :| 0 <= i < |more| && EndsLeadership(Run(labels + more[..i]), more[i], c) {
      var rest := more[i + 1..];
      assert labels + more == (labels + more[..i]) + [more[i]] + rest;
      assert forall l | l in rest :: l in more;
      LostLeadershipLasts(labels + more[..i], more[i], rest, c, 0, "", "");
    } else {
      LeadershipLasts(labels, more, c, term);
    }
  }

  // A leader campaigns no further.
  predicate LeadsAt(e: Elector, term: nat) {
    e.leader && e.live && e.term == term && !e.campaigning && e.acquired.None?
  }

  lemma KeepsLeading(s: Sys, l: Label, c: CoordId, term: nat)
    requires LeadsAt(ElectorOf(s, c), term) && !EndsLeadership(s, l, c)
    ensures LeadsAt(ElectorOf(Do(s, l), c), term)
  {
    hide CasVerdict, CasEffect, Load, Valid, AfterSave, UsableCheckpoint, MayPromote, IsInitial, LeaderVerdict;
  }

  lemma AssignedLeads(s: Sys, c: CoordId)
    requires ElectorOf(s, c).acquired.Some?
    ensures LeadsAt(ElectorOf(Do(s, Assign(c)), c), ElectorOf(s, c).acquired.value)
  {
  }

  // A run confirms only under the very term it started with, while that leadership lives.
  lemma ConfirmNeedsTheTerm(s: Sys, id: nat, l: Label)
    ensures (l == Confirm(id) || l == BootConfirm(id)) && Do(s, l) != s ==>
              id in s.tasks
              && var e := ElectorOf(s, s.tasks[id].coord);
                 e.leader && e.live && e.term == s.tasks[id].term > 0
  {
    if id in s.tasks { assert s.tasks[id := s.tasks[id]] == s.tasks; }
  }

  // The acquire script gives a campaigner of a free lease the next term; with its answer lost it leads no more, campaigns
  // no more and holds nothing, though the lease is its own and the term is spent.
  lemma AcquireGives(s: Sys, c: CoordId, replied: bool)
    ensures var t, e := Do(s, Acquire(c, replied)), ElectorOf(s, c);
            if e.campaigning && e.acquired.None? && s.redis.lease.None?
            then t.redis == s.redis.(lease := Some(c), term := s.redis.term + 1) && t.acquirers == s.acquirers + [c]
                 && ElectorOf(t, c) == if replied then e.(acquired := Some(s.redis.term + 1)) else Elector(false, 0, false, false, None)
            else t == s
  {
  }

  // ---- the lease ----

  // A held lease ends by expiry or by its holder's own release, and a free one is taken with the next term.
  lemma LeaseMovesOnlyBy(s: Sys, l: Label)
    ensures var t := Do(s, l);
            && (t.redis.lease != s.redis.lease ==>
                  if s.redis.lease.Some? then t.redis.lease.None? && (l.ExpireLease? || l == Release(s.redis.lease.value))
                  else l.Acquire? && t.redis.lease == Some(l.c) && t.redis.term == s.redis.term + 1)
            && (t.redis.lease == s.redis.lease ==> t.redis.term == s.redis.term)
  {
    hide CasVerdict, Load, Valid, UsableCheckpoint, MayPromote, IsInitial, LeaderVerdict, Migrate, WithFences;
  }

  // ---- promotions ----

  // A standby takes a promotion to exactly the epoch after the one in its cache, which names another owner, from a
  // checkpoint of that owner's epoch.
  lemma PromotionIsNextEpoch(s: Sys, id: nat, replied: bool)
    ensures var t := Do(s, Promote(id, replied));
            t.promotions != s.promotions ==>
              && |t.promotions| == |s.promotions| + 1
              && id in s.tasks && s.tasks[id].Checked?
              && (id in t.tasks <==> replied)
              && (replied ==> t.tasks[id].Promoted? && t.tasks[id].cp == s.tasks[id].cp && t.tasks[id].topology == s.tasks[id].topology)
              && var p := t.promotions[|s.promotions|];
                 && p.node in s.caches && p.mapId in s.caches[p.node].owners && p.mapId in s.caches[p.node].mapEpochs
                 && s.caches[p.node].owners[p.mapId] != p.node && s.caches[p.node].owners[p.mapId] != ""
                 && p.target == s.caches[p.node].mapEpochs[p.mapId] + 1 > 1
                 && p.cp.mapId == p.mapId && p.cp.mapEpoch + 1 == p.target && p.cp.nodeId != "" && p.cp.version > 0
  {
  }

  // A failover run is chosen for on the stored topology, which gives the map to the failed node, and a bootstrap is built
  // for only where none is stored; a run that gives up is gone.
  lemma RunsBeginOn(s: Sys, id: nat, standby: NodeId, built: Topology)
    ensures var t := Do(s, LoadAndChoose(id, standby));
            t != s ==>
              && id in s.tasks && s.tasks[id].Started? && s.redis.topology.Some? && s.redis.topology.value.Json?
              && var cur, m := s.redis.topology.value.value, s.tasks[id].mapId;
                 && m in cur.mapEpochs && cur.mapEpochs[m] > 0 && standby != s.tasks[id].failed
                 && (if m in cur.owners then cur.owners[m] else "") == s.tasks[id].failed
                 && id in t.tasks && t.tasks[id] == Chosen(s.tasks[id].coord, s.tasks[id].term, m, s.tasks[id].failed, cur, standby)
    ensures Do(s, BootBuild(id, built)) != s ==>
              s.redis.topology.None? && built.version == 1 && forall m | m in built.owners :: m in built.mapEpochs && built.mapEpochs[m] == 1
    ensures id !in Do(s, Abandon(id)).tasks
  {
    hide Valid;
  }

  // ---- caches ----

  lemma StepAdvancesCache(s: Sys, l: Label, n: NodeId)
    requires n in s.caches
    ensures n in Do(s, l).caches && s.caches[n].version <= Do(s, l).caches[n].version
  {
    hide CasVerdict, CasEffect, LeaderVerdict, Load, Valid, AfterSave, UsableCheckpoint, MayPromote, PromotableCheckpoint, IsInitial;
  }

  // However late a refresh comes with what it loaded, a node's cached topology never goes back.
  lemma {:induction false} CachesOnlyAdvance(labels: seq<Label>, more: seq<Label>, n: NodeId)
    requires n in Run(labels).caches
    ensures n in Run(labels + more).caches && Run(labels).caches[n].version <= Run(labels + more).caches[n].version
  {
    if more == [] {
      assert labels + more == labels;
    } else {
      var last := |more| - 1;
      assert labels + more == (labels + more[..last]) + [more[last]];
      RunOneMore(labels + more[..last], more[last]);
      hide Run, Do;
      CachesOnlyAdvance(labels, more[..last], n);
      StepAdvancesCache(Run(labels + more[..last]), more[last], n);
    }
  }
}
