/**
 One call of FailoverMap as a run of the control plane: whatever everybody else does between its calls, the labels
 below take its task through the transition system, and commit exactly when the call says so.
 */
module FailoverRuns {
  import opened Text
  import opened Topologies
  import opened Stores
  import opened Electors
  import opened Authorities
  import opened Coordinators
  import opened Protocol

  // The call, what the registry and the network answer it, and the standby it finds.
  datatype Call = Call(id: nat, coord: CoordId, mapId: MapId, failed: NodeId, eligible: set<NodeId>, standby: NodeId,
                       known: bool, replied: bool, now: nat)

  // What everybody else does: before the load, the checkpoint read, the Promote call, its reply and the commit.
  datatype Gaps = Gaps(load: seq<Label>, check: seq<Label>, call: seq<Label>, reply: seq<Label>, commit: seq<Label>)

  predicate Touches(l: Label, id: nat) {
    && (l.Start? || l.LoadAndChoose? || l.CheckCheckpoint? || l.Promote? || l.Confirm? || l.CommitFailover? || l.Abandon?
        || l.BootStart? || l.BootBuild? || l.BootConfirm? || l.CommitBootstrap?)
    && l.id == id
  }

  predicate Untouched(labels: seq<Label>, id: nat) { forall l | l in labels :: !Touches(l, id) }

  predicate OthersOnly(g: Gaps, id: nat) {
    Untouched(g.load, id) && Untouched(g.check, id) && Untouched(g.call, id) && Untouched(g.reply, id) && Untouched(g.commit, id)
  }

  // ---- the run, up to each moment at which the call looks at something ----

  function ToLoad(before: seq<Label>, x: Call, g: Gaps): seq<Label> {
    before + [Start(x.id, x.coord, x.mapId, x.failed)] + g.load
  }

  function ToCheck(before: seq<Label>, x: Call, g: Gaps): seq<Label> {
    ToLoad(before, x, g) + (if x.eligible == {} then [] else [LoadAndChoose(x.id, x.standby)]) + g.check
  }

  function ToCall(before: seq<Label>, x: Call, g: Gaps): seq<Label> {
    ToCheck(before, x, g) + [CheckCheckpoint(x.id)] + g.call
  }

  function ToReply(before: seq<Label>, x: Call, g: Gaps): seq<Label> {
    ToCall(before, x, g) + (if x.known then [Promote(x.id, x.replied)] else []) + g.reply
  }

  function ToCommit(before: seq<Label>, x: Call, g: Gaps): seq<Label> {
    ToReply(before, x, g) + [Confirm(x.id)] + g.commit
  }

  function ToEnd(before: seq<Label>, x: Call, g: Gaps): seq<Label> {
    ToCommit(before, x, g) + [CommitFailover(x.id, x.now)]
  }

  // The call sees the run.
  ghost predicate SeesRun(seen: Seen, before: seq<Label>, x: Call, g: Gaps) {
    && seen.leader == ElectorOf(Run(before), x.coord) && seen.start == Run(before).redis
    && seen.load == Run(ToLoad(before, x, g)).redis
    && seen.checkpoint == Run(ToCheck(before, x, g)).redis
    && seen.promote == Run(ToReply(before, x, g)).redis && seen.confirm == ElectorOf(Run(ToReply(before, x, g)), x.coord)
    && seen.commit == Run(ToCommit(before, x, g)).redis
  }

  // The standby takes the promotion and the reply gets through.
  ghost predicate Accepted(s: Sys, x: Call) {
    && x.replied && x.id in s.tasks && s.tasks[x.id].Checked?
    && var t := s.tasks[x.id];
       var target := t.topology.EpochOf(t.mapId) + 1;
       && t.standby in s.caches && MayPromote(s.caches[t.standby], t.standby, t.mapId, target)
       && PromotableCheckpoint(t.cp, t.mapId, target)
  }

  function TaskOf(s: Sys, id: nat): Option<Task> { if id in s.tasks then Some(s.tasks[id]) else None }

  // ---- how far the task has come ----

  ghost predicate Leads(x: Call, seen: Seen) { TermOf(seen.leader) > 0 }

  ghost predicate Chooses(x: Call, seen: Seen) {
    && Leads(x, seen) && x.eligible != {} && Load(seen.load).Found?
    && Load(seen.load).topology.OwnerOf(x.mapId) == x.failed && Load(seen.load).topology.EpochOf(x.mapId) != 0
  }

  ghost predicate Checks(x: Call, seen: Seen) {
    Chooses(x, seen) && HasCheckpoint(seen.checkpoint, x.mapId, x.failed, Load(seen.load).topology.EpochOf(x.mapId))
  }

  ghost predicate Promotes(x: Call, seen: Seen, promoted: bool) { Checks(x, seen) && x.known && promoted }

  ghost predicate Confirms(x: Call, seen: Seen, promoted: bool) {
    Promotes(x, seen, promoted) && HoldsTerm(seen.confirm, TermOf(seen.leader))
  }

  lemma StepKeepsTask(s: Sys, l: Label, id: nat)
    requires !Touches(l, id)
    ensures TaskOf(Do(s, l), id) == TaskOf(s, id)
  {
    hide CasVerdict, CasEffect, AfterSave, Load, UsableCheckpoint, IsInitial, LeaderVerdict, MayPromote;
  }

  lemma {:induction false} OthersKeepTask(labels: seq<Label>, more: seq<Label>, id: nat)
    requires Untouched(more, id)
    ensures TaskOf(Run(labels + more), id) == TaskOf(Run(labels), id)
  {
    hide Do, Touches, TaskOf;
    if more == [] {
      assert labels + more == labels;
    } else {
      var last, all := |more| - 1, labels + more;
      assert all[..|all| - 1] == labels + more[..last] && all[|all| - 1] == more[last];
      assert more[last] in more && forall l | l in more[..last] :: l in more;
      OthersKeepTask(labels, more[..last], id);
      StepKeepsTask(Run(labels + more[..last]), more[last], id);
    }
  }

  // One own label, then the others.
  lemma OwnThenOthers(labels: seq<Label>, l: Label, more: seq<Label>, id: nat)
    requires Untouched(more, id)
    ensures TaskOf(Run(labels + [l] + more), id) == TaskOf(Do(Run(labels), l), id)
  {
    hide Do, Untouched, TaskOf;
    OthersKeepTask(labels + [l], more, id);
    assert (labels + [l])[..|labels|] == labels;
  }

  lemma TaskAtLoad(before: seq<Label>, x: Call, g: Gaps, seen: Seen)
    requires SeesRun(seen, before, x, g) && OthersOnly(g, x.id) && x.id !in Run(before).tasks
    ensures TaskOf(Run(ToLoad(before, x, g)), x.id) ==
            if Leads(x, seen) then Some(Started(x.coord, TermOf(seen.leader), x.mapId, x.failed)) else None
  {
    hide Run;
    OwnThenOthers(before, Start(x.id, x.coord, x.mapId, x.failed), g.load, x.id);
  }

  lemma TaskAtCheck(before: seq<Label>, x: Call, g: Gaps, seen: Seen)
    requires SeesRun(seen, before, x, g) && OthersOnly(g, x.id) && x.id !in Run(before).tasks && (Chooses(x, seen) ==> x.standby != x.failed)
    ensures var at := TaskOf(Run(ToCheck(before, x, g)), x.id);
            if Chooses(x, seen)
            then at == Some(Chosen(x.coord, TermOf(seen.leader), x.mapId, x.failed, Load(seen.load).topology, x.standby))
            else at.None? || at.value.Started?
  {
    TaskAtLoad(before, x, g, seen);
    hide Run, Load;
    if x.eligible == {} {
      assert ToLoad(before, x, g) + [] + g.check == ToLoad(before, x, g) + g.check;
      OthersKeepTask(ToLoad(before, x, g), g.check, x.id);
    } else {
      OwnThenOthers(ToLoad(before, x, g), LoadAndChoose(x.id, x.standby), g.check, x.id);
    }
  }

  lemma TaskAtCall(before: seq<Label>, x: Call, g: Gaps, seen: Seen)
    requires SeesRun(seen, before, x, g) && OthersOnly(g, x.id) && x.id !in Run(before).tasks && (Chooses(x, seen) ==> x.standby != x.failed)
    ensures var at := TaskOf(Run(ToCall(before, x, g)), x.id);
            if Checks(x, seen)
            then at == Some(Checked(x.coord, TermOf(seen.leader), x.mapId, x.failed, Load(seen.load).topology, x.standby,
                                    seen.checkpoint.checkpoints[x.mapId].value))
            else at.None? || at.value.Started? || at.value.Chosen?
  {
    TaskAtCheck(before, x, g, seen);
    hide Run, Load;
    OwnThenOthers(ToCheck(before, x, g), CheckCheckpoint(x.id), g.call, x.id);
  }

  lemma AcceptedIsChecked(s: Sys, x: Call)
    requires Accepted(s, x)
    ensures TaskOf(s, x.id).Some? && TaskOf(s, x.id).value.Checked?
  {
  }

  lemma PromoteMoves(s: Sys, x: Call)
    ensures var at, then_ := TaskOf(s, x.id), TaskOf(Do(s, Promote(x.id, x.replied)), x.id);
            if Accepted(s, x)
            then var t := at.value; then_ == Some(Promoted(t.coord, t.term, t.mapId, t.failed, t.topology, t.standby, t.cp))
            else then_.None? || then_ == at
  {
    hide MayPromote, PromotableCheckpoint;
  }

  lemma TaskAtReply(before: seq<Label>, x: Call, g: Gaps, seen: Seen, promoted: bool)
    requires SeesRun(seen, before, x, g) && OthersOnly(g, x.id) && x.id !in Run(before).tasks && (Chooses(x, seen) ==> x.standby != x.failed)
    requires Checks(x, seen) && x.known ==> (promoted <==> Accepted(Run(ToCall(before, x, g)), x))
    ensures var at := TaskOf(Run(ToReply(before, x, g)), x.id);
            if Promotes(x, seen, promoted)
            then at == Some(Promoted(x.coord, TermOf(seen.leader), x.mapId, x.failed, Load(seen.load).topology, x.standby,
                                     seen.checkpoint.checkpoints[x.mapId].value))
            else at.None? || !(at.value.Promoted? || at.value.Confirmed?)
  {
    TaskAtCall(before, x, g, seen);
    hide Run, Load, Accepted, Do;
    if x.known {
      PromoteMoves(Run(ToCall(before, x, g)), x);
      if Accepted(Run(ToCall(before, x, g)), x) { AcceptedIsChecked(Run(ToCall(before, x, g)), x); }
      OwnThenOthers(ToCall(before, x, g), Promote(x.id, x.replied), g.reply, x.id);
    } else {
      assert ToCall(before, x, g) + [] + g.reply == ToCall(before, x, g) + g.reply;
      OthersKeepTask(ToCall(before, x, g), g.reply, x.id);
    }
  }

  lemma TaskAtCommit(before: seq<Label>, x: Call, g: Gaps, seen: Seen, promoted: bool)
    requires SeesRun(seen, before, x, g) && OthersOnly(g, x.id) && x.id !in Run(before).tasks && (Chooses(x, seen) ==> x.standby != x.failed)
    requires Checks(x, seen) && x.known ==> (promoted <==> Accepted(Run(ToCall(before, x, g)), x))
    ensures var at := TaskOf(Run(ToCommit(before, x, g)), x.id);
            if Confirms(x, seen, promoted)
            then at == Some(Confirmed(x.coord, TermOf(seen.leader), x.mapId, x.failed, Load(seen.load).topology, x.standby,
                                      seen.checkpoint.checkpoints[x.mapId].value))
            else at.None? || !at.value.Confirmed?
  {
    TaskAtReply(before, x, g, seen, promoted);
    hide Run, Load;
    OwnThenOthers(ToReply(before, x, g), Confirm(x.id), g.commit, x.id);
  }

  // So what FailoverMap promises of its outcome and of the store is what its labels do at the end of the run: a
  // commit of the proposal under the call's term exactly when it ends Committed, and nothing otherwise.
  lemma FailoverMapIsARun(before: seq<Label>, x: Call, g: Gaps, seen: Seen, promoted: bool, r: Outcome)
    requires SeesRun(seen, before, x, g) && OthersOnly(g, x.id) && x.id !in Run(before).tasks && x.failed !in x.eligible
    requires Checks(x, seen) && x.known ==> (promoted <==> Accepted(Run(ToCall(before, x, g)), x))
    requires EndsAs(r, x.mapId, x.failed, x.eligible, x.known, promoted, x.now, seen, x.standby)
    ensures var s, t := Run(ToCommit(before, x, g)), Run(ToEnd(before, x, g));
            if r.Committed? then
              Load(seen.load).Found? &&
              var next := Proposal(Load(seen.load).topology, x.mapId, x.standby, TermOf(seen.leader), x.now);
              && t.redis == CasEffect(seen.commit, next, Some(Migration(x.mapId, x.failed, x.standby)))
              && t.commits == s.commits + [Commit(next, Failover(x.coord, TermOf(seen.leader), x.mapId, x.failed, x.standby), s.redis.term)]
            else t.redis == s.redis && t.commits == s.commits
  {
    hide Run, CasVerdict, CasEffect, Load, Proposal;
    var at := ToCommit(before, x, g);
    EndOfRun(at, CommitFailover(x.id, x.now));
    if Chooses(x, seen) { assert x.standby in x.eligible; }
    TaskAtCommit(before, x, g, seen, promoted);
  }

  lemma EndOfRun(labels: seq<Label>, l: Label)
    ensures Run(labels + [l]) == Do(Run(labels), l)
  {
    assert (labels + [l])[..|labels|] == labels;
  }
}
