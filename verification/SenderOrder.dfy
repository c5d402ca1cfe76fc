/** Exactly when the state frames of a stream keep their order, over all its runs. */
module SenderOrder {
  import opened Text
  import opened StreamSenders
  import opened SenderObject

  // All submissions of the run carry one of these versions.
  predicate SubmitsFrom(labels: seq<Label>, versions: set<StateVersion>) {
    forall l | l in labels && l.BySubmitter? && l.submit.Submit? :: l.submit.version in versions
  }

  predicate SendsForward(s: State) {
    forall i, j | 0 <= i < j < |s.sent| && s.sent[i].StateFrame? && s.sent[j].StateFrame? ::
      !Regresses(s.sent[j].state.version, s.sent[i].state.version)
  }

  ghost predicate RunsSendForward(versions: set<StateVersion>) {
    forall labels | SubmitsFrom(labels, versions) :: SendsForward(Run(labels))
  }

  predicate StoredFrom(s: State, versions: set<StateVersion>) {
    && (forall x | x in s.stored :: x in versions)
    && (forall u | u in s.submitters && s.submitters[u].Submitting? :: s.submitters[u].version in versions)
  }

  lemma StepStoresFrom(s: State, l: Label, versions: set<StateVersion>)
    requires StoredFrom(s, versions) && SubmitsFrom([l], versions)
    ensures StoredFrom(Do(s, l), versions)
  {
    hide Replaces, DoProducer, DoFinish, DoWriter;
    match l
    case ByProducer(p, step) => ProducerTouches(s, p, step);
    case BySubmitter(_, _) => assert l in [l];
    case ByFinish(step) => FinishTouches(s, step);
    case ByWriter(step) => WriterStoresNothing(s, step);
    case Abort =>
  }

  lemma WriterStoresNothing(s: State, step: WriterStep)
    ensures DoWriter(s, step).stored == s.stored && DoWriter(s, step).submitters == s.submitters
  {
    hide Enabled;
  }

  lemma {:induction false} RunStoresFrom(labels: seq<Label>, versions: set<StateVersion>)
    requires SubmitsFrom(labels, versions)
    ensures StoredFrom(Run(labels), versions)
  {
    hide Do;
    if labels != [] {
      var before, l := labels[..|labels| - 1], labels[|labels| - 1];
      assert l in labels && forall k | k in before :: k in labels;
      RunStoresFrom(before, versions);
      StepStoresFrom(Run(before), l, versions);
    }
  }

  // ---- a run that sends given states one by one ----

  function SendOne(version: StateVersion): seq<Label> {
    [BySubmitter(0, Submit(version)), BySubmitter(0, Store), BySubmitter(0, Signal),
     ByWriter(FallThrough), ByWriter(FallThrough), ByWriter(SeeReady), ByWriter(Take), ByWriter(SendOk)]
  }

  // Nothing queued, pending or closing, and the writer at the top of its loop.
  predicate AtRest(s: State) {
    s.writer.First? && s.queue == [] && !s.ready && s.pending.None? && !s.done && !Finished(s) && s.submitters == map[]
  }

  lemma SendingOne(s: State, version: StateVersion)
    requires AtRest(s) && Replaces(s, version)
    ensures var t := Steps(s, SendOne(version));
            && AtRest(t) && t.stored == s.stored + [version]
            && t.sent == s.sent + [StateFrame(Snapshot(version, |s.stored|))]
  {
    var all := SendOne(version);
    var stored := s.(pending := Some(Snapshot(version, |s.stored|)), stored := s.stored + [version], ready := true);
    assert all[..3] == [BySubmitter(0, Submit(version)), BySubmitter(0, Store), BySubmitter(0, Signal)];
    SubmissionComesTo(s, 0, version);
    WriterSends(stored);
    hide Do, Enabled;
    StepsThenSteps(s, all[..3], all[3..]);
    assert all[..3] + all[3..] == all;
  }

  lemma WriterSends(s: State)
    requires s.writer.First? && s.queue == [] && s.ready && s.pending.Some? && !s.done && !Finished(s)
    ensures Steps(s, [ByWriter(FallThrough), ByWriter(FallThrough), ByWriter(SeeReady), ByWriter(Take), ByWriter(SendOk)])
            == s.(ready := false, pending := None, sent := s.sent + [StateFrame(s.pending.value)])
  {
    var second, third := s.(writer := Second), s.(writer := Third);
    var taking := s.(writer := Taking, ready := false);
    var sending := taking.(pending := None, writer := Sending(StateFrame(s.pending.value), false));
    assert Do(s, ByWriter(FallThrough)) == second && Do(second, ByWriter(FallThrough)) == third;
    assert Do(third, ByWriter(SeeReady)) == taking && Do(taking, ByWriter(Take)) == sending;
    assert Do(sending, ByWriter(SendOk)) == s.(ready := false, pending := None, sent := s.sent + [StateFrame(s.pending.value)]);
    FiveSteps(s, ByWriter(FallThrough), ByWriter(FallThrough), ByWriter(SeeReady), ByWriter(Take), ByWriter(SendOk));
  }

  lemma FiveSteps(s: State, a: Label, b: Label, c: Label, d: Label, e: Label)
    ensures Steps(s, [a, b, c, d, e]) == Do(Do(Do(Do(Do(s, a), b), c), d), e)
  {
    hide Do;
    ThreeSteps(s, a, b, c);
    assert [a, b, c] + [d] == [a, b, c, d] && [a, b, c, d] + [e] == [a, b, c, d, e];
    StepAfter(s, [a, b, c], d);
    StepAfter(s, [a, b, c, d], e);
  }

  function SendAll(versions: seq<StateVersion>): seq<Label> {
    if versions == [] then [ByWriter(Start)]
    else SendAll(versions[..|versions| - 1]) + SendOne(versions[|versions| - 1])
  }

  ghost predicate SentExactly(s: State, versions: seq<StateVersion>) {
    && s.stored == versions && |s.sent| == |versions|
    && forall i | 0 <= i < |versions| :: s.sent[i] == StateFrame(Snapshot(versions[i], i))
  }

  lemma SentOneMore(s: State, t: State, versions: seq<StateVersion>)
    requires versions != [] && SentExactly(s, versions[..|versions| - 1])
    requires t.stored == s.stored + [versions[|versions| - 1]]
    requires t.sent == s.sent + [StateFrame(Snapshot(versions[|versions| - 1], |s.stored|))]
    ensures SentExactly(t, versions)
  {
    assert versions == versions[..|versions| - 1] + [versions[|versions| - 1]];
  }

  lemma NextReplaces(s: State, versions: seq<StateVersion>)
    requires versions != [] && Stepwise(versions) && s.stored == versions[..|versions| - 1]
    ensures Replaces(s, versions[|versions| - 1])
  {
    var last := |versions| - 1;
    if last > 0 { assert !Regresses(versions[last - 1 + 1], versions[last - 1]); }
  }

  // Every stepwise sequence of submissions can go out whole, frame by frame.
  lemma {:induction false} SendingAll(versions: seq<StateVersion>)
    requires Stepwise(versions)
    ensures var s := Run(SendAll(versions)); AtRest(s) && SentExactly(s, versions)
  {
    if versions == [] {
      StartRun();
    } else {
      hide Do, Regresses, AtRest, Replaces, SendOne, Steps, Run;
      var last := |versions| - 1;
      SendingAll(versions[..last]);
      var s := Run(SendAll(versions[..last]));
      NextReplaces(s, versions);
      SendingOne(s, versions[last]);
      StepsFromARun(SendAll(versions[..last]), SendOne(versions[last]));
      SentOneMore(s, Steps(s, SendOne(versions[last])), versions);
    }
  }

  lemma StartRun()
    ensures AtRest(Run([ByWriter(Start)])) && SentExactly(Run([ByWriter(Start)]), [])
  {
    assert [ByWriter(Start)][..0] == [] && Run([]) == INIT;
    assert Do(INIT, ByWriter(Start)) == INIT.(writer := First);
  }

  lemma {:induction false} SendAllSubmitsFrom(stored: seq<StateVersion>, versions: set<StateVersion>)
    requires forall x | x in stored :: x in versions
    ensures SubmitsFrom(SendAll(stored), versions)
  {
    if stored != [] {
      var before, x := stored[..|stored| - 1], stored[|stored| - 1];
      assert x in stored && forall y | y in before :: y in stored;
      SendAllSubmitsFrom(before, versions);
      forall l | l in SendAll(stored) && l.BySubmitter? && l.submit.Submit? ensures l.submit.version in versions {
        assert l in SendAll(before) || l in SendOne(x);
      }
    }
  }

  // No run whose submissions carry these versions ever sends a state behind an earlier one, exactly when the
  // versions contain no detour over another map.
  lemma RunsSendForwardIffNoDetour(versions: set<StateVersion>)
    ensures RunsSendForward(versions) <==> NoDetour(versions)
  {
    hide Regresses, NoDetour, Run;
    if NoDetour(versions) {
      forall labels | SubmitsFrom(labels, versions) ensures SendsForward(Run(labels)) { RunSendsForward(labels, versions); }
    } else {
      AlwaysForwardIffNoDetour(versions);
      var stored :| Stepwise(stored) && (forall x | x in stored :: x in versions) && !Forward(stored);
      var i, j :| 0 <= i < j < |stored| && Regresses(stored[j], stored[i]);
      SendingAll(stored);
      SendAllSubmitsFrom(stored, versions);
      var s := Run(SendAll(stored));
      assert s.sent[i].state.version == stored[i] && s.sent[j].state.version == stored[j];
      assert !SendsForward(s);
    }
  }

  lemma RunSendsForward(labels: seq<Label>, versions: set<StateVersion>)
    requires NoDetour(versions) && SubmitsFrom(labels, versions)
    ensures SendsForward(Run(labels))
  {
    hide Regresses, Run;
    RunStoresFrom(labels, versions);
    var s := Run(labels);
    assert NoDetour(set x | x in s.stored);
    hide NoDetour;
    forall i, j | 0 <= i < j < |s.sent| && s.sent[i].StateFrame? && s.sent[j].StateFrame?
      ensures !Regresses(s.sent[j].state.version, s.sent[i].state.version)
    {
      StateFramesNeverGoBack(labels, i, j);
    }
  }

  // Two maps of one session and epoch are enough: a run that sends green 5, cave 1, green 3.
  lemma StatesCanGoBack(session: int, epoch: nat)
    ensures var a, b := StateVersion("green", session, epoch, 5), StateVersion("cave", session, epoch, 1);
            var c := StateVersion("green", session, epoch, 3);
            var s := Run(SendAll([a, b, c]));
            && s.sent == [StateFrame(Snapshot(a, 0)), StateFrame(Snapshot(b, 1)), StateFrame(Snapshot(c, 2))]
            && Stepwise([a, b, c]) && Regresses(c, a) && !SendsForward(s)
  {
    var a, b := StateVersion("green", session, epoch, 5), StateVersion("cave", session, epoch, 1);
    var c := StateVersion("green", session, epoch, 3);
    assert a.mapId[0] != b.mapId[0];
    assert Stepwise([a, b, c]);
    SendingAll([a, b, c]);
    var s := Run(SendAll([a, b, c]));
    hide Run;
    assert s.sent[0].state.version == a && s.sent[2].state.version == c;
  }
}
