/** Which submissions the sender keeps, and that a kept one is not forgotten. */
module SenderFresh {
  import opened Text
  import opened StreamSenders

  // A newer session, or the same with a newer epoch, or the same of both with another map or no older version of it.
  predicate NotOlder(next: StateVersion, latest: StateVersion) {
    || next.sessionVersion > latest.sessionVersion
    || (next.sessionVersion == latest.sessionVersion
        && (next.mapEpoch > latest.mapEpoch
            || (next.mapEpoch == latest.mapEpoch && (next.mapId != latest.mapId || next.mapVersion >= latest.mapVersion))))
  }

  // A submission past the shutdown check becomes the pending state exactly when it is the first or not older than
  // the latest; else nothing changes but that its submitter is gone.
  lemma StoreKeepsIff(labels: seq<Label>, u: nat)
    ensures var s, t := Run(labels), Run(labels + [BySubmitter(u, Store)]);
            u in s.submitters && s.submitters[u].Submitting? ==>
              var version := s.submitters[u].version;
              if s.stored == [] || NotOlder(version, s.stored[|s.stored| - 1])
              then t == s.(pending := Some(Snapshot(version, |s.stored|)), stored := s.stored + [version],
                           submitters := s.submitters[u := Stored])
              else t == s.(submitters := s.submitters - {u})
  {
    var all := labels + [BySubmitter(u, Store)];
    assert all[..|all| - 1] == labels;
    hide Run;
    assert Run(all) == DoSubmit(Run(labels), u, Store) by { OneMore(labels, BySubmitter(u, Store)); }
  }

  lemma OneMore(labels: seq<Label>, l: Label)
    ensures Run(labels + [l]) == Do(Run(labels), l)
  {
    assert (labels + [l])[..|labels|] == labels;
  }

  // Only shutting down refuses a submission at the door.
  lemma SubmitEntersIff(labels: seq<Label>, u: nat, version: StateVersion)
    ensures var s, t := Run(labels), Run(labels + [BySubmitter(u, Submit(version))]);
            u !in s.submitters ==>
              t == if !s.done && !s.finishing.Closed? then s.(submitters := s.submitters[u := Submitting(version)]) else s
  {
    hide Run;
    OneMore(labels, BySubmitter(u, Submit(version)));
  }

  // ---- a kept state is not forgotten ----

  // Until Finish begins to clear, a pending state has its signal given or about to be given, or the writer takes it.
  ghost predicate Signalled(s: State) {
    s.pending.Some? && (s.finishing.NotFinishing? || s.finishing.Begun? || s.finishing.Refusing?) ==>
      s.ready || s.writer.Taking? || exists u :: u in s.submitters && s.submitters[u].Stored?
  }

  lemma WriterKeepsSignalled(s: State, step: WriterStep)
    requires Signalled(s)
    ensures Signalled(DoWriter(s, step))
  {
  }

  lemma SubmitterKeepsSignalled(s: State, u: nat, step: SubmitStep)
    requires Signalled(s)
    ensures Signalled(DoSubmit(s, u, step))
  {
    hide Replaces;
    var t := DoSubmit(s, u, step);
    if step.Store? && t.pending != s.pending {
      assert t.submitters[u].Stored?;
    } else if !step.Signal? {
      SubmittersStay(s, t, u);
    }
  }

  lemma FinishKeepsSignalled(s: State, step: FinishStep)
    requires Signalled(s)
    ensures Signalled(DoFinish(s, step))
  {
    assert DoFinish(s, step).submitters == s.submitters;
  }

  lemma OthersKeepSignalled(s: State, l: Label)
    requires Signalled(s) && (l.ByProducer? || l.Abort?)
    ensures Signalled(Do(s, l))
  {
    hide DoProducer, DoFinish, DoWriter, DoSubmit;
    if l.ByProducer? { ProducerTouches(s, l.p, l.producer); }
    assert Do(s, l).submitters == s.submitters && Do(s, l).pending == s.pending;
  }

  lemma StepKeepsSignalled(s: State, l: Label)
    requires Signalled(s)
    ensures Signalled(Do(s, l))
  {
    hide Signalled, DoProducer, DoSubmit, DoFinish, DoWriter;
    match l
    case ByWriter(step) => WriterKeepsSignalled(s, step);
    case BySubmitter(u, step) => SubmitterKeepsSignalled(s, u, step);
    case ByFinish(step) => FinishKeepsSignalled(s, step);
    case _ => OthersKeepSignalled(s, l);
  }

  lemma SubmittersStay(s: State, t: State, u: nat)
    requires forall v | v in s.submitters && v != u :: v in t.submitters && t.submitters[v] == s.submitters[v]
    ensures (exists v :: v in s.submitters && v != u && s.submitters[v].Stored?) ==> exists v :: v in t.submitters && t.submitters[v].Stored?
  {
  }

  lemma {:induction false} PendingIsSignalled(labels: seq<Label>)
    ensures Signalled(Run(labels))
  {
    hide Do, Signalled;
    if labels == [] {
      StartIsSignalled();
    } else {
      PendingIsSignalled(labels[..|labels| - 1]);
      StepKeepsSignalled(Run(labels[..|labels| - 1]), labels[|labels| - 1]);
    }
  }

  lemma StartIsSignalled()
    ensures Signalled(INIT)
  {
  }

  // The writer hands a pending state to Send, whole and once, and takes nothing else then.
  lemma TakeHandsOver(labels: seq<Label>)
    ensures var s, t := Run(labels), Run(labels + [ByWriter(Take)]);
            s.writer.Taking? && s.pending.Some? ==>
              t == s.(pending := None, writer := Sending(StateFrame(s.pending.value), false))
  {
    hide Run;
    OneMore(labels, ByWriter(Take));
  }

  // ---- admission and the writer's choices ----

  // A producer in the select is admitted at the end of the queue exactly while fewer than thirty-two controls are
  // queued, and gives up exactly when the stream is done.
  lemma AdmissionIs(labels: seq<Label>, p: nat)
    ensures var s, t, g := Run(labels), Run(labels + [ByProducer(p, Enqueue)]), Run(labels + [ByProducer(p, GiveUp)]);
            p in s.producers && s.producers[p].Holding? ==>
              && (if |s.queue| < 32
                  then t == s.(mutex := None, producers := s.producers - {p}, queue := s.queue + [s.producers[p].control],
                               accepted := s.accepted + [s.producers[p].control])
                  else t == s)
              && g == if s.done then s.(mutex := None, producers := s.producers - {p}) else s
  {
    hide Run;
    OneMore(labels, ByProducer(p, Enqueue));
    OneMore(labels, ByProducer(p, GiveUp));
  }

  // Where the writer goes from each select says what it found there.
  lemma WriterChooses(labels: seq<Label>, step: WriterStep)
    ensures var s, t := Run(labels), Run(labels + [ByWriter(step)]);
            && (s.writer.First? && t.writer.Second? ==> s.queue == [])
            && (s.writer.Second? && t.writer.Third? ==> !s.done && !s.finishing.Closed?)
            && ((s.writer.Second? || s.writer.Third?) && t.writer.Exited? ==> s.done)
            && ((s.writer.Second? || s.writer.Third?) && t.writer.Draining? ==> s.finishing.Closed? && t.queue == s.queue)
            && (s.writer.Third? && t.writer.Taking? ==> s.ready && !t.ready && t.pending == s.pending)
            && (s.writer.Draining? && t.writer.Exited? ==> s.done || s.queue == [])
            && (!s.writer.Sending? && t.writer.Sending? && t.writer.frame.ControlFrame? ==>
                  s.queue != [] && t.writer.frame.control == s.queue[0] && t.queue == s.queue[1..])
            && (s.writer.Sending? && !t.writer.Sending? ==>
                  (t.done || !s.done) && (t.sent == s.sent + [s.writer.frame] || (t.done && t.writer.Exited? && t.sent == s.sent)))
  {
    hide Run;
    OneMore(labels, ByWriter(step));
  }
}
