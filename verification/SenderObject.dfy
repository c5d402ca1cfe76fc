/**
 The stream sender as the object it is: each method, running undisturbed, performs steps of the transition system
 of StreamSenders. A method that would block on a channel or a lock returns an outcome that says where it waits.
 */
module SenderObject {
  import opened Text
  import opened StreamSenders

  function Steps(s: State, labels: seq<Label>): State {
    if labels == [] then s else Do(Steps(s, labels[..|labels| - 1]), labels[|labels| - 1])
  }

  // Only writer steps, each enabled where it is taken.
  predicate WriterRun(s: State, labels: seq<Label>) {
    forall i | 0 <= i < |labels| :: labels[i].ByWriter? && Enabled(Steps(s, labels[..i]), labels[i].write)
  }

  lemma {:induction false} StepsFromARun(before: seq<Label>, labels: seq<Label>)
    ensures Steps(Run(before), labels) == Run(before + labels)
  {
    hide Do;
    if labels == [] {
      assert before + labels == before;
    } else {
      var all, last := before + labels, |labels| - 1;
      assert all[..|all| - 1] == before + labels[..last] && all[|all| - 1] == labels[last];
      StepsFromARun(before, labels[..last]);
    }
  }

  predicate OnlyBy(labels: seq<Label>, p: nat) {
    forall l | l in labels :: l.ByProducer? && l.p == p
  }

  lemma {:induction false} StepsThenSteps(s: State, before: seq<Label>, labels: seq<Label>)
    ensures Steps(Steps(s, before), labels) == Steps(s, before + labels)
  {
    hide Do;
    if labels == [] {
      assert before + labels == before;
    } else {
      var all, last := before + labels, |labels| - 1;
      assert all[..|all| - 1] == before + labels[..last] && all[|all| - 1] == labels[last];
      StepsThenSteps(s, before, labels[..last]);
    }
  }

  lemma StepAfter(s: State, labels: seq<Label>, l: Label)
    ensures Steps(s, labels + [l]) == Do(Steps(s, labels), l)
    ensures WriterRun(s, labels) && l.ByWriter? && Enabled(Steps(s, labels), l.write) ==> WriterRun(s, labels + [l])
  {
    hide Do, Enabled;
    var all := labels + [l];
    assert all[..|all| - 1] == labels;
    forall i | 0 <= i < |labels| ensures all[..i] == labels[..i] {}
  }

  // ---- what the steps of one call, and of one turn, come to ----

  lemma SubmissionComesTo(s: State, u: nat, version: StateVersion)
    requires u !in s.submitters && !s.done && !Finished(s) && Replaces(s, version)
    ensures Steps(s, [BySubmitter(u, Submit(version)), BySubmitter(u, Store), BySubmitter(u, Signal)])
            == s.(pending := Some(Snapshot(version, |s.stored|)), stored := s.stored + [version], ready := true)
  {
    hide Replaces;
    ThreeSteps(s, BySubmitter(u, Submit(version)), BySubmitter(u, Store), BySubmitter(u, Signal));
    var t := DoSubmit(s, u, Submit(version));
    assert t == s.(submitters := t.submitters);
    assert Replaces(t, version) by { SameStored(s, t, version); }
    var t2 := DoSubmit(t, u, Store);
    assert t2 == t.(pending := Some(Snapshot(version, |s.stored|)), stored := s.stored + [version], submitters := t.submitters[u := Stored]);
    assert t2.submitters - {u} == s.submitters;
  }

  lemma SameStored(s: State, t: State, version: StateVersion)
    requires s.stored == t.stored && Replaces(s, version)
    ensures Replaces(t, version)
  {
  }

  function RestOfFinish(): seq<Label> {
    [ByFinish(Refuse), ByFinish(ClearPending), ByFinish(ClearSignal), ByFinish(Close)]
  }

  lemma FinishComesTo(s: State)
    requires s.finishing.Begun? && s.mutex.None?
    ensures Steps(s, RestOfFinish()) == s.(accepting := false, pending := None, ready := false, finishing := Closed)
  {
    var all := RestOfFinish();
    FinishDoes(s);
    hide DoFinish;
    ThreeSteps(s, all[0], all[1], all[2]);
    assert all[..3] == [all[0], all[1], all[2]] && all == all[..3] + [all[3]];
    StepAfter(s, all[..3], all[3]);
  }

  lemma BeginComesTo(s: State)
    requires s.finishing.NotFinishing?
    ensures Steps(s, [ByFinish(Begin)]) == s.(finishing := Begun)
  {
    assert [ByFinish(Begin)][..0] == [];
  }

  // The steps of Finish once it is begun, one after the other.
  lemma FinishDoes(s: State)
    requires s.finishing.Begun? && s.mutex.None?
    ensures var refusing := s.(finishing := Refusing, accepting := false);
            var cleared := refusing.(finishing := Cleared, pending := None);
            && DoFinish(s, Refuse) == refusing
            && DoFinish(refusing, ClearPending) == cleared
            && DoFinish(cleared, ClearSignal) == cleared.(finishing := Unsignalled, ready := false)
            && DoFinish(cleared.(finishing := Unsignalled, ready := false), Close)
               == s.(accepting := false, pending := None, ready := false, finishing := Closed)
  {
  }

  lemma WriterDoes(s: State, step: WriterStep)
    requires Enabled(s, step)
    ensures step.FallThrough? && !s.writer.Draining? ==>
      Do(s, ByWriter(step)) == s.(writer := if s.writer.First? then Second else Third)
    ensures step.SeeFinished? ==> Do(s, ByWriter(step)) == s.(writer := Draining)
    ensures step.SeeReady? ==> Do(s, ByWriter(step)) == s.(writer := Taking, ready := false)
    ensures step.SeeDone? || (step.FallThrough? && s.writer.Draining?) ==> Do(s, ByWriter(step)) == s.(writer := Exited)
    ensures step.Receive? ==>
      s.queue != []
      && Do(s, ByWriter(step)) == s.(writer := Sending(ControlFrame(s.queue[0]), s.writer.Draining?), queue := s.queue[1..])
  {
    hide DoProducer, DoSubmit, DoFinish;
  }

  lemma EmptyRun(s: State)
    ensures Steps(s, []) == s && WriterRun(s, [])
  {
  }

  lemma TurnGuards(s: State)
    ensures s.writer.First? ==> (Enabled(s, Receive) <==> s.queue != []) && (Enabled(s, FallThrough) <==> s.queue == [])
    ensures s.writer.Second? ==>
      && (Enabled(s, SeeDone) <==> s.done) && (Enabled(s, SeeFinished) <==> Finished(s))
      && (Enabled(s, FallThrough) <==> !s.done && !Finished(s))
    ensures s.writer.Third? ==>
      && (Enabled(s, SeeReady) <==> s.ready) && (Enabled(s, Receive) <==> s.queue != [])
      && (Enabled(s, SeeDone) <==> s.done) && (Enabled(s, SeeFinished) <==> Finished(s))
    ensures s.writer.Taking? ==> Enabled(s, Take)
  {
  }

  // How far a call got; a call that waits is taken up again when what it waits for may have changed.
  datatype Admission = Admitted | Rejected | WaitsToEnqueue
  datatype Progress = More | Ended | WaitsForWork

  class Sender {
    var controls: seq<Control>
    var controlMu: Option<nat>
    var stateReady: bool
    var done: bool
    var finished: bool
    var accepting: bool
    var pending: Option<StateVersion>
    var latest: Option<StateVersion>
    ghost var view: State

    ghost predicate Valid()
      reads this
    {
      && view.queue == controls && view.ready == stateReady && view.done == done
      && view.accepting == accepting && Finished(view) == finished && view.mutex == controlMu
      && (view.finishing.NotFinishing? || view.finishing.Begun? || view.finishing.Closed?)
      && pending == (if view.pending.Some? then Some(view.pending.value.version) else None)
      && latest == (if view.stored == [] then None else Some(view.stored[|view.stored| - 1]))
    }

    constructor ()
      ensures Valid() && view == INIT
    {
      controls, controlMu, stateReady, done, finished, accepting := [], None, false, false, false, true;
      pending, latest := None, None;
      view := INIT;
    }

    // An envelope of None is nil.
    method EnqueueControl(p: nat, envelope: Option<Control>) returns (r: Admission, ghost labels: seq<Label>)
      requires Valid() && p !in view.producers
      modifies this`controls, this`controlMu, this`view
      ensures Valid() && view == Steps(old(view), labels) && OnlyBy(labels, p)
      ensures envelope.None? ==> r.Admitted? && labels == []
      ensures envelope.Some? ==> Outcome(old(view), p, envelope.value, r)
    {
      labels := [];
      if envelope.None? {
        EmptyRun(view);
        return Admitted, labels;
      }
      ghost var s := view;
      EmptyRun(s);
      StepAfter(s, [], ByProducer(p, Arrive(envelope.value)));
      assert [] + [ByProducer(p, Arrive(envelope.value))] == [ByProducer(p, Arrive(envelope.value))];
      view := Do(view, ByProducer(p, Arrive(envelope.value)));
      labels := [ByProducer(p, Arrive(envelope.value))];
      hide Do, Steps;
      r, labels := LockAndSend(p, envelope.value, s, labels);
    }

    ghost predicate Outcome(s: State, p: nat, c: Control, r: Admission)
      reads this
    {
      match r
      case Admitted => controls == s.queue + [c] && view.accepted == s.accepted + [c] && p !in view.producers
      case Rejected =>
        controls == s.queue && view.accepted == s.accepted && p !in view.producers && (!accepting || done)
      case WaitsToEnqueue =>
        && controls == s.queue && view.accepted == s.accepted && p in view.producers
        && (if view.producers[p] == Holding(c) then controlMu == Some(p) && |controls| >= CAPACITY && !done
            else view.producers[p] == Waiting(c) && controlMu.Some?)
    }

    // Taking controlMu; the call waits while another producer holds it.
    method LockAndSend(p: nat, c: Control, ghost from: State, ghost before: seq<Label>)
      returns (r: Admission, ghost labels: seq<Label>)
      requires Valid() && p in view.producers && view.producers[p] == Waiting(c)
      requires view == Steps(from, before) && OnlyBy(before, p)
      modifies this`controls, this`controlMu, this`view
      ensures Valid() && view == Steps(from, labels) && OnlyBy(labels, p) && Outcome(old(view), p, c, r)
    {
      hide DoSubmit, DoFinish, DoWriter, Steps;
      labels := before;
      if controlMu.Some? { return WaitsToEnqueue, labels; }
      StepAfter(from, labels, ByProducer(p, Lock));
      labels := labels + [ByProducer(p, Lock)];
      view := Do(view, ByProducer(p, Lock));
      if !accepting { return Rejected, labels; }
      controlMu := Some(p);
      r, labels := SendOrGiveUp(p, c, from, labels);
    }

    // The select under controlMu; it waits while the queue is full and the stream goes on.
    method SendOrGiveUp(p: nat, c: Control, ghost from: State, ghost before: seq<Label>)
      returns (r: Admission, ghost labels: seq<Label>)
      requires Valid() && p in view.producers && view.producers[p] == Holding(c) && controlMu == Some(p)
      requires view == Steps(from, before) && OnlyBy(before, p)
      modifies this`controls, this`controlMu, this`view
      ensures Valid() && view == Steps(from, labels) && OnlyBy(labels, p)
      ensures Outcome(old(view), p, c, r)
    {
      hide DoSubmit, DoFinish, DoWriter, Steps;
      labels := before;
      if {
        case |controls| < CAPACITY =>
          StepAfter(from, labels, ByProducer(p, Enqueue));
          labels := labels + [ByProducer(p, Enqueue)];
          view := Do(view, ByProducer(p, Enqueue));
          controls, controlMu := controls + [c], None;
          return Admitted, labels;
        case done =>
          StepAfter(from, labels, ByProducer(p, GiveUp));
          labels := labels + [ByProducer(p, GiveUp)];
          view := Do(view, ByProducer(p, GiveUp));
          controlMu := None;
          return Rejected, labels;
        case |controls| >= CAPACITY && !done =>
          return WaitsToEnqueue, labels;
      }
    }

    method SubmitState(u: nat, version: StateVersion)
      requires Valid() && u !in view.submitters
      modifies this
      ensures Valid()
      ensures var kept := !old(done) && !old(finished) && (old(latest).None? || !Regresses(version, old(latest).value));
              if kept
              then view == Steps(old(view), [BySubmitter(u, Submit(version)), BySubmitter(u, Store), BySubmitter(u, Signal)])
                   && pending == latest == Some(version) && stateReady
              else view == old(view)
      ensures var kept := !old(done) && !old(finished) &&
                match old(latest)
                case None => true
                case Some(l) =>
                  || version.sessionVersion > l.sessionVersion
                  || (version.sessionVersion == l.sessionVersion
                      && (version.mapEpoch > l.mapEpoch
                          || (version.mapEpoch == l.mapEpoch && (version.mapId != l.mapId || version.mapVersion >= l.mapVersion))));
              pending == (if kept then Some(version) else old(pending)) && latest == (if kept then Some(version) else old(latest))
              && stateReady == (kept || old(stateReady))
    {
      hide Steps;
      if done || finished { return; }
      if latest.Some? && Regresses(version, latest.value) { return; }
      SubmissionComesTo(view, u, version);
      view := view.(pending := Some(Snapshot(version, |view.stored|)), stored := view.stored + [version], ready := true);
      pending, latest := Some(version), Some(version);
      stateReady := true;
    }

    method TakeState() returns (state: Option<StateVersion>)
      requires Valid() && view.writer.Taking?
      modifies this`pending, this`view
      ensures Valid() && state == old(pending) && pending == None && view == Do(old(view), ByWriter(Take))
      ensures if state.None? then view == old(view).(writer := First)
              else old(view).pending.Some?
                   && view == old(view).(pending := None, writer := Sending(StateFrame(old(view).pending.value), false))
    {
      state := pending;
      pending := None;
      view := Do(view, ByWriter(Take));
    }

    // Waits while a producer holds controlMu; once through, everything is refused and the pending state gone.
    method Finish() returns (closed: bool, ghost labels: seq<Label>)
      requires Valid()
      modifies this
      ensures Valid() && view == Steps(old(view), labels) && closed == finished && controls == old(controls)
      ensures closed <==> old(finished) || controlMu.None?
      ensures old(finished) ==> view == old(view)
      ensures closed && !old(finished) ==>
        && !accepting && pending.None? && !stateReady
        && view == old(view).(accepting := false, pending := None, ready := false, finishing := Closed)
      ensures !closed ==> view == old(view).(finishing := Begun)
    {
      hide Steps, Do, WriterRun;
      labels := [];
      EmptyRun(view);
      if finished { return true, labels; }
      ghost var s := view;
      if view.finishing.NotFinishing? {
        BeginComesTo(s);
        view, labels := view.(finishing := Begun), [ByFinish(Begin)];
      }
      if controlMu.Some? { return false, labels; }
      FinishComesTo(view);
      StepsThenSteps(s, labels, RestOfFinish());
      labels := labels + RestOfFinish();
      accepting, finished, stateReady, pending := false, true, false, None;
      view := view.(accepting := false, pending := None, ready := false, finishing := Closed);
      return true, labels;
    }

    method Abort()
      requires Valid()
      modifies this
      ensures Valid() && view == Do(old(view), StreamSenders.Label.Abort)
    {
      done := true;
      view := Do(view, StreamSenders.Label.Abort);
    }

    // Whether the transport takes the frame is not ours to decide.
    method Send() returns (ok: bool, ghost step: WriterStep)
      requires Valid() && view.writer.Sending?
      modifies this`done, this`view
      ensures Valid() && view == Do(old(view), ByWriter(step)) && controls == old(controls)
      ensures step == if ok then SendOk else SendFails
      ensures step == SendOk || step == SendFails
      ensures view == old(view).(sent := view.sent, lost := view.lost, done := view.done, writer := view.writer)
      ensures Enabled(old(view), step)
      ensures if ok
              then done == old(done) && view.sent == old(view.sent) + [old(view).writer.frame]
                   && view.writer == (if old(view).writer.draining then Draining else First)
              else done && view.writer.Exited?
    {
      hide DoProducer, DoSubmit, DoFinish;
      ok := *;
      step := if ok then SendOk else SendFails;
      view := Do(view, ByWriter(step));
      if !ok { done := true; }
    }

    // One receive from the control channel and the Send that follows.
    method ReceiveAndSend(ghost from: State, ghost before: seq<Label>) returns (ok: bool, ghost labels: seq<Label>)
      requires Valid() && controls != [] && Enabled(view, Receive)
      requires view == Steps(from, before) && WriterRun(from, before)
      modifies this`controls, this`done, this`view
      ensures Valid() && view == Steps(from, labels) && WriterRun(from, labels) && labels != []
      ensures controls == old(controls)[1..]
      ensures ok ==> view.writer == (if old(view.writer).Draining? then Draining else First) && done == old(done)
      ensures ok ==> view.sent == old(view.sent) + [ControlFrame(old(controls)[0])]
      ensures !ok ==> view.writer.Exited? && done
    {
      hide Do, Steps, WriterRun, Enabled;
      StepAfter(from, before, ByWriter(Receive));
      WriterDoes(view, Receive);
      controls := controls[1..];
      view := Do(view, ByWriter(Receive));
      labels := before + [ByWriter(Receive)];
      ghost var step;
      ok, step := Send();
      StepAfter(from, labels, ByWriter(step));
      labels := labels + [ByWriter(step)];
    }

    // Sends what is queued until the queue is empty or the stream is done.
    method DrainControls(ghost from: State, ghost before: seq<Label>) returns (ghost labels: seq<Label>)
      requires Valid() && view.writer.Draining? && view == Steps(from, before) && WriterRun(from, before)
      modifies this`controls, this`done, this`view
      ensures Valid() && view == Steps(from, labels) && WriterRun(from, labels) && view.writer.Exited? && labels != []
      ensures !done ==> controls == [] && Controls(view.sent) == Controls(old(view.sent)) + old(controls)
    {
      hide Do, WriterRun;
      labels := before;
      ghost var drained: seq<Control> := [];
      while true
        invariant Valid() && view.writer.Draining? && view == Steps(from, labels) && WriterRun(from, labels)
        invariant old(controls) == drained + controls
        invariant Controls(view.sent) == Controls(old(view.sent)) + drained
        decreases |controls|
      {
        if {
          case done =>
            labels := LeaveLoop(from, labels, SeeDone);
            return;
          case controls != [] =>
            ghost var sent, head := view.sent, controls[0];
            var ok;
            ok, labels := ReceiveAndSend(from, labels);
            if !ok { return; }
            assert (sent + [ControlFrame(head)])[..|sent|] == sent;
            drained := drained + [head];
          case !done && controls == [] =>
            labels := LeaveLoop(from, labels, FallThrough);
            return;
        }
      }
    }

    // The step with which the loop ends.
    ghost method LeaveLoop(from: State, before: seq<Label>, step: WriterStep) returns (labels: seq<Label>)
      requires Valid() && view == Steps(from, before) && WriterRun(from, before) && Enabled(view, step)
      requires step.SeeDone? || (step.FallThrough? && view.writer.Draining?)
      modifies this`view
      ensures Valid() && view == old(view).(writer := Exited) && labels != []
      ensures view == Steps(from, labels) && WriterRun(from, labels)
    {
      hide Do, Steps, WriterRun, Enabled;
      StepAfter(from, before, ByWriter(step));
      WriterDoes(view, step);
      view := Do(view, ByWriter(step));
      labels := before + [ByWriter(step)];
    }

    // One turn of the write loop, up to where it waits for work.
    method Turn() returns (r: Progress, ghost labels: seq<Label>)
      requires Valid() && view.writer.First?
      modifies this
      ensures Valid() && view == Steps(old(view), labels) && WriterRun(old(view), labels) && labels != []
      ensures view.writer == WriterAfter(r)
      ensures old(controls) != [] ==>
        && controls == old(controls)[1..]
        && (done || view.sent == old(view.sent) + [ControlFrame(old(controls)[0])])
      ensures old(controls) == [] && !old(done) && !old(finished) && old(stateReady) ==>
        && pending.None? && !stateReady
        && (r.More? && old(pending).Some? ==> view.sent == old(view.sent) + [StateFrame(old(view).pending.value)])
      ensures r.Ended? && !done ==> finished && controls == []
      ensures r.WaitsForWork? ==> controls == [] && !done && !finished && !stateReady
    {
      hide Do, Steps, WriterRun, Enabled, Regresses;
      ghost var from := view;
      labels := [];
      EmptyRun(view);
      TurnGuards(view);
      if controls != [] {
        var ok;
        ok, labels := ReceiveAndSend(from, labels);
        return if ok then More else Ended, labels;
      }
      labels := Advance(from, labels, FallThrough);
      TurnGuards(view);
      if {
        case done =>
          labels := LeaveLoop(from, labels, SeeDone);
          return Ended, labels;
        case finished =>
          labels := Advance(from, labels, SeeFinished);
          labels := DrainControls(from, labels);
          return Ended, labels;
        case !done && !finished =>
      }
      labels := Advance(from, labels, FallThrough);
      r, labels := Wake(from, labels);
    }

    // The blocking select: any case that is ready, or none yet.
    method Wake(ghost from: State, ghost before: seq<Label>) returns (r: Progress, ghost labels: seq<Label>)
      requires Valid() && view.writer.Third? && view == Steps(from, before) && WriterRun(from, before) && before != []
      modifies this
      ensures Valid() && view == Steps(from, labels) && WriterRun(from, labels) && labels != []
      ensures view.writer == WriterAfter(r)
      ensures r.WaitsForWork? <==> old(controls) == [] && !old(done) && !old(finished) && !old(stateReady)
      ensures r.WaitsForWork? ==> view == old(view) && finished == old(finished) && stateReady == old(stateReady)
      ensures r.WaitsForWork? ==> controls == old(controls) && done == old(done)
      ensures r.Ended? && !done ==> finished && controls == []
      ensures old(controls) == [] && !old(done) && !old(finished) && old(stateReady) ==>
        && pending.None? && !stateReady
        && (r.More? && old(pending).Some? ==> view.sent == old(view.sent) + [StateFrame(old(view).pending.value)])
    {
      hide Do, Steps, WriterRun, Enabled, Regresses;
      labels := before;
      TurnGuards(view);
      if {
        case done =>
          labels := LeaveLoop(from, labels, SeeDone);
          return Ended, labels;
        case finished =>
          labels := Advance(from, labels, SeeFinished);
          labels := DrainControls(from, labels);
          return Ended, labels;
        case controls != [] =>
          var ok;
          ok, labels := ReceiveAndSend(from, labels);
          return if ok then More else Ended, labels;
        case stateReady =>
          var more;
          more, labels := TakeAndSend(from, labels);
          return if more then More else Ended, labels;
        case !done && !finished && controls == [] && !stateReady =>
          return WaitsForWork, labels;
      }
    }

    static function WriterAfter(r: Progress): Writer {
      match r
      case More => First
      case Ended => Exited
      case WaitsForWork => Third
    }

    // A signalled state is taken and sent; it may be gone again.
    method TakeAndSend(ghost from: State, ghost before: seq<Label>) returns (more: bool, ghost labels: seq<Label>)
      requires Valid() && view.writer.Third? && stateReady && view == Steps(from, before) && WriterRun(from, before)
      modifies this
      ensures Valid() && view == Steps(from, labels) && WriterRun(from, labels) && labels != []
      ensures view.writer == (if more then First else Exited) && (!more ==> done)
      ensures controls == old(controls) && finished == old(finished) && !stateReady && pending.None?
      ensures more && old(pending).Some? ==>
        view.sent == old(view.sent) + [StateFrame(old(view).pending.value)]
    {
      hide Do, Steps, WriterRun, Enabled;
      TurnGuards(view);
      labels := Advance(from, before, SeeReady);
      stateReady := false;
      TurnGuards(view);
      StepAfter(from, labels, ByWriter(Take));
      var state := TakeState();
      labels := labels + [ByWriter(Take)];
      if state.None? { return true, labels; }
      ghost var step;
      more, step := Send();
      StepAfter(from, labels, ByWriter(step));
      labels := labels + [ByWriter(step)];
    }

    ghost method Advance(from: State, before: seq<Label>, step: WriterStep) returns (labels: seq<Label>)
      requires view == Steps(from, before) && WriterRun(from, before) && Enabled(view, step)
      requires (step.FallThrough? && !view.writer.Draining?) || step.SeeFinished? || step.SeeReady?
      modifies this`view
      ensures view == Steps(from, labels) && WriterRun(from, labels) && labels != []
      ensures step.FallThrough? ==> view == old(view).(writer := if old(view).writer.First? then Second else Third)
      ensures step.SeeFinished? ==> view == old(view).(writer := Draining)
      ensures step.SeeReady? ==> view == old(view).(writer := Taking, ready := false)
    {
      hide Do, Steps, WriterRun, Enabled;
      WriterDoes(view, step);
      StepAfter(from, before, ByWriter(step));
      view := Do(view, ByWriter(step));
      labels := before + [ByWriter(step)];
    }
  }

  lemma ThreeSteps(s: State, a: Label, b: Label, c: Label)
    ensures Steps(s, [a, b, c]) == Do(Do(Do(s, a), b), c)
  {
    hide Do;
    assert [a, b] + [c] == [a, b, c] && [a] + [b] == [a, b] && [] + [a] == [a];
    StepAfter(s, [a, b], c);
    StepAfter(s, [a], b);
    StepAfter(s, [], a);
  }
}
