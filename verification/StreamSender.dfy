/**
 The gateway's stream sender: producers enqueue control messages with back-pressure, submitters replace one
 pending world state, one writer sends, and Finish and Abort end the stream. Every lock, channel operation and
 Send result is a step; a run is a sequence of labels.
 */
module StreamSenders {
  import opened Text

  const CAPACITY := 32

  type Control = nat

  datatype StateVersion = StateVersion(mapId: string, sessionVersion: int, mapEpoch: nat, mapVersion: int)

  predicate Regresses(next: StateVersion, previous: StateVersion) {
    if next.sessionVersion < previous.sessionVersion then true
    else if next.sessionVersion > previous.sessionVersion then false
    else if next.mapEpoch < previous.mapEpoch then true
    else if next.mapEpoch > previous.mapEpoch || next.mapId != previous.mapId then false
    else next.mapVersion < previous.mapVersion
  }

  // A world state; `serial` numbers the accepted submissions.
  datatype Snapshot = Snapshot(version: StateVersion, serial: nat)

  datatype Frame = ControlFrame(control: Control) | StateFrame(state: Snapshot)

  // EnqueueControl: waiting for controlMu, or holding it in the select.
  datatype Producer = Waiting(control: Control) | Holding(control: Control)

  // SubmitState: past the shutdown check, or with the state stored and the signal still to give.
  datatype Submitter = Submitting(version: StateVersion) | Stored

  datatype Finishing = NotFinishing | Begun | Refusing | Cleared | Unsignalled | Closed

  // The writer loop: its three selects, the state hand-over, Send, and the final drain.
  datatype Writer =
    | NotStarted | First | Second | Third | Taking | Sending(frame: Frame, draining: bool) | Draining | Exited

  datatype State = State(
    queue: seq<Control>,
    ready: bool,
    done: bool,
    accepting: bool,
    mutex: Option<nat>,                 // the producer that holds controlMu
    producers: map<nat, Producer>,
    submitters: map<nat, Submitter>,
    finishing: Finishing,
    pending: Option<Snapshot>,
    stored: seq<StateVersion>,          // every submission stored; the last one is latestState
    writer: Writer,
    accepted: seq<Control>,             // every control EnqueueControl answered with true
    sent: seq<Frame>,                   // every frame Send returned nil for
    lost: seq<Control>)                 // the control a failed Send was given

  const INIT := State([], false, false, true, None, map[], map[], NotFinishing, None, [], NotStarted, [], [], [])

  predicate Finished(s: State) { s.finishing.Closed? }

  datatype ProducerStep = Arrive(control: Control) | Lock | Enqueue | GiveUp
  datatype SubmitStep = Submit(version: StateVersion) | Store | Signal
  datatype FinishStep = Begin | Refuse | ClearPending | ClearSignal | Close
  datatype WriterStep = Start | Receive | FallThrough | SeeDone | SeeFinished | SeeReady | Take | SendOk | SendFails

  datatype Label =
    | ByProducer(p: nat, producer: ProducerStep)
    | BySubmitter(u: nat, submit: SubmitStep)
    | ByFinish(finish: FinishStep)
    | ByWriter(write: WriterStep)
    | Abort

  function DoProducer(s: State, p: nat, step: ProducerStep): State {
    match step
    case Arrive(c) => if p in s.producers then s else s.(producers := s.producers[p := Waiting(c)])
    case Lock =>
      if p in s.producers && s.producers[p].Waiting? && s.mutex.None?
      then s.(mutex := if s.accepting then Some(p) else None,
              producers := if s.accepting then s.producers[p := Holding(s.producers[p].control)] else s.producers - {p})
      else s
    case Enqueue =>
      if p in s.producers && s.producers[p].Holding? && |s.queue| < CAPACITY
      then s.(mutex := None, producers := s.producers - {p},
              queue := s.queue + [s.producers[p].control], accepted := s.accepted + [s.producers[p].control])
      else s
    case GiveUp =>
      if p in s.producers && s.producers[p].Holding? && s.done
      then s.(mutex := None, producers := s.producers - {p}) else s
  }

  predicate Replaces(s: State, version: StateVersion) {
    s.stored == [] || !Regresses(version, s.stored[|s.stored| - 1])
  }

  function DoSubmit(s: State, u: nat, step: SubmitStep): State {
    match step
    case Submit(version) =>
      if s.done || Finished(s) || u in s.submitters then s
      else s.(submitters := s.submitters[u := Submitting(version)])
    case Store =>
      if u in s.submitters && s.submitters[u].Submitting?
      then
        var version := s.submitters[u].version;
        var keep := Replaces(s, version);
        s.(pending := if keep then Some(Snapshot(version, |s.stored|)) else s.pending,
           stored := if keep then s.stored + [version] else s.stored,
           submitters := if keep then s.submitters[u := Stored] else s.submitters - {u})
      else s
    case Signal =>
      if u in s.submitters && s.submitters[u].Stored?
      then s.(ready := true, submitters := s.submitters - {u}) else s
  }

  function DoFinish(s: State, step: FinishStep): State {
    match (s.finishing, step)
    case (NotFinishing, Begin) => s.(finishing := Begun)
    case (Begun, Refuse) => if s.mutex.None? then s.(finishing := Refusing, accepting := false) else s
    case (Refusing, ClearPending) => s.(finishing := Cleared, pending := None)
    case (Cleared, ClearSignal) => s.(finishing := Unsignalled, ready := false)
    case (Unsignalled, Close) => s.(finishing := Closed)
    case _ => s
  }

  // A default branch is taken only where no other case of the select is ready.
  predicate Enabled(s: State, step: WriterStep) {
    match (s.writer, step)
    case (NotStarted, Start) => true
    case (First, Receive) => s.queue != []
    case (First, FallThrough) => s.queue == []
    case (Second, SeeDone) => s.done
    case (Second, SeeFinished) => Finished(s)
    case (Second, FallThrough) => !s.done && !Finished(s)
    case (Third, SeeDone) => s.done
    case (Third, SeeFinished) => Finished(s)
    case (Third, Receive) => s.queue != []
    case (Third, SeeReady) => s.ready
    case (Taking, Take) => true
    case (Sending(_, _), SendOk) => true
    case (Sending(_, _), SendFails) => true
    case (Draining, SeeDone) => s.done
    case (Draining, Receive) => s.queue != []
    case (Draining, FallThrough) => !s.done && s.queue == []
    case _ => false
  }

  function DoWriter(s: State, step: WriterStep): State {
    if !Enabled(s, step) then s
    else
      match step
      case Start => s.(writer := First)
      case Receive => s.(writer := Sending(ControlFrame(s.queue[0]), s.writer.Draining?), queue := s.queue[1..])
      case FallThrough => s.(writer := if s.writer.First? then Second else if s.writer.Second? then Third else Exited)
      case SeeDone => s.(writer := Exited)
      case SeeFinished => s.(writer := Draining)
      case SeeReady => s.(writer := Taking, ready := false)
      case Take =>
        s.(pending := None, writer := if s.pending.None? then First else Sending(StateFrame(s.pending.value), false))
      case SendOk =>
        s.(sent := s.sent + [s.writer.frame], writer := if s.writer.draining then Draining else First)
      case SendFails =>
        s.(done := true, writer := Exited,
           lost := if s.writer.frame.ControlFrame? then [s.writer.frame.control] else [])
  }

  function Do(s: State, l: Label): State {
    match l
    case ByProducer(p, step) => DoProducer(s, p, step)
    case BySubmitter(u, step) => DoSubmit(s, u, step)
    case ByFinish(step) => DoFinish(s, step)
    case ByWriter(step) => DoWriter(s, step)
    case Abort => s.(done := true)
  }

  function Run(labels: seq<Label>): State {
    if labels == [] then INIT else Do(Run(labels[..|labels| - 1]), labels[|labels| - 1])
  }

  // ---- control messages: first in, first out, none lost ----

  function Controls(frames: seq<Frame>): seq<Control> {
    if frames == [] then []
    else
      Controls(frames[..|frames| - 1]) +
      if frames[|frames| - 1].ControlFrame? then [frames[|frames| - 1].control] else []
  }

  function InHand(writer: Writer): seq<Control> {
    if writer.Sending? && writer.frame.ControlFrame? then [writer.frame.control] else []
  }

  predicate Fifo(s: State) {
    Controls(s.sent) + InHand(s.writer) + s.lost + s.queue == s.accepted
  }

  ghost predicate MutexOk(s: State) {
    && (forall p | p in s.producers && s.producers[p].Holding? :: s.mutex == Some(p))
    && (s.mutex.Some? ==> s.mutex.value in s.producers && s.producers[s.mutex.value].Holding? && s.accepting)
    && (s.accepting <==> s.finishing.NotFinishing? || s.finishing.Begun?)
  }

  predicate WriterOk(s: State) {
    && |s.queue| <= CAPACITY
    && (s.lost != [] ==> s.writer.Exited? && s.done)
    && (s.writer.Draining? || (s.writer.Sending? && s.writer.draining) ==> Finished(s))
    && (s.writer.Exited? && !s.done ==> Finished(s) && s.queue == [] && s.lost == [])
  }

  ghost predicate Good(s: State) { Fifo(s) && MutexOk(s) && WriterOk(s) }

  lemma ControlsOfOneMore(frames: seq<Frame>, frame: Frame)
    ensures Controls(frames + [frame]) == Controls(frames) + if frame.ControlFrame? then [frame.control] else []
  {
    assert (frames + [frame])[..|frames|] == frames;
  }

  lemma WriterKeepsFifo(s: State, step: WriterStep)
    requires Fifo(s) && WriterOk(s)
    ensures Fifo(DoWriter(s, step))
  {
    hide Controls;
    var t := DoWriter(s, step);
    if Enabled(s, step) {
      if step.SendOk? {
        ControlsOfOneMore(s.sent, s.writer.frame);
        assert Controls(t.sent) == Controls(s.sent) + InHand(s.writer);
      } else if step.Receive? {
        ReceivingKeepsFifo(s);
      }
    }
  }

  lemma ReceivingKeepsFifo(s: State)
    requires Fifo(s) && WriterOk(s) && Enabled(s, Receive)
    ensures Fifo(DoWriter(s, Receive))
  {
    hide Controls;
    assert s.queue == [s.queue[0]] + s.queue[1..] && s.lost == [] && InHand(s.writer) == [];
    assert Controls(s.sent) + [s.queue[0]] + s.queue[1..] == Controls(s.sent) + s.queue;
  }

  lemma WriterKeepsTheRest(s: State, step: WriterStep)
    requires MutexOk(s) && WriterOk(s)
    ensures MutexOk(DoWriter(s, step)) && WriterOk(DoWriter(s, step))
  {
  }

  lemma ProducerKeepsGood(s: State, p: nat, step: ProducerStep)
    requires Good(s)
    ensures Good(DoProducer(s, p, step))
  {
    var before := Controls(s.sent) + InHand(s.writer) + s.lost;
    if step.Enqueue? && DoProducer(s, p, step) != s {
      var c := s.producers[p].control;
      assert before + (s.queue + [c]) == (before + s.queue) + [c];
    }
  }

  lemma SubmitKeepsGood(s: State, u: nat, step: SubmitStep)
    requires Good(s)
    ensures Good(DoSubmit(s, u, step))
  {
  }

  lemma AbortKeepsGood(s: State)
    requires Good(s)
    ensures Good(s.(done := true))
  {
  }

  lemma FinishKeepsGood(s: State, step: FinishStep)
    requires Good(s)
    ensures Good(DoFinish(s, step))
  {
  }

  lemma StepKeepsGood(s: State, l: Label)
    requires Good(s)
    ensures Good(Do(s, l))
  {
    hide Fifo, MutexOk, DoProducer, DoSubmit, DoFinish, DoWriter;
    match l
    case ByProducer(p, step) => ProducerKeepsGood(s, p, step);
    case BySubmitter(u, step) => SubmitKeepsGood(s, u, step);
    case ByFinish(step) => FinishKeepsGood(s, step);
    case ByWriter(step) =>
      WriterKeepsFifo(s, step);
      WriterKeepsTheRest(s, step);
    case Abort => AbortKeepsGood(s);
  }

  lemma {:induction false} RunsAreGood(labels: seq<Label>)
    ensures Good(Run(labels))
  {
    hide Do;
    if labels != [] {
      RunsAreGood(labels[..|labels| - 1]);
      StepKeepsGood(Run(labels[..|labels| - 1]), labels[|labels| - 1]);
    }
  }

  // At every moment the accepted controls are those sent, the one in hand, the one a failed Send was given, and
  // those queued, in acceptance order.
  lemma ControlsStayInOrder(labels: seq<Label>)
    ensures var s := Run(labels);
            Controls(s.sent) + InHand(s.writer) + s.lost + s.queue == s.accepted && (s.lost != [] ==> s.done)
  {
    hide Do;
    RunsAreGood(labels);
  }

  // A writer that ended without an abort has sent all that was ever accepted, and nothing is accepted any more.
  lemma CleanExitSentEverything(labels: seq<Label>, more: seq<Label>)
    ensures var s := Run(labels);
            s.writer.Exited? && !s.done ==> Controls(s.sent) == s.accepted && Run(labels + more).accepted == s.accepted
  {
    hide Do;
    RunsAreGood(labels);
    var s := Run(labels);
    if s.writer.Exited? && !s.done { RefusingIsFinal(labels, more); }
  }

  lemma {:induction false} RefusingIsFinal(labels: seq<Label>, more: seq<Label>)
    requires !Run(labels).accepting
    ensures Run(labels + more).accepted == Run(labels).accepted && !Run(labels + more).accepting
  {
    hide Do, Fifo, WriterOk, MutexOk;
    if more == [] {
      assert labels + more == labels;
    } else {
      var last := |more| - 1;
      var all := labels + more;
      assert all[..|all| - 1] == labels + more[..last] && all[|all| - 1] == more[last];
      RefusingIsFinal(labels, more[..last]);
      RunsAreGood(labels + more[..last]);
      RefusingStep(Run(labels + more[..last]), more[last]);
    }
  }

  lemma RefusingStep(s: State, l: Label)
    requires MutexOk(s) && !s.accepting
    ensures Do(s, l).accepted == s.accepted && !Do(s, l).accepting
  {
    hide Replaces, DoWriter;
    if l.ByWriter? { WriterAcceptsNothing(s, l.write); }
  }

  lemma WriterAcceptsNothing(s: State, step: WriterStep)
    ensures DoWriter(s, step).accepted == s.accepted && DoWriter(s, step).accepting == s.accepting
  {
    hide Enabled;
  }

  // ---- no producer is stranded ----

  // A started writer, before the stream is done, is inside Send or can move whenever a producer is blocked on
  // the full queue; and Finish, which waits for that producer, has not closed anything yet.
  lemma BlockedProducerIsNotStranded(labels: seq<Label>, p: nat)
    ensures var s := Run(labels);
            p in s.producers && s.producers[p].Holding? && |s.queue| == CAPACITY && !s.writer.NotStarted? && !s.done ==>
              && !Finished(s)
              && (s.writer.Sending? || exists step :: Enabled(s, step))
  {
    hide Do;
    RunsAreGood(labels);
    var s := Run(labels);
    if s.writer.First? || s.writer.Third? {
      assert s.queue != [] ==> Enabled(s, Receive);
    } else if s.writer.Second? {
      assert Enabled(s, FallThrough) || Enabled(s, SeeDone) || Enabled(s, SeeFinished);
    } else if s.writer.Taking? {
      assert Enabled(s, Take);
    } else if s.writer.Draining? {
      assert Enabled(s, Receive) || Enabled(s, SeeDone) || Enabled(s, FallThrough);
    }
  }

  function Distance(writer: Writer): nat {
    match writer
    case Second => 5
    case Third => 4
    case Taking => 3
    case Sending(_, _) => 2
    case _ => 1
  }

  // While controls are queued, each step of the writer takes one from the queue, ends the loop, or brings it
  // closer to doing so; nobody else's step moves it away.
  lemma WriterApproachesTheQueue(s: State, l: Label)
    requires s.queue != [] && !s.writer.NotStarted? && !s.writer.Exited? && Do(s, l) != s
    ensures var t := Do(s, l);
            if l.ByWriter? then |t.queue| < |s.queue| || t.writer.Exited? || Distance(t.writer) < Distance(s.writer)
            else |t.queue| >= |s.queue| && t.writer == s.writer
  {
    hide DoProducer, DoSubmit, DoFinish, DoWriter;
    match l
    case ByWriter(step) => WriterMovesOn(s, step);
    case ByProducer(_, _) => OthersOnlyLengthen(s, l);
    case BySubmitter(_, _) => OthersOnlyLengthen(s, l);
    case ByFinish(_) => OthersOnlyLengthen(s, l);
    case Abort =>
  }

  lemma WriterMovesOn(s: State, step: WriterStep)
    requires s.queue != [] && !s.writer.NotStarted? && !s.writer.Exited? && DoWriter(s, step) != s
    ensures var t := DoWriter(s, step);
            |t.queue| < |s.queue| || t.writer.Exited? || Distance(t.writer) < Distance(s.writer)
  {
  }

  lemma OthersOnlyLengthen(s: State, l: Label)
    requires !l.ByWriter?
    ensures |Do(s, l).queue| >= |s.queue| && Do(s, l).writer == s.writer
  {
    hide DoProducer, DoSubmit, DoFinish;
    match l
    case ByProducer(p, step) => ProducerTouches(s, p, step);
    case BySubmitter(u, step) => SubmitterTouches(s, u, step);
    case ByFinish(step) => FinishTouches(s, step);
    case Abort =>
  }

  lemma ProducerTouches(s: State, p: nat, step: ProducerStep)
    ensures var t := DoProducer(s, p, step);
            |t.queue| >= |s.queue|
            && t == s.(mutex := t.mutex, producers := t.producers, queue := t.queue, accepted := t.accepted)
  {
  }

  lemma SubmitterTouches(s: State, u: nat, step: SubmitStep)
    ensures var t := DoSubmit(s, u, step);
            t == s.(submitters := t.submitters, pending := t.pending, stored := t.stored, ready := t.ready)
  {
  }

  lemma FinishTouches(s: State, step: FinishStep)
    ensures var t := DoFinish(s, step);
            (t.pending == s.pending || t.pending.None?)
            && t == s.(finishing := t.finishing, accepting := t.accepting, pending := t.pending, ready := t.ready)
  {
  }

  // Once Finish has closed the stream, every step of the drain shortens it and no other step lengthens it.
  function DrainMeasure(s: State): nat {
    2 * |s.queue| + if s.writer.Sending? then 2 else if s.writer.Draining? then 1 else 0
  }

  predicate IsDraining(writer: Writer) { writer.Draining? || (writer.Sending? && writer.draining) }

  lemma DrainTerminates(labels: seq<Label>, l: Label)
    ensures var s := Run(labels);
            IsDraining(s.writer) && Do(s, l) != s ==>
              if l.ByWriter? then DrainMeasure(Do(s, l)) < DrainMeasure(s) else DrainMeasure(Do(s, l)) == DrainMeasure(s)
  {
    hide Do;
    RunsAreGood(labels);
    var s := Run(labels);
    if IsDraining(s.writer) && Do(s, l) != s { DrainStepShortens(s, l); }
  }

  lemma DrainStepShortens(s: State, l: Label)
    requires MutexOk(s) && WriterOk(s) && IsDraining(s.writer) && Do(s, l) != s
    ensures if l.ByWriter? then DrainMeasure(Do(s, l)) < DrainMeasure(s) else DrainMeasure(Do(s, l)) == DrainMeasure(s)
  {
  }

  // ---- state frames: newest first, never back ----

  // The state frames in the order in which their submissions were stored.
  predicate Serials(frames: seq<Frame>, below: nat) {
    if frames == [] then true
    else
      match frames[|frames| - 1]
      case ControlFrame(_) => Serials(frames[..|frames| - 1], below)
      case StateFrame(x) => x.serial < below && Serials(frames[..|frames| - 1], x.serial)
  }

  // Where the next state frame must begin: after the frame in Send, if that is a state.
  function Outgoing(s: State): seq<Frame> {
    if s.writer.Sending? then s.sent + [s.writer.frame] else s.sent
  }

  function Below(stored: seq<StateVersion>, pending: Option<Snapshot>): nat {
    if pending.Some? then pending.value.serial else |stored|
  }

  ghost predicate Authentic(frames: seq<Frame>, stored: seq<StateVersion>) {
    forall f | f in frames && f.StateFrame? :: f.state.serial < |stored| && f.state.version == stored[f.state.serial]
  }

  ghost predicate Stepwise(stored: seq<StateVersion>) {
    forall k: nat | k + 1 < |stored| :: !Regresses(stored[k + 1], stored[k])
  }

  // The outgoing state frames, then the pending one, are stored submissions in their order.
  ghost predicate Ordered(stored: seq<StateVersion>, pending: Option<Snapshot>, out: seq<Frame>) {
    && Stepwise(stored)
    && Authentic(out, stored)
    && Serials(out, Below(stored, pending))
    && (pending.Some? ==> stored != [] && pending.value == Snapshot(stored[|stored| - 1], |stored| - 1))
  }

  ghost predicate StatesOk(s: State) {
    Ordered(s.stored, s.pending, Outgoing(s))
  }

  lemma {:induction false} SerialsMonotone(frames: seq<Frame>, below: nat, above: nat)
    requires Serials(frames, below) && below <= above
    ensures Serials(frames, above)
  {
    if frames != [] && frames[|frames| - 1].ControlFrame? { SerialsMonotone(frames[..|frames| - 1], below, above); }
  }

  lemma SerialsPrefix(frames: seq<Frame>, last: Frame, below: nat)
    requires Serials(frames + [last], below)
    ensures Serials(frames, below)
  {
    assert (frames + [last])[..|frames + [last]| - 1] == frames;
    if last.StateFrame? { SerialsMonotone(frames, last.state.serial, below); }
  }

  lemma WriterKeepsStates(s: State, step: WriterStep)
    requires StatesOk(s)
    ensures StatesOk(DoWriter(s, step))
  {
    hide Ordered;
    DroppingPendingKeepsOrder(s.stored, s.pending, Outgoing(s));
    if Enabled(s, step) {
      match step
      case Receive => ControlKeepsOrder(s.stored, s.pending, s.sent, s.queue[0]);
      case Take => if s.pending.Some? { TakingKeepsOrder(s.stored, s.pending, s.sent); }
      case SendFails => FailingKeepsOrder(s.stored, s.pending, s.sent, s.writer.frame);
      case _ =>
    }
  }

  lemma ControlKeepsOrder(stored: seq<StateVersion>, pending: Option<Snapshot>, out: seq<Frame>, c: Control)
    requires Ordered(stored, pending, out)
    ensures Ordered(stored, pending, out + [ControlFrame(c)])
  {
    var all := out + [ControlFrame(c)];
    assert all[..|all| - 1] == out;
  }

  lemma TakingKeepsOrder(stored: seq<StateVersion>, pending: Option<Snapshot>, out: seq<Frame>)
    requires Ordered(stored, pending, out) && pending.Some?
    ensures Ordered(stored, None, out + [StateFrame(pending.value)])
  {
    var all := out + [StateFrame(pending.value)];
    assert all[..|all| - 1] == out;
  }

  lemma FailingKeepsOrder(stored: seq<StateVersion>, pending: Option<Snapshot>, out: seq<Frame>, last: Frame)
    requires Ordered(stored, pending, out + [last])
    ensures Ordered(stored, pending, out)
  {
    SerialsPrefix(out, last, Below(stored, pending));
    forall f | f in out && f.StateFrame? ensures f in out + [last] {}
  }

  lemma DroppingPendingKeepsOrder(stored: seq<StateVersion>, pending: Option<Snapshot>, out: seq<Frame>)
    requires Ordered(stored, pending, out)
    ensures Ordered(stored, None, out)
  {
    SerialsMonotone(out, Below(stored, pending), |stored|);
  }

  lemma StoringKeepsOrder(stored: seq<StateVersion>, pending: Option<Snapshot>, out: seq<Frame>, version: StateVersion)
    requires Ordered(stored, pending, out)
    requires stored == [] || !Regresses(version, stored[|stored| - 1])
    ensures Ordered(stored + [version], Some(Snapshot(version, |stored|)), out)
  {
    DroppingPendingKeepsOrder(stored, pending, out);
  }

  lemma SubmitKeepsStates(s: State, u: nat, step: SubmitStep)
    requires StatesOk(s)
    ensures StatesOk(DoSubmit(s, u, step))
  {
    hide Ordered;
    if step.Store? && u in s.submitters && s.submitters[u].Submitting? && Replaces(s, s.submitters[u].version) {
      StoringKeepsOrder(s.stored, s.pending, Outgoing(s), s.submitters[u].version);
    }
  }

  lemma OthersKeepStates(s: State, l: Label)
    requires StatesOk(s) && !l.ByWriter? && !l.BySubmitter?
    ensures StatesOk(Do(s, l))
  {
    hide Ordered, DoProducer, DoFinish;
    DroppingPendingKeepsOrder(s.stored, s.pending, Outgoing(s));
    match l
    case ByProducer(p, step) => ProducerTouches(s, p, step);
    case ByFinish(step) => FinishTouches(s, step);
    case Abort =>
  }

  lemma StepKeepsStates(s: State, l: Label)
    requires StatesOk(s)
    ensures StatesOk(Do(s, l))
  {
    hide StatesOk, DoProducer, DoSubmit, DoFinish, DoWriter;
    match l
    case ByWriter(step) => WriterKeepsStates(s, step);
    case BySubmitter(u, step) => SubmitKeepsStates(s, u, step);
    case _ => OthersKeepStates(s, l);
  }

  lemma {:induction false} StatesAreOk(labels: seq<Label>)
    ensures StatesOk(Run(labels))
  {
    hide Do;
    if labels != [] {
      StatesAreOk(labels[..|labels| - 1]);
      StepKeepsStates(Run(labels[..|labels| - 1]), labels[|labels| - 1]);
    }
  }

  lemma {:induction false} SerialsIncrease(frames: seq<Frame>, below: nat, i: nat, j: nat)
    requires Serials(frames, below) && i < j < |frames| && frames[i].StateFrame? && frames[j].StateFrame?
    ensures frames[i].state.serial < frames[j].state.serial < below
  {
    var rest := frames[..|frames| - 1];
    if j < |frames| - 1 {
      SerialsIncrease(rest, if frames[|frames| - 1].StateFrame? then frames[|frames| - 1].state.serial else below, i, j);
    } else {
      SerialBelow(rest, frames[j].state.serial, i);
    }
  }

  lemma {:induction false} SerialBelow(frames: seq<Frame>, below: nat, i: nat)
    requires Serials(frames, below) && i < |frames| && frames[i].StateFrame?
    ensures frames[i].state.serial < below
  {
    if i < |frames| - 1 {
      SerialBelow(frames[..|frames| - 1], if frames[|frames| - 1].StateFrame? then frames[|frames| - 1].state.serial else below, i);
    }
  }

  // (session version, map epoch), ordered lexicographically
  predicate Behind(next: StateVersion, previous: StateVersion) {
    next.sessionVersion < previous.sessionVersion
    || (next.sessionVersion == previous.sessionVersion && next.mapEpoch < previous.mapEpoch)
  }

  predicate SameRoute(a: StateVersion, b: StateVersion) {
    a.sessionVersion == b.sessionVersion && a.mapEpoch == b.mapEpoch
  }

  ghost predicate OtherMapBetween(stored: seq<StateVersion>, i: nat, j: nat) {
    exists k | i < k < j < |stored| :: SameRoute(stored[k], stored[i]) && stored[k].mapId != stored[i].mapId
  }

  // Stepwise acceptance never goes back in (session, epoch); it goes back in the map's version only across
  // another map of the same session and epoch.
  lemma {:induction false} StepwiseNeverGoesBack(stored: seq<StateVersion>, i: nat, j: nat)
    requires Stepwise(stored) && i < j < |stored|
    ensures !Behind(stored[j], stored[i])
    ensures Regresses(stored[j], stored[i]) ==> OtherMapBetween(stored, i, j)
  {
    assert !Regresses(stored[j - 1 + 1], stored[j - 1]);
    if i < j - 1 {
      StepwiseNeverGoesBack(stored, i, j - 1);
      if Regresses(stored[j], stored[i]) {
        assert SameRoute(stored[j - 1], stored[i]);
        if stored[j - 1].mapId == stored[i].mapId {
          var k :| i < k < j - 1 < |stored| && SameRoute(stored[k], stored[i]) && stored[k].mapId != stored[i].mapId;
        }
      }
    }
  }

  // No submission of another map in the same session and epoch lies between two of one map that go back.
  predicate NoDetour(versions: set<StateVersion>) {
    forall a, b, c | a in versions && b in versions && c in versions && SameRoute(a, b) && SameRoute(a, c) ::
      a.mapId == c.mapId != b.mapId ==> c.mapVersion >= a.mapVersion
  }

  predicate Forward(stored: seq<StateVersion>) {
    forall i, j | 0 <= i < j < |stored| :: !Regresses(stored[j], stored[i])
  }

  ghost predicate AlwaysForward(versions: set<StateVersion>) {
    forall stored | Stepwise(stored) && (forall x | x in stored :: x in versions) :: Forward(stored)
  }

  // The comparison with the latest submission alone keeps all submissions in order exactly when there is no detour.
  lemma AlwaysForwardIffNoDetour(versions: set<StateVersion>)
    ensures AlwaysForward(versions) <==> NoDetour(versions)
  {
    if NoDetour(versions) {
      forall stored | Stepwise(stored) && (forall x | x in stored :: x in versions) ensures Forward(stored) {
        StepwiseFromIsForward(stored, versions);
      }
    }
    if AlwaysForward(versions) {
      forall a, b, c | a in versions && b in versions && c in versions && SameRoute(a, b) && SameRoute(a, c)
        ensures a.mapId == c.mapId != b.mapId ==> c.mapVersion >= a.mapVersion
      {
        if a.mapId == c.mapId != b.mapId {
          assert Stepwise([a, b, c]) && Forward([a, b, c]);
          assert !Regresses([a, b, c][2], [a, b, c][0]);
        }
      }
    }
  }

  lemma StepwiseFromIsForward(stored: seq<StateVersion>, versions: set<StateVersion>)
    requires Stepwise(stored) && NoDetour(versions) && forall x | x in stored :: x in versions
    ensures Forward(stored)
  {
    forall i, j | 0 <= i < j < |stored| ensures !Regresses(stored[j], stored[i]) {
      StepwiseNeverGoesBack(stored, i, j);
      if Regresses(stored[j], stored[i]) {
        var k :| i < k < j < |stored| && SameRoute(stored[k], stored[i]) && stored[k].mapId != stored[i].mapId;
        assert stored[i] in versions && stored[k] in versions && stored[j] in versions;
        assert SameRoute(stored[i], stored[k]) && SameRoute(stored[i], stored[j]);
        assert false;
      }
    }
  }

  // For any two state frames of a stream, however many submissions were merged away between them.
  lemma StateFramesNeverGoBack(labels: seq<Label>, i: nat, j: nat)
    ensures var s := Run(labels);
            i < j < |s.sent| && s.sent[i].StateFrame? && s.sent[j].StateFrame? ==>
              && !Behind(s.sent[j].state.version, s.sent[i].state.version)
              && (NoDetour(set x | x in s.stored) ==> !Regresses(s.sent[j].state.version, s.sent[i].state.version))
  {
    hide Do, Regresses, NoDetour;
    var s := Run(labels);
    StatesAreOk(labels);
    if i < j < |s.sent| && s.sent[i].StateFrame? && s.sent[j].StateFrame? {
      var out := Outgoing(s);
      assert out[i] == s.sent[i] && out[j] == s.sent[j] && out[i] in out && out[j] in out;
      SerialsIncrease(out, Below(s.stored, s.pending), i, j);
      StepwiseNeverGoesBack(s.stored, out[i].state.serial, out[j].state.serial);
      if NoDetour(set x | x in s.stored) { StepwiseFromIsForward(s.stored, set x | x in s.stored); }
    }
  }
}
