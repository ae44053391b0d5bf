/** The outbound WebSocket writer of the candidate chat
    (backend/internal/interview/api/chat_handler.go): any number of senders and closers and
    one writer goroutine share a mutex, a bounded channel, a `closed` flag and a cancellable
    context. Each atomic action of the source is one step; a run is any interleaving.

    A frame is named by the index of the `send` call that carries it. */
module WsWriter {
  import opened Prelude

  const CAPACITY: nat := 64

  /** `close` cancels before it locks. `LockFirst` is the order the D18 comment warns about; it
      exists here only so that the warning can be proved (see `LockFirstDeadlocks`). */
  datatype Order = CancelFirst | LockFirst

  datatype SenderPc = Calling | Checking | Selecting | Unlocking | Returned

  datatype CloserPc = Called | AwaitLock | Locked | Closing | Releasing | AwaitDone | Finished

  datatype WriterPc = Receiving | Writing(frame: nat) | Exiting | Stopped

  datatype Owner = Nobody | Sender(i: nat) | Closer(j: nat)

  /** `accepted`, `written` and `lost` are histories: frames put on the channel, frames written to
      the socket, and the frame whose write failed. `panicked` records a send on, or a second
      close of, a closed channel. */
  datatype State = State(
    order: Order,
    senders: seq<SenderPc>,
    closers: seq<CloserPc>,
    writer: WriterPc,
    mu: Owner,
    closed: bool,
    cancelled: bool,
    buffer: seq<nat>,
    chClosed: bool,
    panicked: bool,
    accepted: seq<nat>,
    written: seq<nat>,
    lost: seq<nat>)

  datatype Step =
    | SendLock(i: nat) | SendCheck(i: nat) | SendPut(i: nat) | SendAbort(i: nat) | SendUnlock(i: nat)
    | CloseCancel(j: nat) | CloseLock(j: nat) | CloseCheck(j: nat) | CloseChannel(j: nat)
    | CloseUnlock(j: nat) | CloseReturn(j: nat)
    | Receive | WriteOk | WriteFail | Stop
    | OuterCancel // the handshake context is cancelled from outside

  function Init(order: Order, sends: nat, closes: nat): State {
    State(order, seq(sends, _ => Calling), seq(closes, _ => Called), Receiving, Nobody,
          false, false, [], false, false, [], [], [])
  }

  predicate SenderAt(s: State, i: nat, pc: SenderPc) {
    i < |s.senders| && s.senders[i] == pc
  }

  predicate CloserAt(s: State, j: nat, pc: CloserPc) {
    j < |s.closers| && s.closers[j] == pc
  }

  predicate Enabled(s: State, step: Step) {
    && !s.panicked
    && match step {
         case SendLock(i) => SenderAt(s, i, Calling) && s.mu == Nobody
         case SendCheck(i) => SenderAt(s, i, Checking)
         case SendPut(i) => SenderAt(s, i, Selecting) && (s.chClosed || |s.buffer| < CAPACITY)
         case SendAbort(i) => SenderAt(s, i, Selecting) && s.cancelled
         case SendUnlock(i) => SenderAt(s, i, Unlocking)
         case CloseCancel(j) => CloserAt(s, j, Called) && s.order == CancelFirst
         case CloseLock(j) =>
           && s.mu == Nobody
           && CloserAt(s, j, if s.order == CancelFirst then AwaitLock else Called)
         case CloseCheck(j) => CloserAt(s, j, Locked)
         case CloseChannel(j) => CloserAt(s, j, Closing)
         case CloseUnlock(j) => CloserAt(s, j, Releasing)
         case CloseReturn(j) => CloserAt(s, j, AwaitDone) && s.writer == Stopped
         case Receive => s.writer == Receiving && (s.buffer != [] || s.chClosed)
         case WriteOk => s.writer.Writing?
         case WriteFail => s.writer.Writing?
         case Stop => s.writer == Exiting
         case OuterCancel => !s.cancelled
       }
  }

  function MoveSender(s: State, i: nat, pc: SenderPc): State
    requires i < |s.senders|
  {
    s.(senders := s.senders[i := pc])
  }

  function MoveCloser(s: State, j: nat, pc: CloserPc): State
    requires j < |s.closers|
  {
    s.(closers := s.closers[j := pc])
  }

  function Apply(s: State, step: Step): State
    requires Enabled(s, step)
  {
    match step {
      case SendLock(i) => MoveSender(s, i, Checking).(mu := Sender(i))
      case SendCheck(i) => MoveSender(s, i, if s.closed || s.cancelled then Unlocking else Selecting)
      case SendPut(i) =>
        if s.chClosed then s.(panicked := true)
        else MoveSender(s, i, Unlocking).(buffer := s.buffer + [i], accepted := s.accepted + [i])
      case SendAbort(i) => MoveSender(s, i, Unlocking)
      case SendUnlock(i) => MoveSender(s, i, Returned).(mu := Nobody)
      case CloseCancel(j) => MoveCloser(s, j, AwaitLock).(cancelled := true)
      // Under LockFirst the lock and the cancellation are one step: finer steps only deadlock more.
      case CloseLock(j) => MoveCloser(s, j, Locked).(mu := Closer(j), cancelled := s.cancelled || s.order == LockFirst)
      case CloseCheck(j) =>
        if s.closed then MoveCloser(s, j, Releasing) else MoveCloser(s, j, Closing).(closed := true)
      case CloseChannel(j) =>
        if s.chClosed then s.(panicked := true) else MoveCloser(s, j, Releasing).(chClosed := true)
      case CloseUnlock(j) => MoveCloser(s, j, AwaitDone).(mu := Nobody)
      case CloseReturn(j) => MoveCloser(s, j, Finished)
      case Receive =>
        if s.buffer != [] then s.(writer := Writing(s.buffer[0]), buffer := s.buffer[1..])
        else s.(writer := Exiting)
      case WriteOk => s.(writer := Receiving, written := s.written + [s.writer.frame])
      case WriteFail => s.(writer := Exiting, lost := [s.writer.frame])
      case Stop => s.(writer := Stopped)
      case OuterCancel => s.(cancelled := true)
    }
  }

  /** The state after a run, or None when some step of it is not enabled. */
  function Exec(s: State, run: seq<Step>): Option<State>
    decreases |run|
  {
    if run == [] then Some(s)
    else if Enabled(s, run[0]) then Exec(Apply(s, run[0]), run[1..])
    else None
  }

  lemma {:induction false} ExecAppend(s: State, first: seq<Step>, second: seq<Step>)
    requires Exec(s, first).Some?
    ensures Exec(s, first + second) == Exec(Exec(s, first).value, second)
    decreases |first|
  {
    if first == [] {
      assert first + second == second;
    } else {
      assert (first + second)[1..] == first[1..] + second;
      ExecAppend(Apply(s, first[0]), first[1..], second);
    }
  }

  // ---------------------------------------------------------------- safety

  predicate SenderHolds(pc: SenderPc) { pc in {Checking, Selecting, Unlocking} }

  predicate CloserHolds(pc: CloserPc) { pc in {Locked, Closing, Releasing} }

  function InFlight(w: WriterPc): seq<nat> { if w.Writing? then [w.frame] else [] }

  ghost predicate Mutex(s: State) {
    && (forall i: nat | i < |s.senders| :: SenderHolds(s.senders[i]) <==> s.mu == Sender(i))
    && (forall j: nat | j < |s.closers| :: CloserHolds(s.closers[j]) <==> s.mu == Closer(j))
    && (s.mu.Sender? ==> s.mu.i < |s.senders|)
    && (s.mu.Closer? ==> s.mu.j < |s.closers|)
  }

  ghost predicate Teardown(s: State) {
    && (s.chClosed ==> s.closed)
    && (s.closed && !s.chClosed ==> s.mu.Closer? && CloserAt(s, s.mu.j, Closing))
    && (forall i: nat | i < |s.senders| && s.senders[i] == Selecting :: !s.closed)
    && (forall j: nat | j < |s.closers| ::
          && (s.closers[j] != Called ==> s.cancelled)
          && (s.closers[j] == Closing ==> s.closed && !s.chClosed)
          && (s.closers[j] in {Releasing, AwaitDone, Finished} ==> s.chClosed)
          && (s.closers[j] == Finished ==> s.writer == Stopped))
  }

  /** Every accepted frame is written, lost, in the writer's hands or buffered, in this order. */
  predicate InOrder(s: State) {
    && s.accepted == s.written + s.lost + InFlight(s.writer) + s.buffer
    && |s.buffer| <= CAPACITY
    && (s.lost != [] ==> s.writer in {Exiting, Stopped})
    && (s.writer in {Exiting, Stopped} && s.lost == [] ==> s.chClosed && s.buffer == [])
  }

  /** A frame is accepted once, from a sender that has put it. */
  predicate AcceptedOnce(s: State) {
    && (forall k | 0 <= k < |s.accepted| ::
          s.accepted[k] < |s.senders| && s.senders[s.accepted[k]] in {Unlocking, Returned})
    && (forall k, l | 0 <= k < l < |s.accepted| :: s.accepted[k] != s.accepted[l])
  }

  ghost predicate Frames(s: State) { InOrder(s) && AcceptedOnce(s) }

  ghost predicate Inv(s: State) {
    !s.panicked && Mutex(s) && Teardown(s) && Frames(s)
  }

  predicate SenderStep(step: Step) {
    step.SendLock? || step.SendCheck? || step.SendPut? || step.SendAbort? || step.SendUnlock?
  }

  predicate CloserStep(step: Step) {
    step.CloseCancel? || step.CloseLock? || step.CloseCheck? || step.CloseChannel? || step.CloseUnlock? || step.CloseReturn?
  }

  lemma StepKeepsMutex(s: State, step: Step)
    requires Inv(s) && Enabled(s, step)
    ensures Mutex(Apply(s, step)) && !Apply(s, step).panicked
  {
    if SenderStep(step) {
      SenderKeepsMutex(s, step);
    } else if CloserStep(step) {
      CloserKeepsMutex(s, step);
    }
  }

  lemma SenderKeepsMutex(s: State, step: Step)
    requires Mutex(s) && Teardown(s) && Enabled(s, step) && SenderStep(step)
    ensures Mutex(Apply(s, step)) && !Apply(s, step).panicked
  {}

  lemma CloserKeepsMutex(s: State, step: Step)
    requires Mutex(s) && Teardown(s) && Enabled(s, step) && CloserStep(step)
    ensures Mutex(Apply(s, step)) && !Apply(s, step).panicked
  {
    ChannelClosesOnce(s, step);
    CloserMovesMutex(s, step);
  }

  lemma ChannelClosesOnce(s: State, step: Step)
    requires Teardown(s) && Enabled(s, step) && CloserStep(step)
    ensures !Apply(s, step).panicked
  {}

  lemma CloserMovesMutex(s: State, step: Step)
    requires Mutex(s) && Enabled(s, step) && CloserStep(step) && !Apply(s, step).panicked
    ensures Mutex(Apply(s, step))
  {
    var j := step.j;
    assert Apply(s, step).senders == s.senders && Apply(s, step).closers == s.closers[j := Apply(s, step).closers[j]];
  }

  lemma StepKeepsTeardown(s: State, step: Step)
    requires Inv(s) && Enabled(s, step)
    ensures Teardown(Apply(s, step))
  {
    if SenderStep(step) {
      SenderKeepsTeardown(s, step);
    } else if CloserStep(step) {
      CloserKeepsTeardown(s, step);
    }
  }

  lemma SenderKeepsTeardown(s: State, step: Step)
    requires Mutex(s) && Teardown(s) && Enabled(s, step) && SenderStep(step)
    ensures Teardown(Apply(s, step))
  {}

  lemma CloserKeepsTeardown(s: State, step: Step)
    requires Mutex(s) && Teardown(s) && Enabled(s, step) && CloserStep(step)
    ensures Teardown(Apply(s, step))
  {}

  lemma StepKeepsOrder(s: State, step: Step)
    requires Inv(s) && Enabled(s, step)
    ensures InOrder(Apply(s, step))
  {
    if SenderStep(step) {
      SenderKeepsOrder(s, step);
    } else if !CloserStep(step) {
      WriterKeepsOrder(s, step);
    }
  }

  lemma SenderKeepsOrder(s: State, step: Step)
    requires Mutex(s) && Teardown(s) && InOrder(s) && Enabled(s, step) && SenderStep(step)
    ensures InOrder(Apply(s, step))
  {
    var t := Apply(s, step);
    assert t.accepted == t.written + t.lost + InFlight(t.writer) + t.buffer;
  }

  lemma ReceiveKeepsOrder(s: State, step: Step)
    requires InOrder(s) && Enabled(s, step) && step.Receive?
    ensures InOrder(Apply(s, step))
  {
    var t := Apply(s, step);
    assert s.buffer != [] ==> s.buffer == [s.buffer[0]] + s.buffer[1..];
    assert t.accepted == t.written + t.lost + InFlight(t.writer) + t.buffer;
  }

  lemma WriterKeepsOrder(s: State, step: Step)
    requires InOrder(s) && Enabled(s, step) && !SenderStep(step) && !CloserStep(step)
    ensures InOrder(Apply(s, step))
  {
    var t := Apply(s, step);
    if step.Receive? {
      ReceiveKeepsOrder(s, step);
    } else if step.WriteOk? || step.WriteFail? {
      assert t.accepted == t.written + t.lost + InFlight(t.writer) + t.buffer;
    }
  }

  lemma StepKeepsAcceptedOnce(s: State, step: Step)
    requires Inv(s) && Enabled(s, step)
    ensures AcceptedOnce(Apply(s, step))
  {
    if SenderStep(step) {
      SenderKeepsAcceptedOnce(s, step);
    }
  }

  lemma SenderKeepsAcceptedOnce(s: State, step: Step)
    requires AcceptedOnce(s) && Enabled(s, step) && SenderStep(step)
    ensures AcceptedOnce(Apply(s, step))
  {}

  lemma StepKeepsFrames(s: State, step: Step)
    requires Inv(s) && Enabled(s, step)
    ensures Frames(Apply(s, step))
  {
    StepKeepsOrder(s, step);
    StepKeepsAcceptedOnce(s, step);
  }

  lemma {:induction false} RunKeepsInv(s: State, run: seq<Step>)
    requires Inv(s) && Exec(s, run).Some?
    ensures Inv(Exec(s, run).value)
    decreases |run|
  {
    if run != [] {
      StepKeepsMutex(s, run[0]);
      StepKeepsTeardown(s, run[0]);
      StepKeepsFrames(s, run[0]);
      RunKeepsInv(Apply(s, run[0]), run[1..]);
    }
  }

  /** Writer safety, over every interleaving of any number of senders and closers, in either order
      of `close`: no send on a closed channel and no second close (`panicked` stays false); what was
      written is a prefix of what was accepted; no frame is accepted twice; and when a `close` has
      returned without a failed write, everything accepted was written. */
  lemma WriterSafety(order: Order, sends: nat, closes: nat, run: seq<Step>)
    requires Exec(Init(order, sends, closes), run).Some?
    ensures var s := Exec(Init(order, sends, closes), run).value;
            && !s.panicked
            && s.written <= s.accepted
            && (forall k, l | 0 <= k < l < |s.accepted| :: s.accepted[k] != s.accepted[l])
            && (forall j: nat | CloserAt(s, j, Finished) ::
                  s.writer == Stopped && (s.lost == [] ==> s.written == s.accepted))
  {
    RunKeepsInv(Init(order, sends, closes), run);
  }

  // ------------------------------------------------- what is accepted, what is dropped

  /** Sender i has not got past the check, or was turned away. */
  predicate TurnedAway(s: State, i: nat) {
    s.cancelled && i < |s.senders| && s.senders[i] != Selecting && i !in s.accepted
  }

  lemma StepKeepsTurnedAway(s: State, step: Step, i: nat)
    requires TurnedAway(s, i) && Enabled(s, step)
    ensures TurnedAway(Apply(s, step), i)
  {}

  lemma {:induction false} StaysTurnedAway(s: State, run: seq<Step>, i: nat)
    requires TurnedAway(s, i) && Exec(s, run).Some?
    ensures TurnedAway(Exec(s, run).value, i)
    decreases |run|
  {
    if run != [] {
      StepKeepsTurnedAway(s, run[0], i);
      StaysTurnedAway(Apply(s, run[0]), run[1..], i);
    }
  }

  /** A frame sent once the context is cancelled is dropped, however the run goes on: a `close` that has
      begun to cancel lets no later `send` put a frame on the channel. */
  lemma LateSendIsDropped(order: Order, sends: nat, closes: nat, before: seq<Step>, after: seq<Step>, i: nat)
    requires Exec(Init(order, sends, closes), before).Some?
    requires Exec(Exec(Init(order, sends, closes), before).value, after).Some?
    requires SenderAt(Exec(Init(order, sends, closes), before).value, i, Calling)
    requires Exec(Init(order, sends, closes), before).value.cancelled
    ensures i !in Exec(Exec(Init(order, sends, closes), before).value, after).value.accepted
  {
    var s := Exec(Init(order, sends, closes), before).value;
    RunKeepsInv(Init(order, sends, closes), before);
    StaysTurnedAway(s, after, i);
  }

  /** Until the context is cancelled nothing is closed and every sender past its select has put its frame. */
  predicate NothingDropped(s: State) {
    !s.cancelled ==> !s.closed && forall i | 0 <= i < |s.senders| :: PutIfPast(s, i)
  }

  predicate PutIfPast(s: State, i: nat)
    requires i < |s.senders|
  {
    s.senders[i] in {Unlocking, Returned} ==> i in s.accepted
  }

  lemma StepKeepsNothingDropped(s: State, step: Step)
    requires Teardown(s) && NothingDropped(s) && Enabled(s, step)
    ensures NothingDropped(Apply(s, step))
  {
    var t := Apply(s, step);
    if !t.cancelled {
      assert !s.cancelled;
      forall i | 0 <= i < |t.senders| ensures PutIfPast(t, i) {
        assert PutIfPast(s, i);
      }
    }
  }

  lemma {:induction false} RunKeepsNothingDropped(s: State, run: seq<Step>)
    requires Inv(s) && NothingDropped(s) && Exec(s, run).Some?
    ensures NothingDropped(Exec(s, run).value)
    decreases |run|
  {
    if run != [] {
      StepKeepsMutex(s, run[0]);
      StepKeepsTeardown(s, run[0]);
      StepKeepsFrames(s, run[0]);
      StepKeepsNothingDropped(s, run[0]);
      RunKeepsNothingDropped(Apply(s, run[0]), run[1..]);
    }
  }

  /** As long as the context is not cancelled, no `send` returns without its frame on the channel. */
  lemma UncancelledSendIsAccepted(order: Order, sends: nat, closes: nat, run: seq<Step>, i: nat)
    requires Exec(Init(order, sends, closes), run).Some?
    requires !Exec(Init(order, sends, closes), run).value.cancelled
    requires SenderAt(Exec(Init(order, sends, closes), run).value, i, Returned)
    ensures i in Exec(Init(order, sends, closes), run).value.accepted
  {
    RunKeepsNothingDropped(Init(order, sends, closes), run);
    assert PutIfPast(Exec(Init(order, sends, closes), run).value, i);
  }

  // -------------------------------------------------------------- liveness

  function SenderRank(pc: SenderPc): nat {
    match pc case Calling => 7 case Checking => 6 case Selecting => 5 case Unlocking => 1 case Returned => 0
  }

  function CloserRank(pc: CloserPc): nat {
    match pc
    case Called => 6 case AwaitLock => 5 case Locked => 4 case Closing => 3
    case Releasing => 2 case AwaitDone => 1 case Finished => 0
  }

  function WriterRank(pc: WriterPc): nat {
    match pc case Receiving => 2 case Writing(_) => 3 case Exiting => 1 case Stopped => 0
  }

  function SenderWork(pcs: seq<SenderPc>): nat {
    if pcs == [] then 0 else SenderWork(pcs[..|pcs| - 1]) + SenderRank(pcs[|pcs| - 1])
  }

  function CloserWork(pcs: seq<CloserPc>): nat {
    if pcs == [] then 0 else CloserWork(pcs[..|pcs| - 1]) + CloserRank(pcs[|pcs| - 1])
  }

  /** An upper bound on the number of steps still to come. */
  function Work(s: State): nat {
    SenderWork(s.senders) + CloserWork(s.closers) + WriterRank(s.writer) + 2 * |s.buffer|
    + if s.cancelled then 0 else 1
  }

  lemma {:induction false} SenderWorkUpdate(pcs: seq<SenderPc>, i: nat, pc: SenderPc)
    requires i < |pcs|
    ensures SenderWork(pcs[i := pc]) == SenderWork(pcs) - SenderRank(pcs[i]) + SenderRank(pc)
  {
    var n := |pcs| - 1;
    if i == n {
      assert pcs[i := pc][..n] == pcs[..n];
    } else {
      assert pcs[i := pc][..n] == pcs[..n][i := pc];
      SenderWorkUpdate(pcs[..n], i, pc);
    }
  }

  lemma {:induction false} CloserWorkUpdate(pcs: seq<CloserPc>, j: nat, pc: CloserPc)
    requires j < |pcs|
    ensures CloserWork(pcs[j := pc]) == CloserWork(pcs) - CloserRank(pcs[j]) + CloserRank(pc)
  {
    var n := |pcs| - 1;
    if j == n {
      assert pcs[j := pc][..n] == pcs[..n];
    } else {
      assert pcs[j := pc][..n] == pcs[..n][j := pc];
      CloserWorkUpdate(pcs[..n], j, pc);
    }
  }

  lemma SenderMoveConsumesWork(s: State, step: Step, i: nat)
    requires Enabled(s, step) && !Apply(s, step).panicked
    requires step in {SendLock(i), SendCheck(i), SendPut(i), SendAbort(i), SendUnlock(i)}
    ensures Work(Apply(s, step)) < Work(s)
  {
    var t := Apply(s, step);
    SenderWorkUpdate(s.senders, i, t.senders[i]);
    assert t.senders == s.senders[i := t.senders[i]] && t.closers == s.closers;
  }

  lemma CloserMoveConsumesWork(s: State, step: Step, j: nat)
    requires Enabled(s, step) && !Apply(s, step).panicked
    requires step in {CloseCancel(j), CloseLock(j), CloseCheck(j), CloseChannel(j), CloseUnlock(j), CloseReturn(j)}
    ensures Work(Apply(s, step)) < Work(s)
  {
    var t := Apply(s, step);
    CloserWorkUpdate(s.closers, j, t.closers[j]);
    assert t.closers == s.closers[j := t.closers[j]] && t.senders == s.senders;
  }

  lemma StepConsumesWork(s: State, step: Step)
    requires Enabled(s, step) && !Apply(s, step).panicked
    ensures Work(Apply(s, step)) < Work(s)
  {
    if step.SendLock? || step.SendCheck? || step.SendPut? || step.SendAbort? || step.SendUnlock? {
      SenderMoveConsumesWork(s, step, step.i);
    } else if step.Receive? || step.WriteOk? || step.WriteFail? || step.Stop? || step.OuterCancel? {
      assert Apply(s, step).senders == s.senders && Apply(s, step).closers == s.closers;
    } else {
      CloserMoveConsumesWork(s, step, step.j);
    }
  }

  lemma {:induction false} RunConsumesWork(s: State, run: seq<Step>)
    requires Inv(s) && Exec(s, run).Some?
    ensures |run| + Work(Exec(s, run).value) <= Work(s)
    decreases |run|
  {
    if run != [] {
      StepKeepsMutex(s, run[0]);
      StepKeepsTeardown(s, run[0]);
      StepKeepsFrames(s, run[0]);
      StepConsumesWork(s, run[0]);
      RunConsumesWork(Apply(s, run[0]), run[1..]);
    }
  }

  predicate Quiescent(s: State) {
    && (forall i: nat | i < |s.senders| :: s.senders[i] == Returned)
    && (forall j: nat | j < |s.closers| :: s.closers[j] == Finished)
    && s.writer == Stopped
  }

  /** The step is one the program takes itself: it does not wait for the outside world. */
  predicate Own(step: Step) { step != OuterCancel }

  ghost predicate Blocked(s: State) {
    forall step: Step | Own(step) :: !Enabled(s, step)
  }

  /** With cancel before lock, somebody can always move until `close` and every `send` have
      returned, even when a sender holding the mutex is parked on a full channel and the writer
      goroutine is gone. */
  lemma SomeoneCanMove(s: State) returns (step: Step)
    requires Inv(s) && s.order == CancelFirst && s.closers != [] && !Quiescent(s)
    ensures Own(step) && Enabled(s, step)
  {
    if j: nat :| CloserAt(s, j, Called) {
      return CloseCancel(j);
    }
    assert CloserAt(s, 0, s.closers[0]) && s.cancelled;
    match s.mu {
      case Sender(i) =>
        return match s.senders[i] case Checking => SendCheck(i) case Selecting => SendAbort(i) case _ => SendUnlock(i);
      case Closer(j) =>
        return match s.closers[j] case Locked => CloseCheck(j) case Closing => CloseChannel(j) case _ => CloseUnlock(j);
      case Nobody =>
        if i: nat :| i < |s.senders| && s.senders[i] != Returned {
          return SendLock(i);
        }
        if j: nat :| CloserAt(s, j, AwaitLock) {
          return CloseLock(j);
        }
        assert CloserAt(s, 0, AwaitDone) || CloserAt(s, 0, Finished);
        match s.writer {
          case Receiving => return Receive;
          case Writing(_) => return WriteOk;
          case Exiting => return Stop;
          case Stopped =>
            var j: nat :| j < |s.closers| && s.closers[j] != Finished;
            assert CloserAt(s, j, s.closers[j]);
            return CloseReturn(j);
        }
    }
  }

  /** Close always finishes: a run has a bounded number of steps, and one that nobody can extend has
      returned from every `close` and every `send`, with the writer goroutine gone. */
  lemma CloseFinishes(sends: nat, closes: nat, run: seq<Step>)
    requires closes > 0 && Exec(Init(CancelFirst, sends, closes), run).Some?
    ensures |run| <= 7 * sends + 6 * closes + 3
    ensures Blocked(Exec(Init(CancelFirst, sends, closes), run).value)
            <==> Quiescent(Exec(Init(CancelFirst, sends, closes), run).value)
  {
    var s0 := Init(CancelFirst, sends, closes);
    var s := Exec(s0, run).value;
    RunKeepsInv(s0, run);
    RunConsumesWork(s0, run);
    InitialWork(sends, closes);
    RunKeepsConfig(s0, run);
    BlockedWhenQuiescent(s);
  }

  lemma BlockedWhenQuiescent(s: State)
    requires Inv(s) && s.order == CancelFirst && s.closers != []
    ensures Blocked(s) <==> Quiescent(s)
  {
    if !Quiescent(s) {
      var step := SomeoneCanMove(s);
    }
  }

  lemma {:induction false} RunKeepsConfig(s: State, run: seq<Step>)
    requires Exec(s, run).Some?
    ensures var t := Exec(s, run).value;
            t.order == s.order && |t.senders| == |s.senders| && |t.closers| == |s.closers|
    decreases |run|
  {
    if run != [] {
      StepKeepsConfig(s, run[0]);
      RunKeepsConfig(Apply(s, run[0]), run[1..]);
    }
  }

  lemma StepKeepsConfig(s: State, step: Step)
    requires Enabled(s, step)
    ensures var t := Apply(s, step);
            t.order == s.order && |t.senders| == |s.senders| && |t.closers| == |s.closers|
  {
    if SenderStep(step) {
      SenderKeepsConfig(s, step);
    } else if CloserStep(step) {
      CloserKeepsConfig(s, step);
    }
  }

  lemma SenderKeepsConfig(s: State, step: Step)
    requires Enabled(s, step) && SenderStep(step)
    ensures var t := Apply(s, step); t.order == s.order && |t.senders| == |s.senders| && t.closers == s.closers
  {}

  lemma CloserKeepsConfig(s: State, step: Step)
    requires Enabled(s, step) && CloserStep(step)
    ensures var t := Apply(s, step); t.order == s.order && t.senders == s.senders && |t.closers| == |s.closers|
  {}

  lemma {:induction false} InitialWork(sends: nat, closes: nat)
    ensures Work(Init(CancelFirst, sends, closes)) == 7 * sends + 6 * closes + 3
    decreases sends + closes
  {
    if sends > 0 {
      InitialWork(sends - 1, closes);
      assert seq(sends, _ => Calling)[..sends - 1] == seq(sends - 1, _ => Calling);
    } else if closes > 0 {
      InitialWork(sends, closes - 1);
      assert seq(closes, _ => Called)[..closes - 1] == seq(closes - 1, _ => Called);
    }
  }

  // ------------------------------------- the ordering argument of comment D18

  function Numbers(lo: nat, hi: nat): (r: seq<nat>)
    requires lo <= hi
  {
    seq(hi - lo, k requires 0 <= k => lo + k)
  }

  /** The writer died on the first frame and `k - 1` later frames sit in the channel. */
  function Filled(order: Order, sends: nat, k: nat): State
    requires 1 <= k <= sends
  {
    State(order, seq(sends, i => if i < k then Returned else Calling), [Called], Stopped, Nobody,
          false, false, Numbers(1, k), false, false, Numbers(0, k), [], [0])
  }

  /** The writer takes the only buffered frame and fails to write it. */
  lemma FailsToWrite(s: State) returns (t: State)
    requires !s.panicked && s.writer == Receiving && |s.buffer| == 1
    ensures t == s.(writer := Stopped, buffer := [], lost := s.buffer)
    ensures Exec(s, [Receive, WriteFail, Stop]) == Some(t)
  {
    var back := [Receive, WriteFail, Stop];
    assert back[1..] == [WriteFail, Stop] && back[1..][1..] == [Stop];
    var s1 := Apply(s, Receive);
    var s2 := Apply(s1, WriteFail);
    t := Apply(s2, Stop);
    assert Exec(s2, [Stop]) == Some(t);
    assert Exec(s1, [WriteFail, Stop]) == Some(t);
  }

  lemma FirstFrameLost(order: Order, sends: nat)
    requires sends > 0
    ensures var s := Init(order, sends, 1);
            Filled(order, sends, 1)
            == s.(senders := s.senders[0 := Returned], writer := Stopped, accepted := [0], lost := [0])
  {
    var s, t := Init(order, sends, 1), Filled(order, sends, 1);
    assert t.senders == s.senders[0 := Returned];
    assert t.buffer == [] && t.accepted == [0] && t.closers == s.closers;
  }

  lemma WriterDies(order: Order, sends: nat) returns (run: seq<Step>)
    requires sends > 0
    ensures Exec(Init(order, sends, 1), run) == Some(Filled(order, sends, 1))
  {
    var front, back := [SendLock(0), SendCheck(0), SendPut(0), SendUnlock(0)], [Receive, WriteFail, Stop];
    var s0 := Init(order, sends, 1);
    var s := SendOne(s0, 0);
    var t := FailsToWrite(s);
    FirstFrameLost(order, sends);
    assert s0.buffer + [0] == [0] && s0.accepted + [0] == [0];
    assert t == s0.(senders := s0.senders[0 := Returned], writer := Stopped, accepted := [0], lost := [0]);
    ExecAppend(s0, front, back);
    run := front + back;
  }

  lemma {:induction false} FilledReachable(order: Order, sends: nat, k: nat) returns (run: seq<Step>)
    requires 1 <= k <= sends && k <= CAPACITY + 1
    ensures Exec(Init(order, sends, 1), run) == Some(Filled(order, sends, k))
  {
    var s0 := Init(order, sends, 1);
    if k == 1 {
      run := WriterDies(order, sends);
    } else {
      var front := FilledReachable(order, sends, k - 1);
      var before := Filled(order, sends, k - 1);
      var after := SendOne(before, k - 1);
      var back := [SendLock(k - 1), SendCheck(k - 1), SendPut(k - 1), SendUnlock(k - 1)];
      ExecAppend(s0, front, back);
      run := front + back;
      assert after.senders == Filled(order, sends, k).senders;
      assert after.buffer == Numbers(1, k);
      assert after.accepted == Numbers(0, k);
    }
  }

  lemma SendOne(s: State, i: nat) returns (t: State)
    requires SenderAt(s, i, Calling) && s.mu == Nobody && !s.closed && !s.cancelled && !s.chClosed
    requires !s.panicked && |s.buffer| < CAPACITY
    ensures t == s.(senders := s.senders[i := Returned], buffer := s.buffer + [i], accepted := s.accepted + [i])
    ensures Exec(s, [SendLock(i), SendCheck(i), SendPut(i), SendUnlock(i)]) == Some(t)
  {
    var run := [SendLock(i), SendCheck(i), SendPut(i), SendUnlock(i)];
    assert run[1..] == [SendCheck(i), SendPut(i), SendUnlock(i)];
    assert run[1..][1..] == [SendPut(i), SendUnlock(i)];
    assert run[1..][1..][1..] == [SendUnlock(i)];
    var s1 := Apply(s, SendLock(i));
    var s2 := Apply(s1, SendCheck(i));
    var s3 := Apply(s2, SendPut(i));
    t := Apply(s3, SendUnlock(i));
    assert t.senders == s.senders[i := Returned];
    assert Exec(s3, [SendUnlock(i)]) == Some(t);
    assert Exec(s2, [SendPut(i), SendUnlock(i)]) == Some(t);
    assert Exec(s1, [SendCheck(i), SendPut(i), SendUnlock(i)]) == Some(t);
  }

  /** The state the D18 comment describes: sender 65 holds the mutex, parked on the full channel, and
      the writer goroutine is gone. */
  function Parked(order: Order): State {
    var s := Filled(order, CAPACITY + 2, CAPACITY + 1);
    s.(senders := s.senders[CAPACITY + 1 := Selecting], mu := Sender(CAPACITY + 1))
  }

  lemma ParkedReachable(order: Order) returns (run: seq<Step>)
    ensures Exec(Init(order, CAPACITY + 2, 1), run) == Some(Parked(order))
  {
    var last := CAPACITY + 1;
    var front := FilledReachable(order, CAPACITY + 2, last);
    var s := Filled(order, CAPACITY + 2, last);
    var back := [SendLock(last), SendCheck(last)];
    assert back[1..] == [SendCheck(last)];
    var s1 := Apply(s, SendLock(last));
    assert Exec(s1, [SendCheck(last)]) == Some(Apply(s1, SendCheck(last)));
    assert Apply(s1, SendCheck(last)).senders == Parked(order).senders;
    ExecAppend(Init(order, CAPACITY + 2, 1), front, back);
    run := front + back;
  }

  /** Locking before cancelling does deadlock: the parked state is reachable, nobody can move in it,
      and `close` has not returned. The same state is reachable under CancelFirst, where
      `SomeoneCanMove` finds the next step. */
  lemma LockFirstDeadlocks() returns (run: seq<Step>)
    ensures Exec(Init(LockFirst, CAPACITY + 2, 1), run) == Some(Parked(LockFirst))
    ensures Blocked(Parked(LockFirst)) && !Quiescent(Parked(LockFirst))
  {
    run := ParkedReachable(LockFirst);
    assert Parked(LockFirst).closers[0] == Called;
  }
}
