/** The connection lifecycle of the candidate chat: the close-notification flags of ChatClient
    (frontend/src/lib/ws.ts) and the nested retry budgets of useChatSession
    (frontend/src/lib/useChatSession.ts). A socket's error event may precede its close event; the next
    attempt starts only after the close event of the last. */
module Reconnect {
  import opened Prelude

  const MAX_RECONNECTS := 5

  /** `Failed`: the error event fired, the close event is still to come. */
  datatype Sock = Connecting | Open | Failed | Down

  /** The refs, the client flags and three histories: connections attempted, reconnects scheduled,
      tickets re-minted. */
  datatype State = State(
    sock: Sock, closed: bool, closeNotified: bool,
    sawOpen: bool, remintUsed: bool, minting: bool, evaluated: bool,
    reconnectCount: int, timer: bool, disconnected: bool,
    attempts: int, schedules: int, remints: int)

  /** `token`: whether an invitation token is stored when the event fires. */
  datatype Event =
    | SocketOpened
    | SocketError(token: bool)
    | SocketClosed(token: bool)
    | TimerFired
    | Minted
    | MintFailed
    | Unmounted
    | StartFrame | QuestionFrame | EvaluationFrame | OtherFrame

  function Start(): State {
    State(Connecting, false, false, false, false, false, false, 0, false, false, 1, 0, 0)
  }

  predicate Enabled(s: State, e: Event) {
    match e
    case SocketOpened => s.sock == Connecting
    case SocketError(_) => s.sock in {Connecting, Open}
    case SocketClosed(_) => s.sock != Down
    case TimerFired => s.timer && s.sock == Down
    case Minted => s.minting && s.sock == Down
    case MintFailed => s.minting
    case Unmounted => !s.closed
    case _ => s.sock == Open
  }

  /** beginConnection and ChatClient.connect. */
  function Connect(s: State): State {
    s.(sawOpen := false, closed := false, closeNotified := false, sock := Connecting, attempts := s.attempts + 1)
  }

  function ScheduleReconnect(s: State): State {
    if s.reconnectCount < MAX_RECONNECTS
    then s.(reconnectCount := s.reconnectCount + 1, timer := true, schedules := s.schedules + 1)
    else s.(disconnected := true)
  }

  /** The onClose callback. */
  function OnClose(s: State, token: bool): State {
    if s.evaluated then s
    else if !s.sawOpen && !s.remintUsed && !s.minting && token
    then s.(remintUsed := true, minting := true, remints := s.remints + 1)
    else ScheduleReconnect(s)
  }

  /** ChatClient tells the session about the end of a connection once, unless it was closed. */
  function Notify(s: State, token: bool): State {
    if !s.closed && !s.closeNotified then OnClose(s.(closeNotified := true), token) else s
  }

  function Apply(s: State, e: Event): State
    requires Enabled(s, e)
  {
    match e
    case SocketOpened => s.(sock := Open, sawOpen := true, remintUsed := false)
    case SocketError(token) => Notify(s, token).(sock := Failed)
    case SocketClosed(token) => Notify(s, token).(sock := Down)
    case TimerFired => Connect(s.(timer := false))
    case Minted => Connect(s).(minting := false)
    case MintFailed => ScheduleReconnect(s).(minting := false)
    case Unmounted => s.(closed := true, timer := false)
    case StartFrame => s.(reconnectCount := 0, disconnected := false)
    case QuestionFrame => s.(reconnectCount := 0, disconnected := false)
    case EvaluationFrame => s.(evaluated := true)
    case OtherFrame => s
  }

  /** The mutable client and session, one method per callback. */
  class ChatSession {
    var sock: Sock
    var closed: bool
    var closeNotified: bool
    var sawOpen: bool
    var remintUsed: bool
    var minting: bool
    var evaluated: bool
    var reconnectCount: int
    var timer: bool
    var disconnected: bool
    ghost var attempts: int
    ghost var schedules: int
    ghost var remints: int

    ghost function Model(): State
      reads this
    {
      State(sock, closed, closeNotified, sawOpen, remintUsed, minting, evaluated, reconnectCount, timer,
            disconnected, attempts, schedules, remints)
    }

    constructor ()
      ensures Model() == Start()
    {
      sock, closed, closeNotified := Connecting, false, false;
      sawOpen, remintUsed, minting, evaluated := false, false, false, false;
      reconnectCount, timer, disconnected := 0, false, false;
      attempts, schedules, remints := 1, 0, 0;
    }

    method BeginConnection()
      modifies this
      ensures Model() == Connect(old(Model()))
    {
      sawOpen := false;
      closed := false;
      closeNotified := false;
      sock := Connecting;
      attempts := attempts + 1;
    }

    method Reschedule()
      modifies this
      ensures Model() == ScheduleReconnect(old(Model()))
    {
      if reconnectCount < MAX_RECONNECTS {
        reconnectCount := reconnectCount + 1;
        timer := true;
        schedules := schedules + 1;
      } else {
        disconnected := true;
      }
    }

    method HandleClose(token: bool)
      modifies this
      ensures Model() == OnClose(old(Model()), token)
    {
      if evaluated {
        return;
      }
      var handshakeRejected := !sawOpen;
      if handshakeRejected && !remintUsed && !minting && token {
        remintUsed := true;
        minting := true;
        remints := remints + 1;
        return;
      }
      Reschedule();
    }

    method NotifyClose(token: bool)
      modifies this
      ensures Model() == Notify(old(Model()), token)
    {
      if !closed && !closeNotified {
        closeNotified := true;
        HandleClose(token);
      }
    }

    method OnSocketOpen()
      requires Enabled(Model(), SocketOpened)
      modifies this
      ensures Model() == Apply(old(Model()), SocketOpened)
    {
      sock := Open;
      sawOpen := true;
      remintUsed := false;
    }

    method OnSocketError(token: bool)
      requires Enabled(Model(), SocketError(token))
      modifies this
      ensures Model() == Apply(old(Model()), SocketError(token))
    {
      NotifyClose(token);
      sock := Failed;
    }

    method OnSocketClose(token: bool)
      requires Enabled(Model(), SocketClosed(token))
      modifies this
      ensures Model() == Apply(old(Model()), SocketClosed(token))
    {
      NotifyClose(token);
      sock := Down;
    }

    method OnTimer()
      requires Enabled(Model(), TimerFired)
      modifies this
      ensures Model() == Apply(old(Model()), TimerFired)
    {
      timer := false;
      BeginConnection();
    }

    method OnMint(ok: bool)
      requires Enabled(Model(), if ok then Minted else MintFailed)
      modifies this
      ensures Model() == Apply(old(Model()), if ok then Minted else MintFailed)
    {
      if ok {
        BeginConnection();
      } else {
        Reschedule();
      }
      minting := false;
    }

    method OnFrame(e: Event)
      requires Enabled(Model(), e) && e in {StartFrame, QuestionFrame, EvaluationFrame, OtherFrame}
      modifies this
      ensures Model() == Apply(old(Model()), e)
    {
      if e == StartFrame || e == QuestionFrame {
        disconnected := false;
        reconnectCount := 0;
      } else if e == EvaluationFrame {
        evaluated := true;
      }
    }

    method Close()
      requires Enabled(Model(), Unmounted)
      modifies this
      ensures Model() == Apply(old(Model()), Unmounted)
    {
      timer := false;
      closed := true;
    }
  }

  // ------------------------------------------------------------------- runs

  function Exec(s: State, events: seq<Event>): Option<State>
    decreases |events|
  {
    if events == [] then Some(s)
    else if Enabled(s, events[0]) then Exec(Apply(s, events[0]), events[1..])
    else None
  }

  ghost predicate Inv(s: State) {
    && 0 <= s.reconnectCount <= MAX_RECONNECTS
    && !(s.timer && s.minting)
    && (s.timer || s.minting ==> s.closeNotified)
    && (s.minting ==> s.remintUsed)
    && (s.sawOpen ==> !s.remintUsed)
    && (s.sock == Connecting ==> !s.sawOpen)
    && (s.sock == Open ==> s.sawOpen)
    && (s.sock in {Failed, Down} ==> s.closeNotified || s.closed)
    && (s.sock in {Connecting, Open} ==> !s.closeNotified)
    && (s.closeNotified ==> s.timer || s.minting || s.disconnected || s.evaluated || s.closed)
  }

  predicate Closing(e: Event) { e.SocketError? || e.SocketClosed? }

  lemma StepKeepsInv(s: State, e: Event)
    requires Inv(s) && Enabled(s, e)
    ensures Inv(Apply(s, e))
  {
    if Closing(e) {
      CloseKeepsInv(s, e);
    }
  }

  lemma CloseKeepsInv(s: State, e: Event)
    requires Inv(s) && Enabled(s, e) && Closing(e)
    ensures Inv(Apply(s, e))
  {}

  /** No start or question frame, which renew the reconnect budget, and no evaluation, which ends it all. */
  predicate Quiet(e: Event) {
    !e.StartFrame? && !e.QuestionFrame? && !e.EvaluationFrame?
  }

  function ReconnectsLeft(s: State): int { MAX_RECONNECTS - s.reconnectCount }

  /** A re-mint that needs no further reconnect: the coming attempt, or the one under way, may still
      be rejected before it opens. */
  function Credit(s: State): int {
    if !s.remintUsed && (s.timer || s.sock == Connecting) then 1 else 0
  }

  function RemintsLeft(s: State): int { ReconnectsLeft(s) + Credit(s) }

  function AttemptsLeft(s: State): int {
    ReconnectsLeft(s) + RemintsLeft(s) + (if s.timer then 1 else 0) + (if s.minting then 1 else 0)
  }

  function EventsLeft(s: State): int {
    5 * AttemptsLeft(s)
    + (match s.sock case Connecting => 3 case Open => 2 case Failed => 1 case Down => 0)
    + (if s.closed then 0 else 1)
  }

  lemma CloseSpends(s: State, token: bool)
    requires Inv(s) && s.sock in {Connecting, Open, Failed}
    ensures var t := Notify(s, token).(sock := Down);
            && t.schedules + ReconnectsLeft(t) == s.schedules + ReconnectsLeft(s)
            && t.remints + RemintsLeft(t) <= s.remints + RemintsLeft(s)
            && t.attempts == s.attempts && AttemptsLeft(t) <= AttemptsLeft(s) && t.closed == s.closed
  {}

  /** The budgets pay for what happened between two states: one event, or one of no weight. */
  predicate Pays(s: State, t: State, weight: nat) {
    && t.schedules + ReconnectsLeft(t) == s.schedules + ReconnectsLeft(s)
    && t.remints + RemintsLeft(t) <= s.remints + RemintsLeft(s)
    && t.attempts + AttemptsLeft(t) <= s.attempts + AttemptsLeft(s)
    && EventsLeft(t) + weight <= EventsLeft(s)
  }

  /** What one quiet event spends. An open re-arms the re-mint, but the connection it opened can then
      only end in a reconnect. */
  lemma QuietStepSpends(s: State, e: Event)
    requires Inv(s) && Enabled(s, e) && Quiet(e)
    ensures Pays(s, Apply(s, e), Weight(e))
  {
    if Closing(e) {
      ClosingSpends(s, e);
    } else if e.TimerFired? || e.Minted? {
      ConnectSpends(s, e);
    } else {
      OtherStepSpends(s, e);
    }
  }

  lemma ClosingSpends(s: State, e: Event)
    requires Inv(s) && Enabled(s, e) && Closing(e)
    ensures Pays(s, Apply(s, e), 1)
  {
    CloseSpends(s, e.token);
  }

  lemma ConnectSpends(s: State, e: Event)
    requires Inv(s) && Enabled(s, e) && (e.TimerFired? || e.Minted?)
    ensures Pays(s, Apply(s, e), 1)
  {}

  lemma OtherStepSpends(s: State, e: Event)
    requires Inv(s) && Enabled(s, e) && Quiet(e) && !Closing(e) && !e.TimerFired? && !e.Minted?
    ensures Pays(s, Apply(s, e), Weight(e))
  {}

  /** Other frames (tokens, responses, errors) move nothing. */
  function Weight(e: Event): nat { if e == OtherFrame then 0 else 1 }

  function Happenings(events: seq<Event>): nat {
    if events == [] then 0 else Weight(events[0]) + Happenings(events[1..])
  }

  predicate QuietRun(events: seq<Event>) {
    forall e | e in events :: Quiet(e)
  }

  lemma {:induction false} QuietRunSpends(s: State, events: seq<Event>)
    requires Inv(s) && QuietRun(events) && Exec(s, events).Some?
    ensures var t := Exec(s, events).value;
            Inv(t) && Pays(s, t, Happenings(events))
    decreases |events|
  {
    if events != [] {
      StepKeepsInv(s, events[0]);
      QuietStepSpends(s, events[0]);
      QuietRunSpends(Apply(s, events[0]), events[1..]);
    }
  }

  lemma {:induction false} RunKeepsInv(s: State, events: seq<Event>)
    requires Inv(s) && Exec(s, events).Some?
    ensures Inv(Exec(s, events).value)
    decreases |events|
  {
    if events != [] {
      StepKeepsInv(s, events[0]);
      RunKeepsInv(Apply(s, events[0]), events[1..]);
    }
  }

  /** Reconnect terminates: without a start, question or evaluation frame at most 5 reconnects are
      scheduled, 6 tickets re-minted and 12 connections attempted, in at most 59 connection events; and a session
      in which nothing more can happen is in the disconnected state, unless it was unmounted. */
  lemma ReconnectTerminates(events: seq<Event>)
    requires QuietRun(events) && Exec(Start(), events).Some?
    ensures var s := Exec(Start(), events).value;
            && s.schedules <= 5 && s.remints <= 6 && s.attempts <= 12
            && Happenings(events) <= 59
            && ((forall e | Quiet(e) && !e.Unmounted? && !e.OtherFrame? :: !Enabled(s, e)) ==> s.disconnected || s.closed)
  {
    QuietRunSpends(Start(), events);
    var s := Exec(Start(), events).value;
    QuietRunNotEvaluated(Start(), events);
    if (forall e | Quiet(e) && !e.Unmounted? && !e.OtherFrame? :: !Enabled(s, e)) {
      assert !Enabled(s, SocketClosed(false)) && !Enabled(s, TimerFired) && !Enabled(s, MintFailed);
    }
  }

  lemma QuietStepNotEvaluated(s: State, e: Event)
    requires Enabled(s, e) && Quiet(e)
    ensures Apply(s, e).evaluated == s.evaluated
  {
    if Closing(e) {
      NotifyNotEvaluated(s, e.token);
    } else if e.MintFailed? {
      ScheduleNotEvaluated(s);
    }
  }

  lemma ScheduleNotEvaluated(s: State)
    ensures ScheduleReconnect(s).evaluated == s.evaluated
  {}

  lemma NotifyNotEvaluated(s: State, token: bool)
    ensures Notify(s, token).evaluated == s.evaluated
  {
    ScheduleNotEvaluated(s.(closeNotified := true));
  }

  lemma {:induction false} QuietRunNotEvaluated(s: State, events: seq<Event>)
    requires QuietRun(events) && Exec(s, events).Some?
    ensures Exec(s, events).value.evaluated == s.evaluated
    decreases |events|
  {
    if events != [] {
      QuietStepNotEvaluated(s, events[0]);
      QuietRunNotEvaluated(Apply(s, events[0]), events[1..]);
    }
  }

  /** The same from any moment of any session: what is left of the budgets then bounds everything up
      to the next start, question or evaluation frame, and a start or question frame refills them. */
  lemma BudgetFromAnywhere(before: seq<Event>, after: seq<Event>)
    requires Exec(Start(), before).Some? && QuietRun(after) && Exec(Exec(Start(), before).value, after).Some?
    ensures var s := Exec(Start(), before).value;
            var t := Exec(s, after).value;
            && t.schedules - s.schedules <= 5 - s.reconnectCount <= 5
            && t.remints - s.remints <= 6 - s.reconnectCount
            && t.attempts - s.attempts <= 12 - 2 * s.reconnectCount
  {
    RunKeepsInv(Start(), before);
    QuietRunSpends(Exec(Start(), before).value, after);
  }

  lemma {:induction false} ExecAppend(s: State, first: seq<Event>, second: seq<Event>)
    requires Exec(s, first).Some?
    ensures Exec(s, first + second) == Exec(Exec(s, first).value, second)
    decreases |first|
  {
    if first == [] {
      assert first + second == second;
    } else {
      assert (first + second)[1..] == first[1..] + second;
      ExecAppend(Apply(s, first[0]), first[1..], second);
    }
  }

  /** Connecting afresh, with the re-mint unused. */
  predicate AtDoor(s: State) {
    && s.sock == Connecting && !s.closed && !s.closeNotified && !s.sawOpen && !s.remintUsed && !s.minting
    && !s.evaluated && !s.timer
  }

  lemma Extend(s0: State, run: seq<Event>, s: State, e: Event) returns (run': seq<Event>, s': State)
    requires Exec(s0, run) == Some(s) && QuietRun(run) && Enabled(s, e) && Quiet(e)
    ensures Exec(s0, run') == Some(s') && QuietRun(run') && s' == Apply(s, e)
  {
    run', s' := run + [e], Apply(s, e);
    ExecAppend(s0, run, [e]);
    assert Exec(s, [e]) == Exec(s', []);
  }

  /** Rejected before it opened, and re-minted. */
  lemma RejectAndMint(s0: State, run: seq<Event>, s: State) returns (run': seq<Event>, s': State)
    requires Exec(s0, run) == Some(s) && QuietRun(run) && AtDoor(s)
    ensures Exec(s0, run') == Some(s') && QuietRun(run')
    ensures s' == s.(remintUsed := true, attempts := s.attempts + 1, remints := s.remints + 1)
  {
    run', s' := Extend(s0, run, s, SocketClosed(true));
    run', s' := Extend(s0, run', s', Minted);
  }

  /** Opened, lost, and reconnected. */
  lemma OpenAndLose(s0: State, run: seq<Event>, s: State) returns (run': seq<Event>, s': State)
    requires Exec(s0, run) == Some(s) && QuietRun(run) && AtDoor(s.(remintUsed := false))
    requires s.reconnectCount < MAX_RECONNECTS
    ensures Exec(s0, run') == Some(s') && QuietRun(run')
    ensures s' == s.(remintUsed := false, reconnectCount := s.reconnectCount + 1, attempts := s.attempts + 1,
                     schedules := s.schedules + 1)
  {
    run', s' := Extend(s0, run, s, SocketOpened);
    run', s' := Extend(s0, run', s', SocketClosed(true));
    run', s' := Extend(s0, run', s', TimerFired);
  }

  /** Rejected, re-minted, opened, lost, and again: the cycle that spends both budgets. */
  lemma {:induction false} Cycles(n: nat) returns (run: seq<Event>, s: State)
    requires n <= MAX_RECONNECTS
    ensures Exec(Start(), run) == Some(s) && QuietRun(run)
    ensures s == Start().(reconnectCount := n, attempts := 1 + 2 * n, schedules := n, remints := n)
  {
    if n == 0 {
      run, s := [], Start();
    } else {
      run, s := Cycles(n - 1);
      run, s := RejectAndMint(Start(), run, s);
      run, s := OpenAndLose(Start(), run, s);
    }
  }

  /** The bounds are reached: a quiet run with 5 reconnects, 6 re-mints and 12 attempts. */
  lemma BoundsAreTight() returns (run: seq<Event>)
    ensures QuietRun(run) && Exec(Start(), run).Some?
    ensures var s := Exec(Start(), run).value; s.schedules == 5 && s.remints == 6 && s.attempts == 12
  {
    var s;
    run, s := Cycles(MAX_RECONNECTS);
    run, s := RejectAndMint(Start(), run, s);
  }

  // ------------------------------------------------------ after the evaluation

  /** The interview is over for the client: nothing is under way that could connect. */
  predicate Over(s: State) { s.evaluated && !s.timer && !s.minting }

  /** Nothing was scheduled, re-minted or attempted between two states. */
  predicate NoRetry(s: State, t: State) {
    && t.schedules == s.schedules && t.remints == s.remints && t.attempts == s.attempts
    && (t.disconnected ==> s.disconnected)
  }

  lemma StepAfterEvaluation(s: State, e: Event)
    requires Over(s) && Enabled(s, e)
    ensures Over(Apply(s, e)) && NoRetry(s, Apply(s, e))
  {}

  lemma {:induction false} OverStaysOver(s: State, events: seq<Event>)
    requires Over(s) && Exec(s, events).Some?
    ensures Over(Exec(s, events).value) && NoRetry(s, Exec(s, events).value)
    decreases |events|
  {
    if events != [] {
      StepAfterEvaluation(s, events[0]);
      OverStaysOver(Apply(s, events[0]), events[1..]);
    }
  }

  /** An evaluation ends the connection for good: after it, whatever events follow, further frames
      included, no reconnect is scheduled, no ticket minted, no connection attempted, and the
      disconnected state is not entered. */
  lemma EvaluationEndsRetries(before: seq<Event>, after: seq<Event>)
    requires Exec(Start(), before).Some? && Enabled(Exec(Start(), before).value, EvaluationFrame)
    requires Exec(Apply(Exec(Start(), before).value, EvaluationFrame), after).Some?
    ensures var s := Exec(Start(), before).value;
            var t := Exec(Apply(s, EvaluationFrame), after).value;
            NoRetry(s, t) && !t.timer && !t.minting
  {
    RunKeepsInv(Start(), before);
    OverStaysOver(Apply(Exec(Start(), before).value, EvaluationFrame), after);
  }

  // ------------------------------------------------------------- refilling

  /** A connection that was lost or rejected, and retried; an invitation token is not at hand. */
  lemma LoseAndRetry(s0: State, run: seq<Event>, s: State) returns (run': seq<Event>, s': State)
    requires Exec(s0, run) == Some(s) && QuietRun(run) && s.sock in {Connecting, Open}
    requires !s.closed && !s.closeNotified && !s.evaluated && s.reconnectCount < MAX_RECONNECTS
    ensures Exec(s0, run') == Some(s') && QuietRun(run') && s'.sock == Connecting
    ensures !s'.closed && !s'.closeNotified && !s'.evaluated
    ensures s'.reconnectCount == s.reconnectCount + 1 && s'.schedules == s.schedules + 1
  {
    run', s' := Extend(s0, run, s, SocketClosed(false));
    run', s' := Extend(s0, run', s', TimerFired);
  }

  lemma {:induction false} LoseAndRetryTimes(s0: State, run: seq<Event>, s: State, n: nat) returns (run': seq<Event>, s': State)
    requires Exec(s0, run) == Some(s) && QuietRun(run) && s.sock in {Connecting, Open}
    requires !s.closed && !s.closeNotified && !s.evaluated && s.reconnectCount + n == MAX_RECONNECTS
    ensures Exec(s0, run') == Some(s') && QuietRun(run') && s'.sock in {Connecting, Open}
    ensures !s'.closed && !s'.closeNotified && !s'.evaluated
    ensures s'.reconnectCount == MAX_RECONNECTS && s'.schedules == s.schedules + n
    decreases n
  {
    run', s' := run, s;
    if n > 0 {
      run', s' := LoseAndRetry(s0, run, s);
      run', s' := LoseAndRetryTimes(s0, run', s', n - 1);
    }
  }

  /** A start or question frame grants the whole reconnect budget anew and takes the disconnected state
      back: from it a quiet run can schedule five reconnects, and the sixth loss disconnects. */
  lemma FrameRefillsTheBudget(s: State, e: Event) returns (run: seq<Event>)
    requires Inv(s) && Enabled(s, e) && (e.StartFrame? || e.QuestionFrame?) && !s.closed && !s.evaluated
    ensures !Apply(s, e).disconnected && QuietRun(run) && Exec(Apply(s, e), run).Some?
    ensures var t := Exec(Apply(s, e), run).value; t.schedules == s.schedules + 5 && t.disconnected
  {
    var t := Apply(s, e);
    run, t := LoseAndRetryTimes(t, [], t, 5);
    run, t := Extend(Apply(s, e), run, t, SocketClosed(false));
  }

  // ------------------------------------------------------------- unmounting

  /** No retry is under way: unmounted, with no timer and no mint pending. */
  predicate Silent(s: State) { s.closed && !s.timer && !s.minting }

  lemma StepStaysSilent(s: State, e: Event)
    requires Silent(s) && Enabled(s, e)
    ensures Silent(Apply(s, e)) && Apply(s, e).attempts == s.attempts && Apply(s, e).schedules == s.schedules
  {}

  lemma {:induction false} StaysSilent(s: State, events: seq<Event>)
    requires Silent(s) && Exec(s, events).Some?
    ensures Exec(s, events).value.attempts == s.attempts && Exec(s, events).value.schedules == s.schedules
    decreases |events|
  {
    if events != [] {
      StepStaysSilent(s, events[0]);
      StaysSilent(Apply(s, events[0]), events[1..]);
    }
  }

  /** Unmounting silences the client exactly when no mint is pending: otherwise the minted ticket still
      opens a connection. */
  lemma UnmountSilencesExactly(s: State)
    requires Inv(s) && !s.closed
    ensures (forall events | Exec(Apply(s, Unmounted), events).Some? ::
               Exec(Apply(s, Unmounted), events).value.attempts == s.attempts)
            <==> !s.minting
  {
    var t := Apply(s, Unmounted);
    if s.minting {
      var run, t1 := [], t;
      if t.sock != Down {
        run, t1 := Extend(t, run, t1, SocketClosed(false));
      }
      run, t1 := Extend(t, run, t1, Minted);
    } else {
      forall events | Exec(t, events).Some? ensures Exec(t, events).value.attempts == s.attempts {
        StaysSilent(t, events);
      }
    }
  }

  /** Every new connection is watched: it is one more attempt, and if it closes, something follows from that:
      another attempt, a mint or the notice of the loss, unless the interview was evaluated. */
  lemma EveryConnectionIsWatched(s: State, e: Event, token: bool)
    requires Inv(s) && Enabled(s, e) && (e == TimerFired || e == Minted)
    ensures Apply(s, e).attempts == s.attempts + 1 && Enabled(Apply(s, e), SocketClosed(token))
    ensures var t := Apply(Apply(s, e), SocketClosed(token));
            s.evaluated || t.timer || t.minting || t.disconnected
  {
    StepKeepsInv(s, e);
  }
}
