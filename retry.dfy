/** Connection supervision of the gateway handler
    (custom_components/myhome/gateway.py, `listening_loop` and `sending_loop`),
    as pure step semantics over the outcomes of the network calls. The
    outcomes are inputs: the model does not decide when a connection fails,
    it states what each loop does when it does. */
module Retry {
  import opened Messages

  const MaxListenerRetries := 5
  const BaseDelay := 2
  const MaxSenderBackoff := 60

  function Pow2(n: nat): (r: nat)
    ensures r >= 1
  {
    if n == 0 then 1 else 2 * Pow2(n - 1)
  }

  function Min(a: int, b: int): int { if a < b then a else b }

  /** Seconds the listener sleeps before connecting after `retry` consecutive failures. */
  function ListenerDelay(retry: nat): (d: nat)
    ensures retry == 0 <==> d == 0
    ensures retry > 0 ==> d == Pow2(retry)
  {
    if retry == 0 then 0 else BaseDelay * Pow2(retry - 1)
  }

  /** Seconds a sending worker sleeps before reconnecting after `retry` consecutive failures. */
  function SenderDelay(retry: nat): (d: nat)
    ensures d <= MaxSenderBackoff
    ensures retry == 0 <==> d == 0
    ensures retry > 0 ==> d == Min(Pow2(retry), MaxSenderBackoff)
  {
    if retry == 0 then 0 else Min(BaseDelay * Pow2(retry - 1), MaxSenderBackoff)
  }

  // ---------------------------------------------------------------------------
  // The listener: one attempt is one turn of the outer loop
  // ---------------------------------------------------------------------------

  /** How an established event session ended. */
  datatype SessionEnd =
    | ReadFailed      // connection lost while reading
    | Cancelled       // the listener task was cancelled
    | LookupError     // a registry lookup raised KeyError while handling a message
    | HandlerCrashed  // any other exception while handling a message
    | Terminated      // close_listener ran; the inner loop ended normally

  datatype Attempt =
    | Connected(end: SessionEnd)
    | ConnectFailed   // OSError, ConnectionError or TimeoutError while connecting
    | ConnectCrashed  // any other exception while connecting

  datatype ListenerExit = RetriesExhausted | ConnectCrash | ListenerCancelled | ListenerTerminated | Running

  /** The sleeps taken, the failure counter, how the loop ended (`Running`
      when the attempts ran out first) and how many attempts it consumed. */
  datatype ListenerRun = ListenerRun(sleeps: seq<nat>, retry: nat, exit: ListenerExit, used: nat)

  datatype AttemptResult = AttemptResult(pauses: seq<nat>, retry: nat, exit: ListenerExit)

  /** One turn of the outer loop, after its backoff sleep. */
  function ListenerAttempt(retry: nat, a: Attempt): (r: AttemptResult)
    ensures a.Connected? ==> r.retry == 0
    ensures a.ConnectFailed? ==> r.retry == retry + 1
    ensures r.exit == RetriesExhausted <==> a.ConnectFailed? && retry + 1 >= MaxListenerRetries
  {
    match a
    case ConnectFailed =>
      AttemptResult([], retry + 1, if retry + 1 >= MaxListenerRetries then RetriesExhausted else Running)
    case ConnectCrashed => AttemptResult([], retry, ConnectCrash)
    case Connected(end) =>
      match end
      case ReadFailed => AttemptResult([], 0, Running)
      case Cancelled => AttemptResult([], 0, ListenerCancelled)
      case LookupError => AttemptResult([1], 0, Running)
      case HandlerCrashed => AttemptResult([5], 0, Running)
      case Terminated => AttemptResult([], 0, ListenerTerminated)
  }

  function BackoffSleep(retry: nat): seq<nat>
  {
    if retry > 0 then [ListenerDelay(retry)] else []
  }

  /** The outer loop run over a script of attempts, from failure counter `retry`. */
  function RunListener(retry: nat, attempts: seq<Attempt>): (r: ListenerRun)
    ensures r.used <= |attempts|
    ensures r.exit == Running ==> r.used == |attempts|
    decreases |attempts|
  {
    if |attempts| == 0 then ListenerRun([], retry, Running, 0)
    else
      var step := ListenerAttempt(retry, attempts[0]);
      var now := BackoffSleep(retry) + step.pauses;
      if step.exit != Running then ListenerRun(now, step.retry, step.exit, 1)
      else
        var rest := RunListener(step.retry, attempts[1..]);
        ListenerRun(now + rest.sleeps, rest.retry, rest.exit, rest.used + 1)
  }

  function Failures(n: nat): (r: seq<Attempt>)
    ensures |r| == n && forall i :: 0 <= i < n ==> r[i] == ConnectFailed
  {
    if n == 0 then [] else [ConnectFailed] + Failures(n - 1)
  }

  /** Five consecutive failed connects stop the listener, after sleeping
      2, 4, 8 and 16 seconds, whatever would have come next. */
  lemma FiveFailuresStopListener(rest: seq<Attempt>)
    ensures RunListener(0, Failures(5) + rest) == ListenerRun([2, 4, 8, 16], 5, RetriesExhausted, 5)
  {
    var a := Failures(5) + rest;
    assert a[1..] == Failures(4) + rest;
    assert a[2..] == Failures(3) + rest;
    assert a[3..] == Failures(2) + rest;
    assert a[4..] == Failures(1) + rest;
    assert RunListener(4, a[4..]) == ListenerRun([16], 5, RetriesExhausted, 1);
    assert RunListener(3, a[3..]) == ListenerRun([8, 16], 5, RetriesExhausted, 2);
    assert RunListener(2, a[2..]) == ListenerRun([4, 8, 16], 5, RetriesExhausted, 3);
    assert RunListener(1, a[1..]) == ListenerRun([2, 4, 8, 16], 5, RetriesExhausted, 4);
  }

  /** The last `n` attempts consumed were all failed connects. */
  predicate TrailingFailures(attempts: seq<Attempt>, used: nat, n: nat)
    requires used <= |attempts|
  {
    used >= n && forall i :: used - n <= i < used ==> attempts[i] == ConnectFailed
  }

  /** The listener gives up only right after `MaxListenerRetries - retry`
      consecutive failed connects, or after `MaxListenerRetries` of them once
      any other attempt has been made. */
  lemma {:induction false} ExhaustedAfterConsecutiveFailures(retry: nat, attempts: seq<Attempt>)
    requires retry < MaxListenerRetries
    ensures var r := RunListener(retry, attempts);
            r.exit == RetriesExhausted ==>
              TrailingFailures(attempts, r.used, MaxListenerRetries - retry) &&
              (r.used > MaxListenerRetries - retry ==> TrailingFailures(attempts, r.used, MaxListenerRetries))
    decreases |attempts|
  {
    var r := RunListener(retry, attempts);
    if |attempts| > 0 && r.exit == RetriesExhausted {
      var step := ListenerAttempt(retry, attempts[0]);
      if step.exit == Running {
        ExhaustedAfterConsecutiveFailures(step.retry, attempts[1..]);
        var rest := RunListener(step.retry, attempts[1..]);
        assert r.used == rest.used + 1;
        forall i | 0 < i < r.used ensures attempts[i] == attempts[1..][i - 1] {
        }
      }
    }
  }

  /** From a fresh start, the listener stops for retries only after five
      consecutive failed connects. */
  lemma ExhaustedOnlyAfterFiveFailures(attempts: seq<Attempt>)
    ensures var r := RunListener(0, attempts);
            r.exit == RetriesExhausted ==> TrailingFailures(attempts, r.used, 5)
  {
    ExhaustedAfterConsecutiveFailures(0, attempts);
  }

  predicate IsSessionError(a: Attempt)
  {
    a.Connected? && (a.end == ReadFailed || a.end == LookupError || a.end == HandlerCrashed)
  }

  /** Losing an established session never counts towards the retry limit:
      over any run of sessions that end in errors the listener keeps going
      with its counter at zero and no backoff, pausing 1 s after a lookup
      error and 5 s after any other handler failure. */
  lemma {:induction false} SessionErrorsNeverStopListener(attempts: seq<Attempt>)
    requires forall i :: 0 <= i < |attempts| ==> IsSessionError(attempts[i])
    ensures RunListener(0, attempts).exit == Running
    ensures RunListener(0, attempts).retry == 0
    ensures forall s :: s in RunListener(0, attempts).sleeps ==> s == 1 || s == 5
    decreases |attempts|
  {
    if |attempts| > 0 {
      SessionErrorsNeverStopListener(attempts[1..]);
    }
  }

  /** A successful connection resets the failure counter: what follows runs
      exactly as from a fresh start. */
  lemma ConnectionResetsBackoff(retry: nat, end: SessionEnd, rest: seq<Attempt>)
    requires end == ReadFailed || end == LookupError || end == HandlerCrashed
    ensures RunListener(retry, [Connected(end)] + rest).sleeps ==
              BackoffSleep(retry) + ListenerAttempt(retry, Connected(end)).pauses + RunListener(0, rest).sleeps
    ensures RunListener(retry, [Connected(end)] + rest).exit == RunListener(0, rest).exit
  {
    assert ([Connected(end)] + rest)[1..] == rest;
  }

  // ---------------------------------------------------------------------------
  // A sending worker: one step is one turn of its loop
  // ---------------------------------------------------------------------------

  datatype ConnectOutcome = ConnectOk | ConnectError | ConnectCancelled

  /** What happens while waiting on the queue (only when it is empty) or
      while sending the queued item at its head. */
  datatype SendOutcome = SendOk | SendError | SendCancelled

  /** The worker's `command_session`: none, an object whose `connect()`
      raised, or a connected one. Only `NoSession` makes a turn connect. */
  datatype Session = NoSession | Bound | Live

  datatype SenderState = SenderState(retry: nat, session: Session, finished: bool)

  const FreshSender := SenderState(0, NoSession, false)

  /** The worker state after the turn, the queue, the backoff slept, and the
      task transmitted, if any. */
  datatype SenderTurn = SenderTurn(state: SenderState, queue: seq<QueueItem>, sleep: nat, sent: seq<QueueItem>)

  /** One turn of `sending_loop`. `stop` is the terminate flag at the top of
      the loop; `stopAfterSend` is its value when a failed or cancelled send
      is settled. `keepFailedSession` says whether a session whose `connect()`
      raised stays bound: the code binds it before connecting and never
      unbinds it on that path. */
  function SenderTurnFor(keepFailedSession: bool, s: SenderState, queue: seq<QueueItem>, stop: bool,
                         stopAfterSend: bool, c: ConnectOutcome, o: SendOutcome): SenderTurn
  {
    if s.finished then SenderTurn(s, queue, 0, [])
    else if stop then SenderTurn(s.(session := NoSession, finished := true), queue, 0, [])
    else
      var reconnect := s.session == NoSession;
      var sleep := if reconnect then SenderDelay(s.retry) else 0;
      if reconnect && c == ConnectCancelled then SenderTurn(s.(finished := true), queue, sleep, [])
      else if reconnect && c == ConnectError then
        SenderTurn(s.(retry := s.retry + 1, session := if keepFailedSession then Bound else NoSession),
                   queue, sleep, [])
      else
        var s1 := if reconnect then s.(session := Live, retry := 0) else s;
        if |queue| == 0 then
          if o == SendCancelled then SenderTurn(s1.(session := NoSession, finished := true), queue, sleep, [])
          else SenderTurn(s1, queue, sleep, [])
        else if queue[0].Shutdown? then SenderTurn(s1.(session := NoSession, finished := true), queue[1..], sleep, [])
        else
          var requeue := if stopAfterSend then [] else [queue[0]];
          match o
          case SendOk => SenderTurn(s1.(retry := 0), queue[1..], sleep, [queue[0]])
          case SendError => SenderTurn(s1.(retry := s1.retry + 1, session := NoSession), queue[1..] + requeue, sleep, [])
          case SendCancelled => SenderTurn(s1.(session := NoSession, finished := true), queue[1..] + requeue, sleep, [])
  }

  /** The loop turn as written: a session whose connect failed stays bound. */
  function SenderStep(s: SenderState, queue: seq<QueueItem>, stop: bool, stopAfterSend: bool,
                      c: ConnectOutcome, o: SendOutcome): (t: SenderTurn)
    ensures s.finished ==> t == SenderTurn(s, queue, 0, [])
    ensures t.sent == [] || (|queue| > 0 && queue[0].Task? && t.sent == [queue[0]])
    ensures t.sleep <= MaxSenderBackoff && (t.sleep > 0 ==> s.session == NoSession)
    ensures t.state.retry <= s.retry + 1
    ensures t.sent != [] ==> t.state.retry == 0 && t.queue == queue[1..]
  {
    SenderTurnFor(true, s, queue, stop, stopAfterSend, c, o)
  }

  /** The turn the retry logging describes: a failed connect leaves no
      session, so the next turn backs off and connects again. */
  function ReconnectingSenderStep(s: SenderState, queue: seq<QueueItem>, stop: bool, stopAfterSend: bool,
                                  c: ConnectOutcome, o: SendOutcome): SenderTurn
  {
    SenderTurnFor(false, s, queue, stop, stopAfterSend, c, o)
  }

  /** A failed connect counts one more failure, keeps the queue and never
      ends the worker; the wait of that turn came before the connect. The
      session object stays bound. */
  lemma SenderNeverGivesUp(s: SenderState, queue: seq<QueueItem>, o: SendOutcome)
    requires !s.finished && s.session == NoSession
    ensures var t := SenderStep(s, queue, false, false, ConnectError, o);
            !t.state.finished && t.state.retry == s.retry + 1 && t.queue == queue &&
            t.state.session == Bound &&
            t.sleep == Min(if s.retry == 0 then 0 else Pow2(s.retry), MaxSenderBackoff)
  {
  }

  /** `n` turns in which every connect that is attempted fails and every
      send fails, with no termination: the final state and the waits. */
  function ConnectFailureRun(keepFailedSession: bool, s: SenderState, queue: seq<QueueItem>, n: nat)
    : (r: (SenderState, seq<nat>))
    ensures |r.1| == n
    decreases n
  {
    if n == 0 then (s, [])
    else
      var t := SenderTurnFor(keepFailedSession, s, queue, false, false, ConnectError, SendError);
      var rest := ConnectFailureRun(keepFailedSession, t.state, t.queue, n - 1);
      (rest.0, [t.sleep] + rest.1)
  }

  /** As written, an idle worker whose first connect fails never tries to
      connect again: it holds the unconnected session, its counter stays at
      1 and it never waits. */
  lemma FailedConnectStopsReconnecting(n: nat)
    requires n >= 1
    ensures var r := ConnectFailureRun(true, FreshSender, [], n);
            r.0 == SenderState(1, Bound, false) && forall i :: 0 <= i < n ==> r.1[i] == 0
  {
    var t := SenderStep(FreshSender, [], false, false, ConnectError, SendError);
    assert t.state == SenderState(1, Bound, false) && t.sleep == 0;
    StaleSessionIdles(t.state, n - 1);
  }

  /** An idle worker holding a session never connects and never waits. */
  lemma {:induction false} StaleSessionIdles(s: SenderState, n: nat)
    requires s.session == Bound && !s.finished
    ensures var r := ConnectFailureRun(true, s, [], n);
            r.0 == s && forall i :: 0 <= i < n ==> r.1[i] == 0
  {
    if n > 0 {
      StaleSessionIdles(s, n - 1);
    }
  }

  /** As written, the turn after a failed connect neither waits nor
      connects: the next task goes to the unconnected session. */
  lemma FailedConnectSkipsBackoff(task: QueueItem, c: ConnectOutcome, o: SendOutcome)
    requires task.Task?
    ensures var t1 := SenderStep(FreshSender, [task], false, false, ConnectError, o);
            var t2 := SenderStep(t1.state, [task], false, false, c, SendOk);
            t1.state == SenderState(1, Bound, false) && t1.queue == [task] &&
            t2.sleep == 0 && t2.sent == [task] && t2.state == SenderState(0, Bound, false)
  {
  }

  /** With the intended policy, consecutive connect failures wait 0, 2, 4,
      8, ... seconds, capped at 60, and each turn connects again. */
  lemma {:induction false} ReconnectAfterFailedConnect(s: SenderState, queue: seq<QueueItem>, n: nat)
    requires !s.finished && s.session == NoSession
    ensures var r := ConnectFailureRun(false, s, queue, n);
            r.0 == s.(retry := s.retry + n) && forall i :: 0 <= i < n ==> r.1[i] == SenderDelay(s.retry + i)
    decreases n
  {
    if n > 0 {
      var t := ReconnectingSenderStep(s, queue, false, false, ConnectError, SendError);
      assert t.state == s.(retry := s.retry + 1) && t.queue == queue && t.sleep == SenderDelay(s.retry);
      ReconnectAfterFailedConnect(t.state, queue, n - 1);
    }
  }

  /** A task whose send fails is put back at the tail of the queue, unless
      the handler is terminating, and the session is dropped. */
  lemma FailedTaskRequeued(s: SenderState, queue: seq<QueueItem>, c: ConnectOutcome)
    requires !s.finished && (s.session != NoSession || c == ConnectOk)
    requires |queue| > 0 && queue[0].Task?
    ensures var t := SenderStep(s, queue, false, false, c, SendError);
            t.queue == queue[1..] + [queue[0]] && multiset(t.queue) == multiset(queue) &&
            t.state.session == NoSession && !t.state.finished && t.sent == []
    ensures var t := SenderStep(s, queue, false, true, c, SendError);
            t.queue == queue[1..] && t.sent == []
  {
    assert queue == [queue[0]] + queue[1..];
  }

  /** A successful send takes the head task off the queue, transmits it, and
      resets the backoff. */
  lemma SuccessfulSendDequeues(s: SenderState, queue: seq<QueueItem>, c: ConnectOutcome, stopAfterSend: bool)
    requires !s.finished && (s.session != NoSession || c == ConnectOk)
    requires |queue| > 0 && queue[0].Task?
    ensures var t := SenderStep(s, queue, false, stopAfterSend, c, SendOk);
            t.queue == queue[1..] && t.sent == [queue[0]] && t.state.retry == 0 &&
            t.state.session == (if s.session == NoSession then Live else s.session)
  {
  }

  /** The shutdown sentinel ends the worker that takes it, and no other. */
  lemma ShutdownEndsWorker(s: SenderState, queue: seq<QueueItem>, c: ConnectOutcome, o: SendOutcome, stopAfterSend: bool)
    requires !s.finished && (s.session != NoSession || c == ConnectOk)
    requires |queue| > 0 && queue[0] == Shutdown
    ensures var t := SenderStep(s, queue, false, stopAfterSend, c, o);
            t.state.finished && t.queue == queue[1..] && t.sent == []
  {
  }

  /** Outside termination no task is ever lost: what was queued is still
      queued or has been transmitted. */
  lemma NoTaskLost(s: SenderState, queue: seq<QueueItem>, c: ConnectOutcome, o: SendOutcome)
    requires |queue| == 0 || queue[0].Task?
    ensures var t := SenderStep(s, queue, false, false, c, o);
            multiset(t.queue) + multiset(t.sent) == multiset(queue)
  {
    if |queue| > 0 {
      assert queue == [queue[0]] + queue[1..];
    }
  }
}
