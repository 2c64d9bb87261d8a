/** The gateway handler (custom_components/myhome/gateway.py, class
    `MyHOMEGatewayHandler`) and its sending workers: the send queue, the
    discovery state, the rate-limiting counters and the connection flags are
    fields that the methods update in place. */
module Gateway {
  import opened Wrappers
  import opened Strings
  import opened OwnWhere
  import opened Messages
  import opened Discovery
  import opened Dispatch
  import opened Retry

  // ---------------------------------------------------------------------------
  // Rate-limited logging
  // ---------------------------------------------------------------------------

  const LogInterval := 60

  /** Whether the `count`-th occurrence of a key is logged: the first, then every 60th. */
  predicate ShouldLog(count: nat)
  {
    count == 1 || count % LogInterval == 0
  }

  /** How many of the first `n` occurrences of a key are logged. */
  function LogsUpTo(n: nat): nat
  {
    if n == 0 then 0 else LogsUpTo(n - 1) + (if ShouldLog(n) then 1 else 0)
  }

  /** N occurrences of one key produce 1 + floor(N / 60) log lines. */
  lemma {:induction false} LogsUpToFormula(n: nat)
    requires n >= 1
    ensures LogsUpTo(n) == 1 + n / LogInterval
  {
    if n > 1 {
      LogsUpToFormula(n - 1);
      assert (n - 1) / LogInterval + (if n % LogInterval == 0 then 1 else 0) == n / LogInterval;
    }
  }

  function CountOf(counts: map<string, nat>, key: string): nat
  {
    if key in counts then counts[key] else 0
  }

  /** The counters after counting every `CountOccurrence` among `actions`. */
  function CountAll(counts: map<string, nat>, actions: seq<Action>): map<string, nat>
    decreases |actions|
  {
    if |actions| == 0 then counts
    else if actions[0].CountOccurrence? then
      CountAll(counts[actions[0].key := CountOf(counts, actions[0].key) + 1], actions[1..])
    else CountAll(counts, actions[1..])
  }

  /** Whether counting `actions` from `counts` logs anything. */
  function LogsAny(counts: map<string, nat>, actions: seq<Action>): bool
    decreases |actions|
  {
    if |actions| == 0 then false
    else if actions[0].CountOccurrence? then
      ShouldLog(CountOf(counts, actions[0].key) + 1) ||
      LogsAny(counts[actions[0].key := CountOf(counts, actions[0].key) + 1], actions[1..])
    else LogsAny(counts, actions[1..])
  }

  lemma {:induction false} CountAllOthersUnchanged(counts: map<string, nat>, actions: seq<Action>, key: string)
    requires forall a :: a in actions ==> !(a.CountOccurrence? && a.key == key)
    ensures CountOf(CountAll(counts, actions), key) == CountOf(counts, key)
    decreases |actions|
  {
    if |actions| > 0 {
      assert actions[0] in actions;
      if actions[0].CountOccurrence? {
        CountAllOthersUnchanged(counts[actions[0].key := CountOf(counts, actions[0].key) + 1], actions[1..], key);
      } else {
        CountAllOthersUnchanged(counts, actions[1..], key);
      }
    }
  }

  /** The number of sending workers: the configured worker count, else one. */
  function WorkerCount(configured: Option<int>): (n: int)
    ensures configured.None? ==> n == 1
    ensures configured.Some? ==> n == configured.value
  {
    match configured
    case Some(n) => n
    case None => 1
  }

  function Shutdowns(n: nat): (r: seq<QueueItem>)
    ensures |r| == n && forall i :: 0 <= i < n ==> r[i] == Shutdown
  {
    if n == 0 then [] else Shutdowns(n - 1) + [Shutdown]
  }

  /** A listener run with `sleeps` already taken and `used` attempts consumed. */
  function After(sleeps: seq<nat>, used: nat, r: ListenerRun): ListenerRun
  {
    ListenerRun(sleeps + r.sleeps, r.retry, r.exit, r.used + used)
  }

  lemma AfterAfter(sleeps: seq<nat>, used: nat, now: seq<nat>, r: ListenerRun)
    ensures After(sleeps, used, After(now, 1, r)) == After(sleeps + now, used + 1, r)
  {
    assert sleeps + (now + r.sleeps) == sleeps + now + r.sleeps;
  }

  lemma ListenerUnfold(retry: nat, attempts: seq<Attempt>, i: nat)
    requires i < |attempts|
    ensures var step := ListenerAttempt(retry, attempts[i]);
            var now := BackoffSleep(retry) + step.pauses;
            RunListener(retry, attempts[i..]) ==
              if step.exit != Running then ListenerRun(now, step.retry, step.exit, 1)
              else After(now, 1, RunListener(step.retry, attempts[i + 1..]))
  {
    assert attempts[i..][0] == attempts[i];
    assert attempts[i..][1..] == attempts[i + 1..];
  }

  /** One turn of the listening loop, in terms of the whole run. */
  lemma ListenerLoopStep(attempts: seq<Attempt>, i: nat, retry: nat, before: seq<nat>,
                         pauses: seq<nat>, next: nat, exit: ListenerExit)
    requires i < |attempts|
    requires AttemptResult(pauses, next, exit) == ListenerAttempt(retry, attempts[i])
    requires RunListener(0, attempts) == After(before, i, RunListener(retry, attempts[i..]))
    ensures exit != Running ==>
              RunListener(0, attempts) == ListenerRun(before + (BackoffSleep(retry) + pauses), next, exit, i + 1)
    ensures exit == Running ==>
              RunListener(0, attempts) ==
                After(before + (BackoffSleep(retry) + pauses), i + 1, RunListener(next, attempts[i + 1..]))
  {
    ListenerUnfold(retry, attempts, i);
    var now := BackoffSleep(retry) + pauses;
    if exit == Running {
      AfterAfter(before, i, now, RunListener(next, attempts[i + 1..]));
    } else {
      assert before + (now + []) == before + now;
    }
  }

  class GatewayHandler {
    const generateEvents: bool
    var terminateListener: bool
    var terminateSender: bool
    var isConnected: bool
    /** The asyncio queue shared by the listener, the services and the workers. */
    var sendBuffer: seq<QueueItem>
    var messageCount: map<string, nat>
    var discoveryInProgress: bool
    var discoveryResults: Snapshot
    var discoveryByActivation: bool
    var activationResults: Snapshot
    /** How many sending workers have been started. */
    var sendingWorkers: nat

    constructor(generateEvents: bool, discoveryByActivation: bool)
      ensures this.generateEvents == generateEvents && this.discoveryByActivation == discoveryByActivation
      ensures !terminateListener && !terminateSender && !isConnected && !discoveryInProgress
      ensures sendBuffer == [] && messageCount == map[] && sendingWorkers == 0
      ensures discoveryResults == EmptySnapshot && activationResults == EmptySnapshot
    {
      this.generateEvents := generateEvents;
      this.discoveryByActivation := discoveryByActivation;
      terminateListener := false;
      terminateSender := false;
      isConnected := false;
      sendBuffer := [];
      messageCount := map[];
      discoveryInProgress := false;
      discoveryResults := EmptySnapshot;
      activationResults := EmptySnapshot;
      sendingWorkers := 0;
    }

    method SetDiscoveryByActivation(enabled: bool)
      modifies this`discoveryByActivation
      ensures discoveryByActivation == enabled
    {
      discoveryByActivation := enabled;
    }

    method Send(c: Command)
      modifies this`sendBuffer
      ensures sendBuffer == old(sendBuffer) + [Task(c, false)]
    {
      sendBuffer := sendBuffer + [Task(c, false)];
    }

    method SendStatusRequest(c: Command)
      modifies this`sendBuffer
      ensures sendBuffer == old(sendBuffer) + [Task(c, true)]
    {
      sendBuffer := sendBuffer + [Task(c, true)];
    }

    method ClearActivationDiscoveryResults()
      modifies this`activationResults
      ensures activationResults == EmptySnapshot
    {
      activationResults := EmptySnapshot;
    }

    /** The passive snapshot, sorted; emptied afterwards when `clear`. */
    method GetActivationDiscoveryResults(clear: bool) returns (r: Report)
      modifies this`activationResults
      ensures Reports(r, old(activationResults))
      ensures activationResults == if clear then EmptySnapshot else old(activationResults)
    {
      r := ReportOf(activationResults);
      if clear {
        ClearActivationDiscoveryResults();
      }
    }

    /** The collector of an active scan: records only while a scan runs. */
    method CollectDiscoveryResult(k: Kind)
      modifies this`discoveryResults
      ensures discoveryResults == if discoveryInProgress then Record(old(discoveryResults), k) else old(discoveryResults)
    {
      if discoveryInProgress {
        discoveryResults := Record(discoveryResults, k);
      }
    }

    /** The passive collector: records only while discovery by activation is on. */
    method CollectActivationDiscoveryResult(k: Kind)
      modifies this`activationResults
      ensures activationResults ==
                if discoveryByActivation then Record(old(activationResults), k) else old(activationResults)
    {
      if discoveryByActivation {
        activationResults := Record(activationResults, k);
      }
    }

    /** The first half of `discover_devices`: refuse a second scan, clamp the
        range, reset the results and enqueue every probe, area by area and
        point by point. The wait for replies happens between this and
        `FinishDiscovery`. */
    method StartDiscovery(f: ScanFlags, areaStart: int, areaEnd: int, pointStart: int, pointEnd: int,
                          duration: int) returns (r: Result<ScanRange, string>)
      modifies this`discoveryInProgress, this`discoveryResults, this`sendBuffer
      ensures old(discoveryInProgress) ==>
                r.Failure? && discoveryInProgress && discoveryResults == old(discoveryResults) &&
                sendBuffer == old(sendBuffer)
      ensures !old(discoveryInProgress) ==>
                r == Success(NormalizeScan(areaStart, areaEnd, pointStart, pointEnd, duration)) &&
                discoveryInProgress && discoveryResults == EmptySnapshot &&
                sendBuffer == old(sendBuffer) + StatusTasks(ProbePlan(r.value, f))
    {
      if discoveryInProgress {
        return Failure("A discovery scan is already in progress.");
      }
      var range := NormalizeScan(areaStart, areaEnd, pointStart, pointEnd, duration);
      discoveryInProgress := true;
      discoveryResults := EmptySnapshot;
      ghost var start := sendBuffer;
      ProbeGrid(range, f);
      ghost var grid := GridProbes(range.areaStart, range.areaEnd, range.pointStart, range.pointEnd, f);
      ghost var power: seq<Command> := if f.power then PowerProbes(PowerDiscoveryEndpoints) else [];
      if f.power {
        ProbePower();
      } else {
        assert StatusTasks(power) == [];
      }
      StatusTasksAppend(grid, power);
      AppendAssoc(start, StatusTasks(grid), StatusTasks(power));
      r := Success(range);
    }

    /** The probes for the whole grid, area by area. */
    method ProbeGrid(range: ScanRange, f: ScanFlags)
      modifies this`sendBuffer
      ensures sendBuffer == old(sendBuffer) + StatusTasks(GridProbes(range.areaStart, range.areaEnd, range.pointStart, range.pointEnd, f))
    {
      var a0, p0 := range.areaStart, range.pointStart;
      var area := a0;
      ghost var last: int := a0 - 1;
      while area <= range.areaEnd
        invariant a0 <= area && (area <= range.areaEnd + 1 || area == a0)
        invariant last == area - 1
        invariant sendBuffer == old(sendBuffer) + StatusTasks(GridProbes(a0, last, p0, range.pointEnd, f))
      {
        ghost var done := GridProbes(a0, last, p0, range.pointEnd, f);
        ghost var row := RowProbes(area, p0, range.pointEnd, f);
        ProbeRow(area, p0, range.pointEnd, f);
        StatusTasksAppend(done, row);
        AppendAssoc(old(sendBuffer), StatusTasks(done), StatusTasks(row));
        assert GridProbes(a0, area, p0, range.pointEnd, f) == done + row;
        last := area;
        area := area + 1;
      }
    }

    /** The probes for points `p0..pLast` of one area, in increasing order. */
    method ProbeRow(area: nat, p0: nat, pLast: nat, f: ScanFlags)
      modifies this`sendBuffer
      ensures sendBuffer == old(sendBuffer) + StatusTasks(RowProbes(area, p0, pLast, f))
    {
      var point := p0;
      ghost var last: int := p0 - 1;
      while point <= pLast
        invariant p0 <= point && (point <= pLast + 1 || point == p0)
        invariant last == point - 1
        invariant sendBuffer == old(sendBuffer) + StatusTasks(RowProbes(area, p0, last, f))
      {
        ghost var done := RowProbes(area, p0, last, f);
        ghost var probes := PointProbes(FormatPointToPoint(area, point), f);
        ProbePoint(FormatPointToPoint(area, point), f);
        StatusTasksAppend(done, probes);
        AppendAssoc(old(sendBuffer), StatusTasks(done), StatusTasks(probes));
        RowProbesStep(area, p0, last, point, f);
        last := point;
        point := point + 1;
      }
    }

    /** The energy probes sent after the grid when power discovery is selected. */
    method ProbePower()
      modifies this`sendBuffer
      ensures sendBuffer == old(sendBuffer) + StatusTasks(PowerProbes(PowerDiscoveryEndpoints))
    {
      var i := 0;
      while i < |PowerDiscoveryEndpoints|
        invariant 0 <= i <= |PowerDiscoveryEndpoints|
        invariant sendBuffer == old(sendBuffer) + StatusTasks(PowerProbes(PowerDiscoveryEndpoints[..i]))
      {
        SendStatusRequest(EnergyTotalConsumption(PowerDiscoveryEndpoints[i]));
        assert PowerDiscoveryEndpoints[..i + 1] == PowerDiscoveryEndpoints[..i] + [PowerDiscoveryEndpoints[i]];
        PowerProbesAppend(PowerDiscoveryEndpoints[..i], PowerDiscoveryEndpoints[i]);
        StatusTasksAppend(PowerProbes(PowerDiscoveryEndpoints[..i]), [EnergyTotalConsumption(PowerDiscoveryEndpoints[i])]);
        i := i + 1;
      }
      assert PowerDiscoveryEndpoints[..i] == PowerDiscoveryEndpoints;
    }

    /** The probes for one point: a status request per selected category. */
    method ProbePoint(where: string, f: ScanFlags)
      modifies this`sendBuffer
      ensures sendBuffer == old(sendBuffer) + StatusTasks(PointProbes(where, f))
    {
      ghost var start := sendBuffer;
      ghost var sent: seq<Command> := [];
      if f.lights {
        SendStatusRequest(LightingStatus(where));
        sent := sent + [LightingStatus(where)];
      }
      assert sendBuffer == start + StatusTasks(sent);
      if f.covers {
        SendStatusRequest(AutomationStatus(where));
        StatusTasksAppend(sent, [AutomationStatus(where)]);
        sent := sent + [AutomationStatus(where)];
      }
      assert sendBuffer == start + StatusTasks(sent);
      if f.climate {
        SendStatusRequest(HeatingStatus(where));
        StatusTasksAppend(sent, [HeatingStatus(where)]);
        sent := sent + [HeatingStatus(where)];
      }
      assert sent == PointProbes(where, f);
    }

    /** The second half of `discover_devices`: the scan's findings, sorted,
        and the scan marked finished (also when the wait was cancelled). */
    method FinishDiscovery() returns (r: Report)
      modifies this`discoveryInProgress
      ensures Reports(r, discoveryResults)
      ensures !discoveryInProgress
    {
      r := ReportOf(discoveryResults);
      discoveryInProgress := false;
    }

    /** One occurrence of a rate-limited key; whether it is logged. */
    method RecordOccurrence(key: string) returns (logged: bool)
      modifies this`messageCount
      ensures messageCount == old(messageCount)[key := CountOf(old(messageCount), key) + 1]
      ensures logged == ShouldLog(messageCount[key])
    {
      var count := if key in messageCount then messageCount[key] else 0;
      messageCount := messageCount[key := count + 1];
      logged := messageCount[key] == 1 || messageCount[key] % LogInterval == 0;
    }

    /** One turn of the inner listening loop: the collectors see every parsed
        message, then the message is routed; status requests go to the send
        queue and counted occurrences to the rate limiter. The remaining
        effects (handler calls, bus events) are returned in order. */
    method HandleMessage(m: Message, platforms: Platforms) returns (actions: seq<Action>, logged: bool)
      modifies this`discoveryResults, this`activationResults, this`sendBuffer, this`messageCount
      ensures actions == Route(m, platforms, generateEvents)
      ensures discoveryResults ==
                if discoveryInProgress && !m.kind.NotAMessage? then Record(old(discoveryResults), m.kind)
                else old(discoveryResults)
      ensures activationResults ==
                if discoveryByActivation && !m.kind.NotAMessage? then Record(old(activationResults), m.kind)
                else old(activationResults)
      ensures sendBuffer == old(sendBuffer) + StatusTasks(StatusRequests(actions))
      ensures messageCount == CountAll(old(messageCount), actions)
      ensures logged == LogsAny(old(messageCount), actions)
    {
      if !m.kind.NotAMessage? {
        CollectDiscoveryResult(m.kind);
        CollectActivationDiscoveryResult(m.kind);
      }
      actions := Route(m, platforms, generateEvents);
      logged := ApplyActions(actions);
    }

    /** Applying the routed actions in order. */
    method ApplyActions(actions: seq<Action>) returns (logged: bool)
      modifies this`sendBuffer, this`messageCount
      ensures sendBuffer == old(sendBuffer) + StatusTasks(StatusRequests(actions))
      ensures messageCount == CountAll(old(messageCount), actions)
      ensures logged == LogsAny(old(messageCount), actions)
    {
      logged := false;
      var i := 0;
      while i < |actions|
        invariant 0 <= i <= |actions|
        invariant sendBuffer == old(sendBuffer) + StatusTasks(StatusRequests(actions[..i]))
        invariant CountAll(old(messageCount), actions) == CountAll(messageCount, actions[i..])
        invariant LogsAny(old(messageCount), actions) == (logged || LogsAny(messageCount, actions[i..]))
      {
        ghost var counts := messageCount;
        ActionsUnfold(counts, actions, i);
        StatusTasksStep(actions, i);
        AppendAssoc(old(sendBuffer), StatusTasks(StatusRequests(actions[..i])),
                    StatusTasks(StatusRequests([actions[i]])));
        var l := ApplyAction(actions[i]);
        logged := logged || l;
        i := i + 1;
      }
      assert actions[..i] == actions;
    }

    /** The effect of one routed action on the handler: a status request is
        queued, an occurrence counted; the others leave the handler alone. */
    method ApplyAction(a: Action) returns (logged: bool)
      modifies this`sendBuffer, this`messageCount
      ensures sendBuffer == old(sendBuffer) + StatusTasks(StatusRequests([a]))
      ensures messageCount == CountAll(old(messageCount), [a])
      ensures logged == LogsAny(old(messageCount), [a])
    {
      logged := false;
      match a {
        case RequestStatus(c) =>
          SendStatusRequest(c);
        case CountOccurrence(key) =>
          logged := RecordOccurrence(key);
        case _ =>
      }
    }

    /** `close_listener`: ask both loops to stop and wake every sending worker. */
    method CloseListener()
      modifies this`terminateListener, this`terminateSender, this`sendBuffer
      ensures terminateListener && terminateSender
      ensures sendBuffer == old(sendBuffer) + Shutdowns(sendingWorkers)
    {
      terminateSender := true;
      terminateListener := true;
      var i := 0;
      while i < sendingWorkers
        invariant 0 <= i <= sendingWorkers
        invariant terminateListener && terminateSender
        invariant sendBuffer == old(sendBuffer) + Shutdowns(i)
      {
        sendBuffer := sendBuffer + [Shutdown];
        i := i + 1;
      }
    }

    /** Starting the workers at setup: one per configured worker. */
    method StartSendingWorkers(count: int)
      modifies this`sendingWorkers
      ensures sendingWorkers == old(sendingWorkers) + (if count > 0 then count else 0)
    {
      var i := 0;
      while i < count
        invariant (count > 0 ==> 0 <= i <= count) && (count <= 0 ==> i == 0)
        invariant sendingWorkers == old(sendingWorkers) + i
      {
        sendingWorkers := sendingWorkers + 1;
        i := i + 1;
      }
    }

    /** One turn of `listening_loop` after its backoff sleep: connect, run
        the session to its end, and settle the failure counter. */
    method ListenerTurn(retry: nat, a: Attempt) returns (pauses: seq<nat>, next: nat, exit: ListenerExit)
      modifies this`terminateListener, this`isConnected
      ensures AttemptResult(pauses, next, exit) == ListenerAttempt(retry, a)
      ensures !isConnected
      ensures terminateListener == (exit == ListenerTerminated)
      requires !terminateListener
    {
      pauses, next, exit := [], retry, Running;
      isConnected := false;
      match a {
        case ConnectFailed =>
          next := retry + 1;
          if next >= MaxListenerRetries {
            exit := RetriesExhausted;
          }
        case ConnectCrashed =>
          exit := ConnectCrash;
        case Connected(end) =>
          isConnected := true;
          next := 0;
          match end {
            case ReadFailed =>
            case Cancelled =>
              exit := ListenerCancelled;
            case LookupError =>
              pauses := [1];
            case HandlerCrashed =>
              pauses := [5];
            case Terminated =>
              terminateListener := true;
              exit := ListenerTerminated;
          }
          isConnected := false;
      }
    }

    /** `listening_loop` over a script of connection attempts: the returned
        run is the one the step semantics prescribes, and the handler is
        disconnected afterwards. */
    method ListeningLoop(attempts: seq<Attempt>) returns (run: ListenerRun)
      modifies this`terminateListener, this`isConnected
      ensures run == RunListener(0, attempts)
      ensures !isConnected
      ensures terminateListener <==> run.exit == ListenerTerminated
    {
      terminateListener := false;
      isConnected := false;
      var retry: nat := 0;
      var sleeps: seq<nat> := [];
      var i := 0;
      while i < |attempts|
        invariant 0 <= i <= |attempts|
        invariant !isConnected && !terminateListener
        invariant RunListener(0, attempts) == After(sleeps, i, RunListener(retry, attempts[i..]))
      {
        ghost var before := sleeps;
        if retry > 0 {
          sleeps := sleeps + [ListenerDelay(retry)];
        }
        assert sleeps == before + BackoffSleep(retry);
        var pauses, next, exit := ListenerTurn(retry, attempts[i]);
        sleeps := sleeps + pauses;
        AppendAssoc(before, BackoffSleep(retry), pauses);
        ListenerLoopStep(attempts, i, retry, before, pauses, next, exit);
        if exit != Running {
          run := ListenerRun(sleeps, next, exit, i + 1);
          return;
        }
        retry := next;
        i := i + 1;
      }
      assert attempts[i..] == [];
      run := ListenerRun(sleeps, retry, Running, i);
    }
  }

  lemma ActionsUnfold(counts: map<string, nat>, actions: seq<Action>, i: nat)
    requires i < |actions|
    ensures CountAll(counts, actions[i..]) == CountAll(CountAll(counts, [actions[i]]), actions[i + 1..])
    ensures LogsAny(counts, actions[i..]) ==
              (LogsAny(counts, [actions[i]]) || LogsAny(CountAll(counts, [actions[i]]), actions[i + 1..]))
  {
    assert actions[i..][0] == actions[i];
    assert actions[i..][1..] == actions[i + 1..];
    assert [actions[i]][1..] == [];
  }

  lemma StatusTasksStep(actions: seq<Action>, i: nat)
    requires i < |actions|
    ensures StatusTasks(StatusRequests(actions[..i + 1])) ==
              StatusTasks(StatusRequests(actions[..i])) + StatusTasks(StatusRequests([actions[i]]))
  {
    assert actions[..i + 1] == actions[..i] + [actions[i]];
    StatusRequestsAppend(actions[..i], actions[i]);
    StatusTasksAppend(StatusRequests(actions[..i]), StatusRequests([actions[i]]));
  }

  lemma StatusRequestsAppend(a: seq<Action>, x: Action)
    ensures StatusRequests(a + [x]) == StatusRequests(a) + StatusRequests([x])
    decreases |a|
  {
    if |a| > 0 {
      assert (a + [x])[1..] == a[1..] + [x];
      StatusRequestsAppend(a[1..], x);
    }
  }

  lemma PowerProbesAppend(a: seq<string>, x: string)
    ensures PowerProbes(a + [x]) == PowerProbes(a) + [EnergyTotalConsumption(x)]
  {
  }

  method ReportOf(s: Snapshot) returns (r: Report)
    ensures Reports(r, s)
  {
    var light := SortedFromSet(s.light);
    var cover := SortedFromSet(s.cover);
    var climate := SortedFromSet(s.climate);
    var power := SortedFromSet(s.power);
    r := Report(light, cover, climate, power);
  }

  /** A sending worker (`sending_loop`): its failure counter and session, and
      whether it has left its loop. */
  class SendingWorker {
    var state: SenderState

    constructor()
      ensures state == FreshSender
    {
      state := FreshSender;
    }

    /** Entering the loop clears the handler's terminate flag. */
    method Start(gw: GatewayHandler)
      modifies this, gw`terminateSender
      ensures state == FreshSender && !gw.terminateSender
    {
      gw.terminateSender := false;
      state := FreshSender;
    }

    /** One turn of the loop, given what the connect, queue and send calls do. */
    method Step(gw: GatewayHandler, stopAfterSend: bool, c: ConnectOutcome, o: SendOutcome)
        returns (sleep: nat, sent: seq<QueueItem>)
      modifies this, gw`sendBuffer
      ensures var t := SenderStep(old(state), old(gw.sendBuffer), gw.terminateSender, stopAfterSend, c, o);
              state == t.state && gw.sendBuffer == t.queue && sleep == t.sleep && sent == t.sent
    {
      sleep, sent := 0, [];
      if state.finished {
        return;
      }
      if gw.terminateSender {
        state := state.(session := NoSession, finished := true);
        return;
      }
      if state.session == NoSession {
        sleep := SenderDelay(state.retry);
        match c {
          case ConnectCancelled =>
            state := state.(finished := true);
            return;
          case ConnectError =>
            // The session object was bound before `connect()` raised, and stays bound.
            state := state.(retry := state.retry + 1, session := Bound);
            return;
          case ConnectOk =>
            state := state.(session := Live, retry := 0);
        }
      }
      if |gw.sendBuffer| == 0 {
        if o == SendCancelled {
          state := state.(session := NoSession, finished := true);
        }
        return;
      }
      var task := gw.sendBuffer[0];
      gw.sendBuffer := gw.sendBuffer[1..];
      if task.Shutdown? {
        state := state.(session := NoSession, finished := true);
        return;
      }
      match o {
        case SendOk =>
          state := state.(retry := 0);
          sent := [task];
        case SendError =>
          state := state.(retry := state.retry + 1, session := NoSession);
          if !stopAfterSend {
            gw.sendBuffer := gw.sendBuffer + [task];
          }
        case SendCancelled =>
          state := state.(session := NoSession, finished := true);
          if !stopAfterSend {
            gw.sendBuffer := gw.sendBuffer + [task];
          }
      }
    }
  }
}
