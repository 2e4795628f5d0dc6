/**
 The FIX order session (src/roq/deribit/gateway/order_entry.cpp): message numbering, the
 watchdog, and the attribution of session-level rejects to requests. Times are
 nanoseconds, 0 meaning "none"; the test settings are off.
 */
module OrderSession {

  /** Settings; a request timeout of 0 disables the watchdog. */
  datatype Settings = Settings(requestTimeout: nat, pingFreq: nat)

  datatype Link = Down | Up | Closing
  datatype Status = Disconnected | LoginSent | Downloading | Ready
  datatype Download = Idle | Positions | Orders | Finished

  datatype Kind =
    | LogonMsg | LogoutMsg | HeartbeatMsg | TestRequestMsg | PositionsMsg | MassStatusMsg | MassCancelMsg
    | OrderMsg(requestId: string)

  datatype RefMsgType = NewOrderSingle | OrderCancelReplaceRequest | OrderCancelRequest | OrderMassCancelRequest | OtherMsg

  datatype Event =
    | Connected
    | Disconnect
    | Timer
    | Logon
    | Logout
    | Heartbeat
    | TestRequest
    | ResendRequest
    | PositionsDone                // the download library moves on to the next state
    | OrdersDone
    | OrderAction(requestId: string, supported: bool)   // a create order must not have a stop price or show quantity
    | CancelAll(supported: bool)   // whether the filter is one the exchange offers
    | Reject(refMsgType: RefMsgType, refSeqNum: nat, reason: string, text: string)

  datatype Output =
    | Sent(number: nat, kind: Kind)
    | WatchdogClose
    | PeerClose
    | Attributed(requestId: string)
    | NoRequest(refSeqNum: nat)
    | NotReady
    | Unsupported
    | InvalidFilter
    | Forwarded
    | Fatal

  datatype Session = Session(
    link: Link,
    status: Status,
    ready: bool,
    download: Download,
    outbound: nat,
    nextHeartbeat: nat,
    lastRequest: nat,
    testLogonTime: nat,
    requestIds: map<nat, string>)

  const NEW_SESSION := Session(Down, Disconnected, false, Idle, 0, 0, 0, 0, map[])

  /** A session together with what it put out. */
  datatype Result = Result(session: Session, outputs: seq<Output>)

  function Send(s: Session, kind: Kind): Result {
    Result(s.(outbound := s.outbound + 1), [Sent(s.outbound + 1, kind)])
  }

  function Close(s: Session): Session {
    if s.link == Up then s.(link := Closing) else s
  }

  function OnTimer(s: Session, config: Settings, now: nat): Result {
    if s.link != Up then Result(s, [])
    else if s.lastRequest != 0 && config.requestTimeout != 0 && now - s.lastRequest > config.requestTimeout then
      Result(Close(s), [WatchdogClose])
    else if s.ready then
      if s.nextHeartbeat <= now then
        Send(s.(nextHeartbeat := now + config.pingFreq,
                lastRequest := if s.lastRequest == 0 then now else s.lastRequest), TestRequestMsg)
      else Result(s, [])
    else if s.testLogonTime != 0 && s.testLogonTime < now then
      Send(s.(testLogonTime := 0, lastRequest := now, status := LoginSent), LogonMsg)
    else Result(s, [])
  }

  /** Sending counts and is remembered; the first request ever given a number keeps it. */
  function OnOrderAction(s: Session, requestId: string, supported: bool): Result {
    if s.status != Ready then Result(s, [NotReady])
    else if !supported then Result(s, [Unsupported])
    else
      var sent := Send(s, OrderMsg(requestId));
      Result(sent.session.(requestIds := map[s.outbound + 1 := requestId] + s.requestIds), sent.outputs)
  }

  function OnCancelAll(s: Session, supported: bool): Result {
    if s.status != Ready then Result(s, [NotReady])
    else if !supported then Result(s, [InvalidFilter])
    else
      var sent := Send(s, MassCancelMsg);
      Result(sent.session, sent.outputs + [Forwarded])
  }

  predicate IsOrderType(t: RefMsgType) {
    t.NewOrderSingle? || t.OrderCancelReplaceRequest? || t.OrderCancelRequest?
  }

  function OnReject(s: Session, e: Event): Result
    requires e.Reject?
  {
    if IsOrderType(e.refMsgType) then
      Result(s, [if e.refSeqNum in s.requestIds then Attributed(s.requestIds[e.refSeqNum]) else NoRequest(e.refSeqNum)])
    else if e.reason == "99" && e.text == "connection_too_slow" then Result(Close(s), [PeerClose])
    else if e.refMsgType.OrderMassCancelRequest? && e.text == "rate_limit_exceeded" then Result(Close(s), [PeerClose])
    else Result(s, [Fatal])
  }

  function Step(s: Session, config: Settings, now: nat, e: Event): Result {
    match e
    case Connected => Result(s.(link := Up, testLogonTime := now), [])
    case Disconnect =>
      Result(s.(link := Down, status := Disconnected, ready := false, download := Idle,
                outbound := 0, nextHeartbeat := 0, lastRequest := 0, testLogonTime := 0), [])
    case Timer => OnTimer(s, config, now)
    case Logon => Send(s.(lastRequest := 0, download := Positions, status := Downloading), PositionsMsg)
    case Logout =>
      var sent := Send(s.(ready := false), LogoutMsg);
      Result(Close(sent.session), sent.outputs + [PeerClose])
    case Heartbeat => Result(s.(lastRequest := 0), [])
    case TestRequest => Send(s, HeartbeatMsg)
    case ResendRequest => Result(Close(s), [PeerClose])
    case PositionsDone =>
      if s.download.Positions? then Send(s.(download := Orders, status := Downloading), MassStatusMsg) else Result(s, [])
    case OrdersDone =>
      if s.download.Orders? then Result(s.(download := Finished, status := Ready, ready := true), []) else Result(s, [])
    case OrderAction(id, supported) => OnOrderAction(s, id, supported)
    case CancelAll(supported) => OnCancelAll(s, supported)
    case Reject(_, _, _, _) => OnReject(s, e)
  }

  // The session as an object

  class OrderEntry {
    const config: Settings
    var link: Link
    var status: Status
    var ready: bool
    var download: Download
    var outbound: nat
    var nextHeartbeat: nat
    var lastLogonOrHeartbeat: nat
    var testLogonTime: nat
    var requestIds: map<nat, string>
    var log: seq<Output>

    function State(): Session
      reads this
    {
      Session(link, status, ready, download, outbound, nextHeartbeat, lastLogonOrHeartbeat, testLogonTime, requestIds)
    }

    constructor (config: Settings)
      ensures this.config == config && State() == NEW_SESSION && log == []
    {
      this.config := config;
      link, status, ready, download := Down, Disconnected, false, Idle;
      outbound, nextHeartbeat, lastLogonOrHeartbeat, testLogonTime := 0, 0, 0, 0;
      requestIds, log := map[], [];
    }

    method SendMessage(kind: Kind) returns (number: nat)
      modifies this`outbound, this`log
      ensures State() == Send(old(State()), kind).session
      ensures log == old(log) + Send(old(State()), kind).outputs
      ensures number == outbound
    {
      outbound := outbound + 1;
      log := log + [Sent(outbound, kind)];
      number := outbound;
    }

    method CloseConnection()
      modifies this`link
      ensures State() == Close(old(State()))
    {
      if link == Up {
        link := Closing;
      }
    }

    method OnConnected(now: nat)
      modifies this
      ensures State() == Step(old(State()), config, now, Connected).session && log == old(log)
    {
      link := Up;
      testLogonTime := now;
    }

    method OnDisconnected(now: nat)
      modifies this
      ensures State() == Step(old(State()), config, now, Disconnect).session && log == old(log)
    {
      link := Down;
      outbound := 0;
      ready := false;
      nextHeartbeat := 0;
      status := Disconnected;
      download := Idle;
      lastLogonOrHeartbeat := 0;
      testLogonTime := 0;
    }

    method SendTestRequest(now: nat)
      modifies this
      ensures State() == old(State()).(outbound := old(outbound) + 1,
                                       lastRequest := if old(lastLogonOrHeartbeat) == 0 then now else old(lastLogonOrHeartbeat))
      ensures log == old(log) + [Sent(outbound, TestRequestMsg)]
    {
      var _ := SendMessage(TestRequestMsg);
      if lastLogonOrHeartbeat == 0 {
        lastLogonOrHeartbeat := now;
      }
    }

    method SendLogon(now: nat)
      modifies this
      ensures State() == old(State()).(outbound := old(outbound) + 1, lastRequest := now)
      ensures log == old(log) + [Sent(outbound, LogonMsg)]
    {
      var _ := SendMessage(LogonMsg);
      lastLogonOrHeartbeat := now;
    }

    method OnTimerEvent(now: nat)
      modifies this
      ensures State() == Step(old(State()), config, now, Timer).session
      ensures log == old(log) + Step(old(State()), config, now, Timer).outputs
    {
      if link == Up {
        if lastLogonOrHeartbeat != 0 && config.requestTimeout != 0 && now - lastLogonOrHeartbeat > config.requestTimeout {
          CloseConnection();
          log := log + [WatchdogClose];
        } else {
          if ready {
            if nextHeartbeat <= now {
              nextHeartbeat := now + config.pingFreq;
              SendTestRequest(now);
            }
          } else {
            if testLogonTime != 0 && testLogonTime < now {
              testLogonTime := 0;
              SendLogon(now);
              status := LoginSent;
            }
          }
        }
      }
    }

    method OnLogon(now: nat)
      modifies this
      ensures State() == Step(old(State()), config, now, Logon).session
      ensures log == old(log) + Step(old(State()), config, now, Logon).outputs
    {
      lastLogonOrHeartbeat := 0;
      download := Positions;
      status := Downloading;
      var _ := SendMessage(PositionsMsg);
    }

    method OnLogout(now: nat)
      modifies this
      ensures State() == Step(old(State()), config, now, Logout).session
      ensures log == old(log) + Step(old(State()), config, now, Logout).outputs
    {
      ready := false;
      var _ := SendMessage(LogoutMsg);
      CloseConnection();
      log := log + [PeerClose];
    }

    method OnHeartbeat(now: nat)
      modifies this
      ensures State() == Step(old(State()), config, now, Heartbeat).session && log == old(log)
    {
      lastLogonOrHeartbeat := 0;
    }

    method OnTestRequest(now: nat)
      modifies this
      ensures State() == Step(old(State()), config, now, TestRequest).session
      ensures log == old(log) + Step(old(State()), config, now, TestRequest).outputs
    {
      var _ := SendMessage(HeartbeatMsg);
    }

    method OnResendRequest(now: nat)
      modifies this
      ensures State() == Step(old(State()), config, now, ResendRequest).session
      ensures log == old(log) + Step(old(State()), config, now, ResendRequest).outputs
    {
      CloseConnection();
      log := log + [PeerClose];
    }

    /** The download library leaves `state`, if that is where it is, and visits the next one. */
    method LeaveDownloadState(now: nat, state: Download)
      requires state == Positions || state == Orders
      modifies this
      ensures var e := if state == Positions then PositionsDone else OrdersDone;
              && State() == Step(old(State()), config, now, e).session
              && log == old(log) + Step(old(State()), config, now, e).outputs
    {
      if download != state {
        return;
      }
      if state == Positions {
        download := Orders;
        status := Downloading;
        var _ := SendMessage(MassStatusMsg);
      } else {
        download := Finished;
        status := Ready;
        ready := true;
      }
    }

    method CancelAllOrders(now: nat, supported: bool)
      modifies this
      ensures State() == Step(old(State()), config, now, CancelAll(supported)).session
      ensures log == old(log) + Step(old(State()), config, now, CancelAll(supported)).outputs
    {
      if status != Ready {
        log := log + [NotReady];
      } else if !supported {
        log := log + [InvalidFilter];
      } else {
        var _ := SendMessage(MassCancelMsg);
        log := log + [Forwarded];
      }
    }

    /** Create, modify and cancel all end like this; only a create order can be unsupported. */
    method SendOrderAction(now: nat, requestId: string, supported: bool)
      modifies this
      ensures State() == Step(old(State()), config, now, OrderAction(requestId, supported)).session
      ensures log == old(log) + Step(old(State()), config, now, OrderAction(requestId, supported)).outputs
    {
      if status != Ready {
        log := log + [NotReady];
        return;
      }
      if !supported {
        log := log + [Unsupported];
        return;
      }
      var number := SendMessage(OrderMsg(requestId));
      if number !in requestIds {
        requestIds := requestIds[number := requestId];
      }
    }

    method OnRejectEvent(now: nat, refMsgType: RefMsgType, refSeqNum: nat, reason: string, text: string)
      modifies this
      ensures State() == Step(old(State()), config, now, Reject(refMsgType, refSeqNum, reason, text)).session
      ensures log == old(log) + Step(old(State()), config, now, Reject(refMsgType, refSeqNum, reason, text)).outputs
    {
      if IsOrderType(refMsgType) {
        if refSeqNum in requestIds {
          log := log + [Attributed(requestIds[refSeqNum])];
        } else {
          log := log + [NoRequest(refSeqNum)];
        }
      } else if reason == "99" && text == "connection_too_slow" {
        CloseConnection();
        log := log + [PeerClose];
      } else if refMsgType.OrderMassCancelRequest? && text == "rate_limit_exceeded" {
        CloseConnection();
        log := log + [PeerClose];
      } else {
        log := log + [Fatal];
      }
    }
  }

  // Runs

  datatype Timed = Timed(now: nat, event: Event)

  function After(config: Settings, run: seq<Timed>): Session {
    if run == [] then NEW_SESSION else
      var n := |run| - 1;
      Step(After(config, run[..n]), config, run[n].now, run[n].event).session
  }

  /** What the event at position `i` put out. */
  function OutputsAt(config: Settings, run: seq<Timed>, i: nat): seq<Output>
    requires i < |run|
  {
    Step(After(config, run[..i]), config, run[i].now, run[i].event).outputs
  }

  function SentOf(outputs: seq<Output>): seq<Output> {
    if outputs == [] then [] else (if outputs[0].Sent? then [outputs[0]] else []) + SentOf(outputs[1..])
  }

  /** What was sent since the connection was last lost. */
  function SentInConnection(config: Settings, run: seq<Timed>): seq<Output> {
    if run == [] then [] else
      var n := |run| - 1;
      if run[n].event.Disconnect? then []
      else SentInConnection(config, run[..n]) + SentOf(OutputsAt(config, run, n))
  }

  /** A step sends at most one message, first of all, and counts it. */
  predicate SendsAtMostOne(s: Session, r: Result) {
    if r.session.outbound == s.outbound then |r.outputs| <= 1 && (r.outputs != [] ==> !r.outputs[0].Sent?)
    else
      && r.session.outbound == s.outbound + 1
      && 1 <= |r.outputs| <= 2
      && r.outputs[0].Sent? && r.outputs[0].number == s.outbound + 1
      && (|r.outputs| == 2 ==> !r.outputs[1].Sent?)
  }

  lemma StepSendsAtMostOne(s: Session, config: Settings, now: nat, e: Event)
    requires !e.Disconnect?
    ensures SendsAtMostOne(s, Step(s, config, now, e))
  {
  }

  lemma SentIsFirst(s: Session, r: Result)
    requires SendsAtMostOne(s, r)
    ensures SentOf(r.outputs) == if r.session.outbound == s.outbound then [] else r.outputs[..1]
  {
    if r.outputs != [] {
      assert r.outputs == [r.outputs[0]] + r.outputs[1..];
      if |r.outputs| == 2 {
        assert r.outputs[1..] == [r.outputs[1]] + [];
        SentOfOne(r.outputs[1], []);
      }
      SentOfOne(r.outputs[0], r.outputs[1..]);
    }
  }

  lemma SentOfOne(o: Output, more: seq<Output>)
    ensures SentOf([o] + more) == (if o.Sent? then [o] else []) + SentOf(more)
  {
    assert ([o] + more)[1..] == more;
  }

  /** The k-th send attempt of a connection carries number k. */
  lemma {:induction false} NumberingRestartsWithEachConnection(config: Settings, run: seq<Timed>)
    ensures var sent := SentInConnection(config, run);
            && |sent| == After(config, run).outbound
            && forall k: nat :: k < |sent| ==> sent[k].Sent? && sent[k].number == k + 1
  {
    hide Step, SentOf;
    if run != [] {
      var n := |run| - 1;
      NumberingRestartsWithEachConnection(config, run[..n]);
      if run[n].event.Disconnect? {
        DisconnectResets(After(config, run[..n]), config, run[n].now);
      } else {
        StepSendsAtMostOne(After(config, run[..n]), config, run[n].now, run[n].event);
        SentIsFirst(After(config, run[..n]), Step(After(config, run[..n]), config, run[n].now, run[n].event));
      }
    }
  }

  /** A lost connection leaves a new session, except for the table of requests. */
  lemma {:induction false} DisconnectResets(s: Session, config: Settings, now: nat)
    ensures var r := Step(s, config, now, Disconnect);
            r.session == NEW_SESSION.(requestIds := s.requestIds) && r.outputs == []
  {
  }

  // Rejects

  /** An order action that was sent. */
  datatype Action = Action(number: nat, requestId: string)

  function ActionOf(s: Session, e: Event): seq<Action> {
    if e.OrderAction? && s.status == Ready && e.supported then [Action(s.outbound + 1, e.requestId)] else []
  }

  /** All order actions ever sent, over all connections, in order. */
  function Actions(config: Settings, run: seq<Timed>): seq<Action> {
    if run == [] then [] else
      var n := |run| - 1;
      Actions(config, run[..n]) + ActionOf(After(config, run[..n]), run[n].event)
  }

  /** The first action ever to carry its number. */
  predicate FirstOfItsNumber(actions: seq<Action>, k: nat) {
    k < |actions| && forall j: nat :: j < k ==> actions[j].number != actions[k].number
  }

  lemma StepRemembers(s: Session, config: Settings, now: nat, e: Event)
    ensures var ids, action := Step(s, config, now, e).session.requestIds, ActionOf(s, e);
            if action != [] && action[0].number !in s.requestIds
            then ids == s.requestIds[action[0].number := action[0].requestId]
            else ids == s.requestIds
  {
    if e.OrderAction? && s.status == Ready && e.supported {
      assert map[s.outbound + 1 := e.requestId] + s.requestIds
          == if s.outbound + 1 in s.requestIds then s.requestIds else s.requestIds[s.outbound + 1 := e.requestId];
    }
  }

  /** The table holds, for each number, the request of the first action that carried it. */
  ghost predicate HoldsFirstActions(a: seq<Action>, ids: map<nat, string>) {
    && (forall k: nat :: FirstOfItsNumber(a, k) ==> a[k].number in ids && ids[a[k].number] == a[k].requestId)
    && (forall n :: n in ids ==> exists k: nat :: FirstOfItsNumber(a, k) && a[k].number == n)
  }

  /** So it is after every run, over all connections. */
  lemma {:induction false} TableHoldsFirstActions(config: Settings, run: seq<Timed>)
    ensures HoldsFirstActions(Actions(config, run), After(config, run).requestIds)
  {
    hide Step, ActionOf;
    if run != [] {
      var n := |run| - 1;
      var s, e := After(config, run[..n]), run[n].event;
      TableHoldsFirstActions(config, run[..n]);
      StepRemembers(s, config, run[n].now, e);
      OneActionAtMost(s, e);
      TableExtends(Actions(config, run[..n]), s.requestIds, ActionOf(s, e), After(config, run).requestIds);
    }
  }

  lemma OneActionAtMost(s: Session, e: Event)
    ensures |ActionOf(s, e)| <= 1
  {
  }

  lemma TableExtends(a: seq<Action>, ids: map<nat, string>, more: seq<Action>, ids1: map<nat, string>)
    requires |more| <= 1
    requires HoldsFirstActions(a, ids)
    requires ids1 == if more != [] && more[0].number !in ids then ids[more[0].number := more[0].requestId] else ids
    ensures HoldsFirstActions(a + more, ids1)
  {
    var b := a + more;
    forall k: nat | FirstOfItsNumber(b, k)
      ensures b[k].number in ids1 && ids1[b[k].number] == b[k].requestId
    {
      if k < |a| {
        FirstInPrefix(a, more, k);
      } else {
        assert forall j: nat :: j < |a| ==> b[j] == a[j];
        UnusedIsUnknown(a, ids, b[k].number);
      }
    }
    forall n | n in ids1
      ensures exists k: nat :: FirstOfItsNumber(b, k) && b[k].number == n
    {
      if n in ids {
        var k: nat :| FirstOfItsNumber(a, k) && a[k].number == n;
        FirstInPrefix(a, more, k);
      } else {
        NewNumber(a, ids, n);
        assert FirstOfItsNumber(b, |a|) && b[|a|].number == n;
      }
    }
  }

  lemma FirstInPrefix(a: seq<Action>, more: seq<Action>, k: nat)
    requires k < |a|
    ensures FirstOfItsNumber(a + more, k) == FirstOfItsNumber(a, k) && (a + more)[k] == a[k]
  {
    assert forall j: nat :: j <= k ==> a[j] == (a + more)[j];
  }

  lemma UnusedIsUnknown(a: seq<Action>, ids: map<nat, string>, n: nat)
    requires forall m :: m in ids ==> exists k: nat :: FirstOfItsNumber(a, k) && a[k].number == m
    requires forall j: nat :: j < |a| ==> a[j].number != n
    ensures n !in ids
  {
  }

  lemma {:induction false} NewNumber(a: seq<Action>, ids: map<nat, string>, n: nat)
    requires forall k: nat :: FirstOfItsNumber(a, k) ==> a[k].number in ids
    requires n !in ids
    ensures forall j: nat :: j < |a| ==> a[j].number != n
  {
    forall j: nat | j < |a|
      ensures a[j].number != n
    {
      if a[j].number == n {
        FirstWithIsFirst(a, n, j);
        assert false;
      }
    }
  }

  lemma FirstWithIsFirst(a: seq<Action>, n: nat, j: nat)
    requires j < |a| && a[j].number == n
    ensures exists k: nat :: FirstOfItsNumber(a, k) && a[k].number == n
  {
    assert FirstOfItsNumber(a, FirstWith(a, n, j));
  }

  ghost function FirstWith(a: seq<Action>, n: nat, j: nat): (k: nat)
    requires j < |a| && a[j].number == n
    ensures k <= j && a[k].number == n && forall l: nat :: l < k ==> a[l].number != n
  {
    if i: nat :| i < j && a[i].number == n then FirstWith(a, n, i) else j
  }

  /** On the first connection numbers never repeat. */
  lemma {:induction false} FirstConnectionNumbersAreFresh(config: Settings, run: seq<Timed>)
    requires forall k: nat :: k < |run| ==> !run[k].event.Disconnect?
    ensures var a := Actions(config, run);
            && (forall k: nat :: k < |a| ==> a[k].number <= After(config, run).outbound)
            && (forall j: nat, k: nat :: j < k < |a| ==> a[j].number < a[k].number)
  {
    hide Step, ActionOf;
    if run != [] {
      var n := |run| - 1;
      var s, e := After(config, run[..n]), run[n].event;
      FirstConnectionNumbersAreFresh(config, run[..n]);
      assert After(config, run) == Step(s, config, run[n].now, e).session;
      assert Actions(config, run) == Actions(config, run[..n]) + ActionOf(s, e);
      ActionCounts(s, config, run[n].now, e);
      OneActionAtMost(s, e);
    }
  }

  lemma ActionCounts(s: Session, config: Settings, now: nat, e: Event)
    requires !e.Disconnect?
    ensures var after, action := Step(s, config, now, e).session.outbound, ActionOf(s, e);
            s.outbound <= after && (action != [] ==> action[0].number == after == s.outbound + 1)
  {
  }

  /** The answer to a session-level reject of an order message numbered `n`. */
  function RejectOf(s: Session, t: RefMsgType, n: nat, reason: string, text: string): seq<Output> {
    OnReject(s, Reject(t, n, reason, text)).outputs
  }

  /** What a reject does, in terms of the event: it is attributed or noted, closes the connection, or ends the process. */
  lemma {:induction false} WhatARejectDoes(s: Session, config: Settings, now: nat, t: RefMsgType, n: nat, reason: string, text: string)
    ensures var r := Step(s, config, now, Reject(t, n, reason, text));
            var order := t in {NewOrderSingle, OrderCancelReplaceRequest, OrderCancelRequest};
            var closes := !order && ((reason == "99" && text == "connection_too_slow")
                                     || (t == OrderMassCancelRequest && text == "rate_limit_exceeded"));
            && (order <==> r.outputs == [NoRequest(n)] || exists id :: r.outputs == [Attributed(id)])
            && (closes <==> r.outputs == [PeerClose])
            && (!order && !closes <==> r.outputs == [Fatal])
            && r.session.link == (if closes && s.link == Up then Closing else s.link)
            && r.session.(link := s.link) == s
  {
  }

  /** Which message is sent when: each kind has its one event. */
  lemma {:induction false} WhatIsSent(s: Session, config: Settings, now: nat, e: Event)
    ensures var outputs, number := Step(s, config, now, e).outputs, s.outbound + 1;
            && (Sent(number, HeartbeatMsg) in outputs <==> e.TestRequest?)
            && (Sent(number, LogoutMsg) in outputs <==> e.Logout?)
            && (Sent(number, PositionsMsg) in outputs <==> e.Logon?)
            && (Sent(number, MassStatusMsg) in outputs <==> e.PositionsDone? && s.download == Positions)
            && (Sent(number, MassCancelMsg) in outputs <==> e.CancelAll? && s.status == Ready && e.supported)
            && var timedOut := s.lastRequest != 0 && config.requestTimeout != 0 && now - s.lastRequest > config.requestTimeout;
            && (Sent(number, TestRequestMsg) in outputs
                <==> e.Timer? && s.link == Up && !timedOut && s.ready && s.nextHeartbeat <= now)
            && (Sent(number, LogonMsg) in outputs
                <==> e.Timer? && s.link == Up && !timedOut && !s.ready && 0 < s.testLogonTime < now)
            && (forall id :: Sent(number, OrderMsg(id)) in outputs <==> e == OrderAction(id, true) && s.status == Ready)
  {
  }

  /** The connection status and the download, in terms of the event. */
  lemma {:induction false} WhatTheStatusIs(s: Session, config: Settings, now: nat, e: Event)
    ensures var r := Step(s, config, now, e);
            var logonSent := Sent(s.outbound + 1, LogonMsg) in r.outputs;
            && r.session.status == (if e.Disconnect? then Disconnected
                                    else if logonSent then LoginSent
                                    else if e.Logon? || (e.PositionsDone? && s.download == Positions) then Downloading
                                    else if e.OrdersDone? && s.download == Orders then Ready
                                    else s.status)
            && r.session.download == (if e.Disconnect? then Idle
                                      else if e.Logon? then Positions
                                      else if e.PositionsDone? && s.download == Positions then Orders
                                      else if e.OrdersDone? && s.download == Orders then Finished
                                      else s.download)
            && r.session.ready == (if e.Disconnect? || e.Logout? then false
                                   else s.ready || (e.OrdersDone? && s.download == Orders))
  {
  }

  /** The link is given up exactly when a close is put out, and lost exactly at a disconnect. */
  lemma {:induction false} WhenTheLinkCloses(s: Session, config: Settings, now: nat, e: Event)
    requires s.link == Up
    ensures var r := Step(s, config, now, e);
            && (r.session.link == Closing <==> WatchdogClose in r.outputs || PeerClose in r.outputs)
            && (r.session.link == Down <==> e.Disconnect?)
  {
  }

  /** On the first connection a reject is always attributed to the request that caused it. */
  lemma {:induction false} FirstConnectionRejectsAreAttributed(config: Settings, run: seq<Timed>, k: nat, t: RefMsgType, reason: string, text: string)
    requires forall i: nat :: i < |run| ==> !run[i].event.Disconnect?
    requires k < |Actions(config, run)| && t in {NewOrderSingle, OrderCancelReplaceRequest, OrderCancelRequest}
    ensures var a := Actions(config, run);
            RejectOf(After(config, run), t, a[k].number, reason, text) == [Attributed(a[k].requestId)]
  {
    FirstConnectionNumbersAreFresh(config, run);
    TableHoldsFirstActions(config, run);
    assert FirstOfItsNumber(Actions(config, run), k);
  }

  /** With distinct request ids, over any connections: attributed correctly exactly if no earlier action had the number. */
  lemma {:induction false} RejectAttributedIff(config: Settings, run: seq<Timed>, k: nat, t: RefMsgType, reason: string, text: string)
    requires k < |Actions(config, run)| && t in {NewOrderSingle, OrderCancelReplaceRequest, OrderCancelRequest}
    requires var a := Actions(config, run); forall i: nat, j: nat :: i < j < |a| ==> a[i].requestId != a[j].requestId
    ensures var a := Actions(config, run);
            RejectOf(After(config, run), t, a[k].number, reason, text) == [Attributed(a[k].requestId)]
            <==> FirstOfItsNumber(a, k)
  {
    TableHoldsFirstActions(config, run);
    var a := Actions(config, run);
    var j := FirstWith(a, a[k].number, k);
    assert FirstOfItsNumber(a, j);
  }

  function Login(t: nat): seq<Timed> {
    [Timed(t, Connected), Timed(t + 1, Timer), Timed(t + 2, Logon), Timed(t + 3, PositionsDone), Timed(t + 4, OrdersDone)]
  }

  lemma Snoc(config: Settings, run: seq<Timed>, t: Timed)
    ensures After(config, run + [t]) == Step(After(config, run), config, t.now, t.event).session
    ensures Actions(config, run + [t]) == Actions(config, run) + ActionOf(After(config, run), t.event)
  {
    assert (run + [t])[..|run|] == run;
  }

  /** A login takes three messages, on any connection. */
  lemma {:induction false} LoginTakesThreeMessages(config: Settings, run: seq<Timed>, t: nat)
    requires After(config, run) == NEW_SESSION.(requestIds := After(config, run).requestIds) && t > 0
    ensures After(config, run + Login(t)) == LoggedIn(After(config, run).requestIds)
    ensures Actions(config, run + Login(t)) == Actions(config, run)
  {
    hide After, Actions, Step, ActionOf, Login;
    var l := Login(t);
    LoginIs(t);
    var r1 := run + [l[0]];
    var r2, r3, r4 := r1 + [l[1]], r1 + [l[1]] + [l[2]], r1 + [l[1]] + [l[2]] + [l[3]];
    LoginSteps(config, After(config, run), t);
    Snoc(config, run, l[0]);
    Snoc(config, r1, l[1]);
    Snoc(config, r2, l[2]);
    Snoc(config, r3, l[3]);
    Snoc(config, r4, l[4]);
    assert run + l == r4 + [l[4]];
    forall s: Session, i: nat | i < 5 ensures ActionOf(s, l[i].event) == [] { OnlyOrderActionsAct(s, l[i].event); }
  }

  lemma OnlyOrderActionsAct(s: Session, e: Event)
    requires !e.OrderAction?
    ensures ActionOf(s, e) == []
  {
  }

  lemma LoginIs(t: nat)
    ensures Login(t) == [Timed(t, Connected), Timed(t + 1, Timer), Timed(t + 2, Logon), Timed(t + 3, PositionsDone), Timed(t + 4, OrdersDone)]
  {
  }

  function LoggedIn(requestIds: map<nat, string>): Session {
    Session(Up, Ready, true, Finished, 3, 0, 0, 0, requestIds)
  }

  lemma LoginSteps(config: Settings, s: Session, t: nat)
    requires s == NEW_SESSION.(requestIds := s.requestIds) && t > 0
    ensures var s1 := Step(s, config, t, Connected).session;
            var s2 := Step(s1, config, t + 1, Timer).session;
            var s3 := Step(s2, config, t + 2, Logon).session;
            var s4 := Step(s3, config, t + 3, PositionsDone).session;
            Step(s4, config, t + 4, OrdersDone).session == LoggedIn(s.requestIds)
  {
  }

  const TWO_CONNECTIONS: seq<Timed> :=
    [] + Login(1) + [Timed(6, OrderAction("first", true))] + [Timed(7, Disconnect)] + Login(8) + [Timed(13, OrderAction("second", true))]

  /** The table outlives the connection: a reject of the second request is attributed to the first one. */
  lemma {:induction false} ReconnectMisattributes(config: Settings)
    ensures Actions(config, TWO_CONNECTIONS) == [Action(4, "first"), Action(4, "second")]
    ensures RejectOf(After(config, TWO_CONNECTIONS), NewOrderSingle, 4, "", "") == [Attributed("first")]
  {
    var r1 := [] + Login(1);
    ActionSteps(config);
    hide Login, Step, ActionOf;
    var r2 := r1 + [Timed(6, OrderAction("first", true))];
    var r3 := r2 + [Timed(7, Disconnect)];
    LoginTakesThreeMessages(config, [], 1);
    Snoc(config, r1, Timed(6, OrderAction("first", true)));
    Snoc(config, r2, Timed(7, Disconnect));
    LoginTakesThreeMessages(config, r3, 8);
    Snoc(config, r3 + Login(8), Timed(13, OrderAction("second", true)));
    assert Actions(config, r2) == [Action(4, "first")];
  }

  lemma ActionSteps(config: Settings)
    ensures var ids := map[4 := "first"];
            var s := Step(LoggedIn(map[]), config, 6, OrderAction("first", true)).session;
            && ActionOf(LoggedIn(map[]), OrderAction("first", true)) == [Action(4, "first")]
            && ActionOf(s, Disconnect) == []
            && Step(s, config, 7, Disconnect).session == NEW_SESSION.(requestIds := ids)
            && ActionOf(LoggedIn(ids), OrderAction("second", true)) == [Action(4, "second")]
            && Step(LoggedIn(ids), config, 13, OrderAction("second", true)).session.requestIds == ids
  {
    assert map[4 := "first"] + map[] == map[4 := "first"];
    assert map[4 := "second"] + map[4 := "first"] == map[4 := "first"];
  }
}
