/**
 The watchdog of the order session (src/roq/deribit/gateway/order_entry.cpp:124-160): when it
 closes the connection, over whole runs. An ask is a logon or a test request; a logon, a
 heartbeat or the loss of the connection answers every ask before it.
 */
module Watchdog {
  import opened OrderSession

  /** Clocks start above 0 and do not run backwards; a connection is set up only when there is none. */
  predicate Timely(config: Settings, run: seq<Timed>) {
    && (forall i: nat :: i < |run| ==> run[i].now > 0)
    && (forall i: nat, j: nat :: i < j < |run| ==> run[i].now <= run[j].now)
    && (forall i: nat :: i < |run| && run[i].event.Connected? ==> After(config, run[..i]).link == Down)
  }

  predicate IsAsk(o: Output) {
    o.Sent? && (o.kind.LogonMsg? || o.kind.TestRequestMsg?)
  }

  predicate Asked(config: Settings, run: seq<Timed>, j: nat) {
    j < |run| && exists o :: o in OutputsAt(config, run, j) && IsAsk(o)
  }

  predicate Answers(e: Event) {
    e.Heartbeat? || e.Logon? || e.Disconnect?
  }

  /** The ask at `j` is still open when the run ends. */
  predicate Pending(config: Settings, run: seq<Timed>, j: nat) {
    Asked(config, run, j) && forall k: nat :: j < k < |run| ==> !Answers(run[k].event)
  }

  predicate WatchdogClosedAt(config: Settings, run: seq<Timed>, k: nat) {
    k < |run| && WatchdogClose in OutputsAt(config, run, k)
  }

  // One step

  predicate Sane(s: Session) {
    && (s.link == Down ==> s.lastRequest == 0)
    && (s.link == Up && !s.ready && s.testLogonTime != 0 ==> s.lastRequest == 0)
  }

  predicate AskIn(r: Result) {
    exists o :: o in r.outputs && IsAsk(o)
  }

  lemma StepStaysSane(s: Session, config: Settings, now: nat, e: Event)
    requires Sane(s) && (e.Connected? ==> s.link == Down)
    ensures Sane(Step(s, config, now, e).session)
  {
  }

  /** How one step moves the time of the earliest open ask. */
  lemma StepRequest(s: Session, config: Settings, now: nat, e: Event)
    requires Sane(s)
    ensures var r := Step(s, config, now, e);
            && (Answers(e) ==> r.session.lastRequest == 0 && !AskIn(r))
            && (!Answers(e) ==> r.session.lastRequest == if AskIn(r) && s.lastRequest == 0 then now else s.lastRequest)
  {
    var r := Step(s, config, now, e);
    if e.Timer? && r.outputs != [] && r.outputs[0].Sent? {
      assert IsAsk(r.outputs[0]) && r.outputs[0] in r.outputs;
    }
  }

  lemma StepBounds(s: Session, config: Settings, now: nat, e: Event)
    ensures var r := Step(s, config, now, e).session;
            && (r.nextHeartbeat <= s.nextHeartbeat || r.nextHeartbeat <= now + config.pingFreq)
            && (r.lastRequest <= s.lastRequest || r.lastRequest <= now)
  {
  }

  /** When one step has the watchdog close the connection. */
  predicate Expired(s: Session, config: Settings, now: nat) {
    s.link == Up && s.lastRequest != 0 && config.requestTimeout != 0 && now - s.lastRequest > config.requestTimeout
  }

  lemma ClosesWhenExpired(s: Session, config: Settings, now: nat, e: Event)
    ensures WatchdogClose in Step(s, config, now, e).outputs <==> e.Timer? && Expired(s, config, now)
  {
  }

  // Runs

  lemma AfterPrefix(config: Settings, run: seq<Timed>, i: nat)
    requires i < |run|
    ensures After(config, run[..i + 1]) == Step(After(config, run[..i]), config, run[i].now, run[i].event).session
  {
    assert run[..i + 1][..i] == run[..i];
  }

  lemma TimelyPrefix(config: Settings, run: seq<Timed>, n: nat)
    requires Timely(config, run) && n <= |run|
    ensures Timely(config, run[..n])
  {
    forall i: nat | i < n && run[..n][i].event.Connected?
      ensures After(config, run[..n][..i]).link == Down
    {
      assert run[..n][..i] == run[..i];
    }
  }

  lemma PendingPrefix(config: Settings, run: seq<Timed>, j: nat)
    requires |run| > 0 && j < |run| - 1
    ensures Pending(config, run, j) <==> Pending(config, run[..|run| - 1], j) && !Answers(run[|run| - 1].event)
  {
    var n := |run| - 1;
    assert run[..n][..j] == run[..j];
    assert OutputsAt(config, run, j) == OutputsAt(config, run[..n], j);
    assert forall k: nat :: k < n ==> run[..n][k] == run[k];
  }

  /** The session remembers the time of the earliest open ask, and 0 when there is none. */
  ghost predicate RemembersEarliestAsk(config: Settings, run: seq<Timed>, last: nat) {
    && (last == 0 ==> forall j: nat :: !Pending(config, run, j))
    && (last != 0 ==> exists j: nat :: j < |run| && Pending(config, run, j) && run[j].now == last)
    && (forall j: nat :: j < |run| && Pending(config, run, j) ==> last <= run[j].now)
  }

  lemma {:induction false} EarliestAskIsRemembered(config: Settings, run: seq<Timed>)
    requires Timely(config, run)
    ensures Sane(After(config, run)) && RemembersEarliestAsk(config, run, After(config, run).lastRequest)
  {
    if run == [] {
      assert Sane(NEW_SESSION);
      assert RemembersEarliestAsk(config, run, 0);
    } else {
      var n := |run| - 1;
      var s := After(config, run[..n]);
      TimelyPrefix(config, run, n);
      EarliestAskIsRemembered(config, run[..n]);
      StepStaysSane(s, config, run[n].now, run[n].event);
      EarliestAskStep(config, run, s);
    }
    hide Step, Sane, Pending;
  }

  lemma {:induction false} EarliestAskStep(config: Settings, run: seq<Timed>, s: Session)
    requires run != [] && run[|run| - 1].now > 0 && forall i: nat :: i < |run| ==> run[i].now <= run[|run| - 1].now
    requires s == After(config, run[..|run| - 1])
    requires Sane(s) && RemembersEarliestAsk(config, run[..|run| - 1], s.lastRequest)
    ensures RemembersEarliestAsk(config, run, After(config, run).lastRequest)
  {
    hide Step, Sane, Pending;
    var n := |run| - 1;
    var e, r := run[n].event, Step(s, config, run[n].now, run[n].event);
    var last := After(config, run).lastRequest;
    assert last == r.session.lastRequest;
    hide After;
    StepRequest(s, config, run[n].now, e);
    PendingLast(config, run);
    PendingBefore(config, run);
    if s.lastRequest != 0 {
      var j: nat :| j < n && Pending(config, run[..n], j) && run[..n][j].now == s.lastRequest;
      assert run[j].now == s.lastRequest && (Answers(e) || Pending(config, run, j));
    }
    assert forall j: nat :: j < |run| && Pending(config, run, j) ==> last <= run[j].now;
  }

  lemma PendingBefore(config: Settings, run: seq<Timed>)
    requires run != []
    ensures var n := |run| - 1;
            && (forall j: nat :: j < n ==> (Pending(config, run, j) <==> Pending(config, run[..n], j) && !Answers(run[n].event)))
            && (forall j: nat :: Pending(config, run, j) ==> j <= n)
  {
    hide Pending;
    var n := |run| - 1;
    forall j: nat | j < n
      ensures Pending(config, run, j) <==> Pending(config, run[..n], j) && !Answers(run[n].event)
    {
      PendingPrefix(config, run, j);
    }
    forall j: nat | Pending(config, run, j)
      ensures j <= n
    {
      PendingIsInside(config, run, j);
    }
  }

  lemma PendingIsInside(config: Settings, run: seq<Timed>, j: nat)
    requires Pending(config, run, j)
    ensures j < |run|
  {
  }

  lemma PendingLast(config: Settings, run: seq<Timed>)
    requires run != []
    ensures var n := |run| - 1;
            Pending(config, run, n) <==> AskIn(Step(After(config, run[..n]), config, run[n].now, run[n].event))
  {
  }

  /** Exactly when the watchdog closes the connection. */
  lemma {:induction false} WatchdogClosesIff(config: Settings, run: seq<Timed>, i: nat)
    requires Timely(config, run) && i < |run|
    ensures WatchdogClosedAt(config, run, i)
            <==> && run[i].event.Timer? && After(config, run[..i]).link == Up && config.requestTimeout != 0
                 && exists j: nat :: j < i && Pending(config, run[..i], j) && run[i].now - run[j].now > config.requestTimeout
  {
    hide Step, Sane, Pending, Timely;
    TimelyPrefix(config, run, i);
    EarliestAskIsRemembered(config, run[..i]);
    var s := After(config, run[..i]);
    ClosesWhenExpired(s, config, run[i].now, run[i].event);
    forall j: nat | Pending(config, run[..i], j)
      ensures j < i
    {
      PendingIsInside(config, run[..i], j);
    }
    if s.lastRequest != 0 {
      var j: nat :| j < i && Pending(config, run[..i], j) && run[..i][j].now == s.lastRequest;
      assert run[j].now == s.lastRequest;
    }
  }

  /** And then the link is up before and given up after. */
  lemma {:induction false} WatchdogGivesUpTheLink(config: Settings, run: seq<Timed>, k: nat)
    requires WatchdogClosedAt(config, run, k)
    ensures After(config, run[..k]).link == Up && After(config, run[..k + 1]).link == Closing
  {
    var s := After(config, run[..k]);
    ClosesWhenExpired(s, config, run[k].now, run[k].event);
    WhenTheLinkCloses(s, config, run[k].now, run[k].event);
    AfterPrefix(config, run, k);
  }

  /** The peer answers every ask in time: no event comes later than the timeout with the ask still open. */
  predicate AnswersInTime(config: Settings, run: seq<Timed>) {
    forall j: nat, i: nat :: j < i < |run| && Asked(config, run, j) && run[i].now - run[j].now > config.requestTimeout
      ==> exists k: nat :: j < k < i && Answers(run[k].event)
  }

  /** Such a peer is never closed by the watchdog. */
  lemma {:induction false} AnsweringPeerIsNeverClosed(config: Settings, run: seq<Timed>, i: nat)
    requires Timely(config, run) && AnswersInTime(config, run)
    ensures !WatchdogClosedAt(config, run, i)
  {
    if WatchdogClosedAt(config, run, i) {
      WatchdogClosesIff(config, run, i);
      var j: nat :| j < i && Pending(config, run[..i], j) && run[i].now - run[j].now > config.requestTimeout;
      AskedInPrefix(config, run, i, j);
      var k: nat :| j < k < i && Answers(run[k].event);
      StillOpen(config, run, i, j, k);
      assert false;
    }
  }

  lemma AskedInPrefix(config: Settings, run: seq<Timed>, i: nat, j: nat)
    requires j < i <= |run|
    ensures Asked(config, run[..i], j) == Asked(config, run, j)
  {
    assert run[..i][..j] == run[..j];
  }

  lemma StillOpen(config: Settings, run: seq<Timed>, i: nat, j: nat, k: nat)
    requires j < k < i <= |run| && Pending(config, run[..i], j)
    ensures !Answers(run[k].event)
  {
    assert run[..i][k] == run[k];
  }

  // Pings and logons

  predicate SentAt(config: Settings, run: seq<Timed>, i: nat, kind: Kind) {
    i < |run| && exists o :: o in OutputsAt(config, run, i) && o.Sent? && o.kind == kind
  }

  lemma StepPings(s: Session, config: Settings, now: nat, e: Event)
    requires !e.Disconnect?
    ensures var r := Step(s, config, now, e);
            if exists o :: o in r.outputs && o.Sent? && o.kind == TestRequestMsg
            then s.nextHeartbeat <= now && r.session.nextHeartbeat == now + config.pingFreq
            else r.session.nextHeartbeat == s.nextHeartbeat
  {
    var r := Step(s, config, now, e);
    if e.Timer? && r.outputs != [] {
      assert r.outputs[0] in r.outputs;
    }
  }

  /** The next ping is due no earlier than one interval after the last one. */
  lemma {:induction false} NextPingIsDue(config: Settings, run: seq<Timed>, i: nat, k: nat)
    requires Timely(config, run) && i < k <= |run| && SentAt(config, run, i, TestRequestMsg)
    requires forall l: nat :: i <= l < k ==> !run[l].event.Disconnect?
    ensures After(config, run[..k]).nextHeartbeat >= run[i].now + config.pingFreq
    decreases k
  {
    hide Step, After;
    var m: nat := k - 1;
    AfterPrefix(config, run, m);
    StepPings(After(config, run[..m]), config, run[m].now, run[m].event);
    if i < m {
      NextPingIsDue(config, run, i, m);
      assert run[i].now <= run[m].now;
    }
  }

  /** On one connection two pings are at least the ping interval apart. */
  lemma {:induction false} PingsAreSpaced(config: Settings, run: seq<Timed>, i: nat, j: nat)
    requires Timely(config, run) && i < j
    requires SentAt(config, run, i, TestRequestMsg) && SentAt(config, run, j, TestRequestMsg)
    requires forall l: nat :: i <= l <= j && l < |run| ==> !run[l].event.Disconnect?
    ensures run[j].now >= run[i].now + config.pingFreq
  {
    hide Step, After;
    NextPingIsDue(config, run, i, j);
    StepPings(After(config, run[..j]), config, run[j].now, run[j].event);
  }

  /** The connection set up at `j` still waits for its logon to be sent. */
  predicate WaitsForLogon(config: Settings, run: seq<Timed>, j: nat) {
    && j < |run| && run[j].event.Connected?
    && forall l: nat :: j < l < |run| ==>
         !run[l].event.Connected? && !run[l].event.Disconnect? && !SentAt(config, run, l, LogonMsg)
  }

  lemma StepWaits(s: Session, config: Settings, now: nat, e: Event)
    ensures var r := Step(s, config, now, e);
            var sent := exists o :: o in r.outputs && o.Sent? && o.kind == LogonMsg;
            && (e.Connected? || e.Disconnect? ==> !sent)
            && r.session.testLogonTime == if e.Connected? then now else if e.Disconnect? || sent then 0 else s.testLogonTime
  {
    var r := Step(s, config, now, e);
    if e.Timer? && r.outputs != [] {
      assert r.outputs[0] in r.outputs;
    }
  }

  lemma WaitsStep(config: Settings, run: seq<Timed>, j: nat)
    requires run != []
    ensures var n := |run| - 1;
            WaitsForLogon(config, run, j)
            <==> if j == n then run[n].event.Connected?
                 else WaitsForLogon(config, run[..n], j)
                      && !run[n].event.Connected? && !run[n].event.Disconnect? && !SentAt(config, run, n, LogonMsg)
  {
    hide SentAt;
    var n := |run| - 1;
    var front := run[..n];
    assert forall l: nat :: l < n ==> front[l] == run[l];
    forall l: nat | l < n
      ensures SentAt(config, front, l, LogonMsg) == SentAt(config, run, l, LogonMsg)
    {
      SentInFront(config, run, l, LogonMsg);
    }
  }

  lemma SentInFront(config: Settings, run: seq<Timed>, l: nat, kind: Kind)
    requires l < |run| - 1
    ensures SentAt(config, run[..|run| - 1], l, kind) == SentAt(config, run, l, kind)
  {
    assert run[..|run| - 1][..l] == run[..l];
  }

  /** Over every run the logon time is that of the connection that still waits for its logon, and 0 iff none does. */
  lemma {:induction false} LogonTimeIsOfConnection(config: Settings, run: seq<Timed>)
    requires Timely(config, run)
    ensures var t := After(config, run).testLogonTime;
            && (t != 0 <==> exists j: nat :: j < |run| && WaitsForLogon(config, run, j))
            && forall j: nat :: j < |run| && WaitsForLogon(config, run, j) ==> t == run[j].now
  {
    hide Step, WaitsForLogon, SentAt;
    if run != [] {
      var n := |run| - 1;
      var front := run[..n];
      TimelyPrefix(config, run, n);
      LogonTimeIsOfConnection(config, front);
      StepWaits(After(config, front), config, run[n].now, run[n].event);
      LastSends(config, run, LogonMsg);
      forall j: nat | j < |run|
        ensures WaitsForLogon(config, run, j)
                <==> if j == n then run[n].event.Connected?
                     else WaitsForLogon(config, front, j)
                          && !run[n].event.Connected? && !run[n].event.Disconnect? && !SentAt(config, run, n, LogonMsg)
      {
        WaitsStep(config, run, j);
      }
      if j: nat :| j < n && WaitsForLogon(config, front, j) {
        assert front[j] == run[j];
        assert WaitsForLogon(config, run, j)
          <==> !run[n].event.Connected? && !run[n].event.Disconnect? && !SentAt(config, run, n, LogonMsg);
      }
      assert WaitsForLogon(config, run, n) <==> run[n].event.Connected?;
    }
  }

  lemma LastSends(config: Settings, run: seq<Timed>, kind: Kind)
    requires run != []
    ensures var n := |run| - 1;
            SentAt(config, run, n, kind)
            <==> exists o :: o in Step(After(config, run[..n]), config, run[n].now, run[n].event).outputs && o.Sent? && o.kind == kind
  {
  }

  // A silent peer

  /** Events in which the peer and the network have no part. */
  predicate Silent(e: Event) {
    e.Timer? || e.OrderAction? || e.CancelAll?
  }

  predicate Live(s: Session) {
    s.link == Up && s.ready
  }

  /** What silence keeps, from `s` on, as long as the watchdog does not close. */
  predicate KeptBySilence(s: Session, t: Session) {
    && Live(t)
    && (s.lastRequest != 0 ==> t.lastRequest == s.lastRequest)
    && (t.lastRequest == 0 ==> t.nextHeartbeat == s.nextHeartbeat)
  }

  lemma SilentStep(s: Session, config: Settings, now: nat, e: Event)
    requires Live(s) && Silent(e) && now > 0 && WatchdogClose !in Step(s, config, now, e).outputs
    ensures var t := Step(s, config, now, e).session;
            KeptBySilence(s, t) && (e.Timer? && s.nextHeartbeat <= now ==> t.lastRequest != 0)
  {
  }

  predicate NoCloseBetween(config: Settings, run: seq<Timed>, start: nat, end: nat) {
    forall k: nat :: start <= k < end ==> !WatchdogClosedAt(config, run, k)
  }

  lemma {:induction false} SilenceKeeps(config: Settings, run: seq<Timed>, start: nat, end: nat)
    requires start <= end <= |run| && Live(After(config, run[..start]))
    requires forall k: nat :: start <= k < end ==> Silent(run[k].event) && run[k].now > 0
    requires NoCloseBetween(config, run, start, end)
    ensures KeptBySilence(After(config, run[..start]), After(config, run[..end]))
    decreases end
  {
    hide Step;
    if start < end {
      var m: nat := end - 1;
      SilenceKeeps(config, run, start, m);
      AfterPrefix(config, run, m);
      assert !WatchdogClosedAt(config, run, m);
      SilentStep(After(config, run[..m]), config, run[m].now, run[m].event);
    }
  }

  /** No timestamp lies further ahead than the ping interval. */
  lemma {:induction false} TimesAreRecent(config: Settings, run: seq<Timed>, i: nat)
    requires Timely(config, run) && i < |run|
    ensures var s := After(config, run[..i + 1]);
            s.lastRequest <= run[i].now && s.nextHeartbeat <= run[i].now + config.pingFreq
  {
    hide Step;
    if i > 0 {
      TimesAreRecent(config, run, i - 1);
    }
    AfterPrefix(config, run, i);
    StepBounds(After(config, run[..i]), config, run[i].now, run[i].event);
  }

  /** The timer is serviced at least once in each `gap` after every time from `lo` to `hi`. */
  predicate TimerServiced(run: seq<Timed>, lo: nat, hi: nat, gap: nat) {
    forall x: nat :: lo <= x <= hi ==> ServicedWithin(run, x, gap)
  }

  predicate ServicedWithin(run: seq<Timed>, x: nat, gap: nat) {
    exists k: nat :: k < |run| && run[k].event.Timer? && x < run[k].now <= x + gap
  }

  /** The watchdog closes the connection at some event after `start` and before `end`. */
  ghost predicate ClosedBetween(config: Settings, run: seq<Timed>, start: nat, end: nat) {
    exists k: nat :: start < k < end && WatchdogClosedAt(config, run, k)
  }

  predicate SilentAfter(run: seq<Timed>, h: nat) {
    forall k: nat :: h < k < |run| ==> Silent(run[k].event)
  }

  /** After one ping interval and one gap an ask is open. */
  lemma AskGoesOut(config: Settings, run: seq<Timed>, h: nat, k: nat)
    requires Timely(config, run) && h < k < |run| && SilentAfter(run, h) && Live(After(config, run[..h + 1]))
    requires run[k].event.Timer? && run[k].now >= run[h].now + config.pingFreq
    ensures ClosedBetween(config, run, h, k + 1) || (After(config, run[..k + 1]).lastRequest != 0 && Live(After(config, run[..k + 1])))
  {
    hide Step, After;
    if !ClosedBetween(config, run, h, k + 1) {
      SilenceKeeps(config, run, h + 1, k);
      TimesAreRecent(config, run, h);
      AfterPrefix(config, run, k);
      assert !WatchdogClosedAt(config, run, k);
      SilentStep(After(config, run[..k]), config, run[k].now, run[k].event);
    }
  }

  /** An ask open after `k` has the connection closed by the first timer past the timeout. */
  lemma OpenAskCloses(config: Settings, run: seq<Timed>, k: nat, l: nat)
    requires Timely(config, run) && k < l < |run| && SilentAfter(run, k) && config.requestTimeout != 0
    requires var s := After(config, run[..k + 1]); Live(s) && s.lastRequest != 0
    requires run[l].event.Timer? && run[l].now > run[k].now + config.requestTimeout
    ensures ClosedBetween(config, run, k, l + 1)
  {
    hide Step, After;
    if !ClosedBetween(config, run, k, l) {
      SilenceKeeps(config, run, k + 1, l);
      TimesAreRecent(config, run, k);
      ClosesWhenExpired(After(config, run[..l]), config, run[l].now, run[l].event);
      assert WatchdogClosedAt(config, run, l);
    }
  }

  /**
   A peer that falls silent after the event at `h`, the session being ready, is closed by the
   watchdog no later than the ping interval, the timeout and two timer gaps after it.
   */
  lemma {:induction false} SilentPeerIsClosed(config: Settings, run: seq<Timed>, h: nat, gap: nat)
    requires Timely(config, run) && h < |run| && config.requestTimeout != 0
    requires Live(After(config, run[..h + 1])) && SilentAfter(run, h)
    requires TimerServiced(run, run[h].now, run[h].now + config.pingFreq + config.requestTimeout + gap, gap)
    ensures exists k: nat :: h < k < |run| && WatchdogClosedAt(config, run, k)
                             && run[k].now <= run[h].now + config.pingFreq + config.requestTimeout + 2 * gap
  {
    hide After, WatchdogClosedAt, Live;
    var x := run[h].now + config.pingFreq;
    assert ServicedWithin(run, x, gap);
    var k1: nat :| k1 < |run| && run[k1].event.Timer? && x < run[k1].now <= x + gap;
    var y := run[k1].now + config.requestTimeout;
    assert ServicedWithin(run, y, gap);
    var k2: nat :| k2 < |run| && run[k2].event.Timer? && y < run[k2].now <= y + gap;
    AskGoesOut(config, run, h, k1);
    if !ClosedBetween(config, run, h, k1 + 1) {
      OpenAskCloses(config, run, k1, k2);
    }
  }
}
