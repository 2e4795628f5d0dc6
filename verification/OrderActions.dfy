/**
 When an order action is sent (src/roq/deribit/gateway/order_entry.cpp:197-287, 411-435, 461-469 and
 order_entry.hpp:57): it is gated on the connection status, which a logout leaves as it is.
 */
module OrderActions {
  import opened OrderSession

  /** The download is completed at `j`. */
  predicate Completes(config: Settings, run: seq<Timed>, j: nat) {
    j < |run| && run[j].event.OrdersDone? && After(config, run[..j]).download.Orders?
  }

  predicate IsLogon(o: Output) {
    o.Sent? && o.kind.LogonMsg?
  }

  /** At `l` the connection is lost, the peer logs on, or a logon is sent. */
  predicate Interrupts(config: Settings, run: seq<Timed>, l: nat) {
    l < |run| && (run[l].event.Disconnect? || run[l].event.Logon? || exists o :: o in OutputsAt(config, run, l) && IsLogon(o))
  }

  predicate NotInterruptedAfter(config: Settings, run: seq<Timed>, j: nat) {
    forall l: nat :: j < l < |run| ==> !Interrupts(config, run, l)
  }

  /** A download was completed, and nothing has interrupted the session since. */
  predicate Completed(config: Settings, run: seq<Timed>) {
    exists j: nat :: j < |run| && Completes(config, run, j) && NotInterruptedAfter(config, run, j)
  }

  /** The same of one step. */
  predicate StepCompletes(s: Session, e: Event) {
    e.OrdersDone? && s.download.Orders?
  }

  predicate StepInterrupts(s: Session, config: Settings, now: nat, e: Event) {
    e.Disconnect? || e.Logon? || exists o :: o in Step(s, config, now, e).outputs && IsLogon(o)
  }

  predicate ReadyMeansFinished(s: Session) {
    s.status == Ready ==> s.download == Finished
  }

  lemma StepStatus(s: Session, config: Settings, now: nat, e: Event)
    requires ReadyMeansFinished(s)
    ensures var t := Step(s, config, now, e).session;
            && ReadyMeansFinished(t)
            && (t.status == Ready <==> StepCompletes(s, e) || (s.status == Ready && !StepInterrupts(s, config, now, e)))
    ensures !(StepCompletes(s, e) && StepInterrupts(s, config, now, e))
  {
    var r := Step(s, config, now, e);
    if e.Timer? && r.outputs != [] {
      assert r.outputs[0] in r.outputs;
    }
  }

  lemma CompletedStep(config: Settings, run: seq<Timed>)
    requires run != []
    ensures var n := |run| - 1;
            Completed(config, run) <==> Completes(config, run, n) || (Completed(config, run[..n]) && !Interrupts(config, run, n))
  {
    hide Interrupts, Completes;
    var n := |run| - 1;
    var front := run[..n];
    forall l: nat | l < n
      ensures Completes(config, run, l) == Completes(config, front, l) && Interrupts(config, run, l) == Interrupts(config, front, l)
    {
      SameBefore(config, run, l);
    }
    if j: nat :| j < |run| && Completes(config, run, j) && NotInterruptedAfter(config, run, j) {
      if j < n {
        assert NotInterruptedAfter(config, front, j);
      }
    }
    if Completes(config, run, n) {
      assert NotInterruptedAfter(config, run, n);
    }
    if Completed(config, front) && !Interrupts(config, run, n) {
      var j: nat :| j < n && Completes(config, front, j) && NotInterruptedAfter(config, front, j);
      assert NotInterruptedAfter(config, run, j);
    }
  }

  lemma SameBefore(config: Settings, run: seq<Timed>, l: nat)
    requires l < |run| - 1
    ensures var front := run[..|run| - 1];
            Completes(config, run, l) == Completes(config, front, l) && Interrupts(config, run, l) == Interrupts(config, front, l)
  {
    assert run[..|run| - 1][..l] == run[..l];
  }

  /** Over every run the status is READY iff a download was completed and nothing interrupted the session since. */
  lemma {:induction false} ReadyIffCompleted(config: Settings, run: seq<Timed>)
    ensures ReadyMeansFinished(After(config, run))
    ensures After(config, run).status == Ready <==> Completed(config, run)
  {
    hide Step, Completed;
    if run == [] {
      NothingCompleted(config);
    } else {
      var n := |run| - 1;
      ReadyIffCompleted(config, run[..n]);
      CompletedStep(config, run);
      StepStatus(After(config, run[..n]), config, run[n].now, run[n].event);
    }
  }

  lemma NothingCompleted(config: Settings)
    ensures !Completed(config, []) && ReadyMeansFinished(NEW_SESSION) && NEW_SESSION.status != Ready
  {
  }

  /** Over every run an order action is sent iff it is supported, a download was completed and nothing interrupted the session since. */
  lemma {:induction false} ActionSentIff(config: Settings, run: seq<Timed>, now: nat, requestId: string, supported: bool)
    ensures var s := After(config, run);
            Step(s, config, now, OrderAction(requestId, supported)).outputs
            == if !Completed(config, run) then [NotReady]
               else if supported then [Sent(s.outbound + 1, OrderMsg(requestId))] else [Unsupported]
  {
    hide Completed;
    ReadyIffCompleted(config, run);
  }

  /** A logout does not interrupt: after any run, what would have been sent before it is still sent after it. */
  lemma {:induction false} LogoutDoesNotStopOrders(config: Settings, run: seq<Timed>, logout: nat, now: nat, requestId: string, supported: bool)
    ensures var s := After(config, run + [Timed(logout, Logout)]);
            && !s.ready
            && Step(s, config, now, OrderAction(requestId, supported)).outputs
               == if !Completed(config, run) then [NotReady]
                  else if supported then [Sent(s.outbound + 1, OrderMsg(requestId))] else [Unsupported]
  {
    hide Completed;
    Snoc(config, run, Timed(logout, Logout));
    ReadyIffCompleted(config, run);
  }

  /** Such a run: a login, the peer's logout, and an order action that is sent on the closing connection. */
  lemma {:induction false} OrderAfterLogout(config: Settings)
    ensures var s := After(config, [] + Login(1) + [Timed(6, Logout)]);
            && s.link == Closing && !s.ready
            && Step(s, config, 7, OrderAction("late", true)).outputs == [Sent(5, OrderMsg("late"))]
  {
    LoginTakesThreeMessages(config, [], 1);
    Snoc(config, [] + Login(1), Timed(6, Logout));
    hide After, Login;
  }
}
