/**
 The account download (src/roq/deribit/gateway/drop_copy.cpp, src/roq/deribit/gateway/rest.cpp:284-300):
 which requests are enqueued, under any interleaving of new currencies, the latch, logins and
 lost connections.
 */
module DropCopy {
  import opened Words

  datatype Request =
    | SubscribePortfolio(currencies: seq<string>)   // one message, one channel a currency
    | SubscribeChanges
    | SubscribeOrders
    | SubscribeTrades
    | GetAccountSummary(currency: string)
    | GetUserTrades(currency: string)

  datatype State = State(
    known: set<string>,         // the REST client's
    currencies: seq<string>,
    ready: bool,
    canDownload: bool,
    queue: seq<Request>,
    sent: seq<Request>)         // over the current connection

  const NEW_STATE := State({}, [], false, false, [], [])

  datatype Event =
    | CurrenciesAck(items: seq<string>)
    | Latch
    | LoggedIn
    | Disconnected
    | Service(count: nat)       // the queue may send so many messages

  // Requests

  /** Joining no names still writes one channel, with an empty name. */
  function Portfolio(currencies: seq<string>): Request {
    SubscribePortfolio(if currencies == [] then [""] else currencies)
  }

  function Summaries(currencies: seq<string>): seq<Request> {
    seq(|currencies|, i requires 0 <= i < |currencies| => GetAccountSummary(currencies[i]))
  }

  function UserTrades(currencies: seq<string>): seq<Request> {
    seq(|currencies|, i requires 0 <= i < |currencies| => GetUserTrades(currencies[i]))
  }

  function Downloads(currencies: seq<string>): seq<Request> {
    [Portfolio(currencies)] + Summaries(currencies) + UserTrades(currencies)
  }

  function LoginRequests(s: State): seq<Request> {
    (if s.canDownload then [Portfolio(s.currencies)] else [])
    + [SubscribeChanges, SubscribeOrders, SubscribeTrades]
    + (if s.canDownload then Summaries(s.currencies) + UserTrades(s.currencies) else [])
  }

  // Steps

  /** The items not seen before, in order, each once. */
  function Fresh(known: set<string>, items: seq<string>): seq<string> {
    if items == [] then [] else
      var n := |items| - 1;
      Fresh(known, items[..n])
      + (if items[n] in known || items[n] in items[..n] then [] else [items[n]])
  }

  function Elements(names: seq<string>): set<string> {
    set c | c in names
  }

  function OnCurrencies(s: State, added: seq<string>): State {
    s.(currencies := s.currencies + added,
       queue := s.queue + if s.ready && s.canDownload then Downloads(added) else [])
  }

  function Step(s: State, e: Event): State {
    match e
    case CurrenciesAck(items) =>
      var added := Fresh(s.known, items);
      var s := s.(known := s.known + Elements(items));
      if added == [] then s else OnCurrencies(s, added)
    case Latch =>
      if s.canDownload then s
      else s.(canDownload := true, queue := s.queue + if s.ready then Downloads(s.currencies) else [])
    case LoggedIn => s.(ready := true, queue := s.queue + LoginRequests(s))
    case Disconnected => s.(ready := false, queue := [], sent := [])
    case Service(count) =>
      var n := if !s.ready then 0 else if count < |s.queue| then count else |s.queue|;
      s.(queue := s.queue[n..], sent := s.sent + s.queue[..n])
  }

  /** Remembers which currencies have been announced. */
  class Rest {
    var allCurrencies: set<string>

    constructor ()
      ensures allCurrencies == {}
    {
      allCurrencies := {};
    }

    method OnGetCurrenciesAck(items: seq<string>) returns (currencies: seq<string>)
      modifies this
      ensures currencies == Fresh(old(allCurrencies), items)
      ensures allCurrencies == old(allCurrencies) + Elements(items)
    {
      currencies := [];
      for i := 0 to |items|
        invariant currencies == Fresh(old(allCurrencies), items[..i])
        invariant allCurrencies == old(allCurrencies) + Elements(items[..i])
      {
        assert items[..i + 1] == items[..i] + [items[i]];
        assert items[..i + 1][..i] == items[..i];
        if items[i] !in allCurrencies {
          allCurrencies := allCurrencies + {items[i]};
          currencies := currencies + [items[i]];
        }
      }
      assert items[..|items|] == items;
    }
  }

  class DropCopy {
    const rest: Rest
    var currencies: seq<string>
    var ready: bool
    var canDownload: bool
    var queue: seq<Request>
    var sent: seq<Request>

    function Value(): State
      reads this, rest
    {
      State(rest.allCurrencies, currencies, ready, canDownload, queue, sent)
    }

    constructor (rest: Rest)
      requires rest.allCurrencies == {}
      ensures this.rest == rest && Value() == NEW_STATE
    {
      this.rest := rest;
      currencies, ready, canDownload, queue, sent := [], false, false, [], [];
    }

    method SubscribeUserPortfolio(names: seq<string>)
      modifies this`queue
      ensures queue == old(queue) + [Portfolio(names)]
    {
      queue := queue + [Portfolio(names)];
    }

    method RequestAccountSummary(names: seq<string>)
      modifies this`queue
      ensures queue == old(queue) + Summaries(names)
    {
      for i := 0 to |names|
        invariant queue == old(queue) + Summaries(names[..i])
      {
        assert Summaries(names[..i + 1]) == Summaries(names[..i]) + [GetAccountSummary(names[i])];
        queue := queue + [GetAccountSummary(names[i])];
      }
      assert names[..|names|] == names;
    }

    method RequestUserTradesByCurrency(names: seq<string>)
      modifies this`queue
      ensures queue == old(queue) + UserTrades(names)
    {
      for i := 0 to |names|
        invariant queue == old(queue) + UserTrades(names[..i])
      {
        assert UserTrades(names[..i + 1]) == UserTrades(names[..i]) + [GetUserTrades(names[i])];
        queue := queue + [GetUserTrades(names[i])];
      }
      assert names[..|names|] == names;
    }

    method OnCurrenciesUpdate(names: seq<string>)
      modifies this
      ensures Value() == OnCurrencies(old(Value()), names)
    {
      for i := 0 to |names|
        invariant currencies == old(currencies) + names[..i]
        invariant Value() == old(Value()).(currencies := currencies)
      {
        currencies := currencies + [names[i]];
      }
      hide Summaries, UserTrades, Portfolio;
      Assoc4(queue, [Portfolio(names)], Summaries(names), UserTrades(names));
      if ready && canDownload {
        SubscribeUserPortfolio(names);
        RequestAccountSummary(names);
        RequestUserTradesByCurrency(names);
      }
    }

    /** The REST client's answer, up to what the drop copy makes of it. */
    method OnGetCurrencies(items: seq<string>)
      modifies this, rest
      ensures Value() == Step(old(Value()), CurrenciesAck(items))
    {
      var names := rest.OnGetCurrenciesAck(items);
      if names != [] {
        OnCurrenciesUpdate(names);
      }
    }

    method OnLatch()
      modifies this
      ensures Value() == Step(old(Value()), Latch)
    {
      if canDownload {
        return;
      }
      hide Summaries, UserTrades, Portfolio;
      canDownload := true;
      Assoc4(queue, [Portfolio(currencies)], Summaries(currencies), UserTrades(currencies));
      if ready {
        SubscribeUserPortfolio(currencies);
        RequestAccountSummary(currencies);
        RequestUserTradesByCurrency(currencies);
      }
    }

    /** The download library visits all states at once, as none of them waits. */
    method OnLoggedIn()
      requires !ready
      modifies this
      ensures Value() == Step(old(Value()), LoggedIn)
    {
      hide Summaries, UserTrades, Portfolio;
      if canDownload {
        SubscribeUserPortfolio(currencies);
      }
      queue := queue + [SubscribeChanges];
      queue := queue + [SubscribeOrders];
      queue := queue + [SubscribeTrades];
      if canDownload {
        RequestAccountSummary(currencies);
        RequestUserTradesByCurrency(currencies);
      }
      ready := true;
    }

    method OnDisconnected()
      modifies this
      ensures Value() == Step(old(Value()), Disconnected)
    {
      ready := false;
      queue := [];
      sent := [];
    }

    method CheckSubscribeQueue(count: nat)
      modifies this
      ensures Value() == Step(old(Value()), Service(count))
    {
      if ready {
        var n := if count < |queue| then count else |queue|;
        sent := sent + queue[..n];
        queue := queue[n..];
      }
    }
  }

  // Runs

  function After(h: seq<Event>): State {
    if h == [] then NEW_STATE else Step(After(h[..|h| - 1]), h[|h| - 1])
  }

  /** The session logs in only when it is not logged in. */
  predicate Legal(h: seq<Event>) {
    forall i: nat :: i < |h| && h[i].LoggedIn? ==> !After(h[..i]).ready
  }

  /** Everything enqueued since the connection was made: sent, then waiting. */
  function Enqueued(s: State): seq<Request> {
    s.sent + s.queue
  }

  /** A kind of request for a currency, or a subscription that every login makes. */
  datatype Kind = PortfolioKind | SummaryKind | TradesKind | ChangesKind | OrdersKind | UserTradesKind

  predicate OfCurrency(k: Kind) {
    k.PortfolioKind? || k.SummaryKind? || k.TradesKind?
  }

  /** How often one request asks for `c`. */
  function Asks(r: Request, k: Kind, c: string): nat {
    match r
    case SubscribePortfolio(names) => if k.PortfolioKind? then multiset(names)[c] else 0
    case GetAccountSummary(name) => if k.SummaryKind? && name == c then 1 else 0
    case GetUserTrades(name) => if k.TradesKind? && name == c then 1 else 0
    case SubscribeChanges => if k.ChangesKind? then 1 else 0
    case SubscribeOrders => if k.OrdersKind? then 1 else 0
    case SubscribeTrades => if k.UserTradesKind? then 1 else 0
  }

  function Count(requests: seq<Request>, k: Kind, c: string): nat {
    if requests == [] then 0 else
      Count(requests[..|requests| - 1], k, c) + Asks(requests[|requests| - 1], k, c)
  }

  function Times(names: seq<string>, c: string): nat {
    multiset(names)[c]
  }

  lemma {:induction false} CountAdds(a: seq<Request>, b: seq<Request>, k: Kind, c: string)
    ensures Count(a + b, k, c) == Count(a, k, c) + Count(b, k, c)
  {
    if b == [] {
      assert a + b == a;
    } else {
      var n := |b| - 1;
      assert (a + b)[..|a| + n] == a + b[..n];
      CountAdds(a, b[..n], k, c);
    }
  }

  lemma {:induction false} CountOfEach(names: seq<string>, k: Kind, c: string)
    ensures Count(Summaries(names), k, c) == if k.SummaryKind? then Times(names, c) else 0
    ensures Count(UserTrades(names), k, c) == if k.TradesKind? then Times(names, c) else 0
  {
    if names != [] {
      var n := |names| - 1;
      CountOfEach(names[..n], k, c);
      assert names == names[..n] + [names[n]];
      assert Summaries(names)[..n] == Summaries(names[..n]);
      assert UserTrades(names)[..n] == UserTrades(names[..n]);
    }
  }

  lemma CountOfOne(r: Request, k: Kind, c: string)
    ensures Count([r], k, c) == Asks(r, k, c)
  {
    assert [r][..0] == [];
  }

  /** The one channel too many that joining no names writes. */
  function Extra(names: seq<string>, k: Kind, c: string): nat {
    if k.PortfolioKind? && c == "" && names == [] then 1 else 0
  }

  lemma PortfolioAsks(names: seq<string>, k: Kind, c: string)
    ensures Asks(Portfolio(names), k, c) == if k.PortfolioKind? then Times(names, c) + Extra(names, k, c) else 0
  {
    if names == [] {
      assert multiset([""]) == multiset{""};
    }
  }

  /** A download asks for each of its names once per kind. */
  lemma CountOfDownloads(names: seq<string>, k: Kind, c: string)
    ensures Count(Downloads(names), k, c) == if OfCurrency(k) then Times(names, c) + Extra(names, k, c) else 0
  {
    PortfolioAsks(names, k, c);
    CountOfOne(Portfolio(names), k, c);
    CountOfEach(names, k, c);
    CountAdds([Portfolio(names)], Summaries(names), k, c);
    CountAdds([Portfolio(names)] + Summaries(names), UserTrades(names), k, c);
  }

  lemma CountOfLogin(s: State, k: Kind, c: string)
    ensures Count(LoginRequests(s), k, c)
         == if !OfCurrency(k) then 1 else if s.canDownload then Times(s.currencies, c) + Extra(s.currencies, k, c) else 0
  {
    var plain := [SubscribeChanges] + [SubscribeOrders] + [SubscribeTrades];
    CountOfOne(SubscribeChanges, k, c);
    CountOfOne(SubscribeOrders, k, c);
    CountOfOne(SubscribeTrades, k, c);
    CountAdds([SubscribeChanges], [SubscribeOrders], k, c);
    CountAdds([SubscribeChanges] + [SubscribeOrders], [SubscribeTrades], k, c);
    assert plain == [SubscribeChanges, SubscribeOrders, SubscribeTrades];
    if s.canDownload {
      PortfolioAsks(s.currencies, k, c);
      CountOfOne(Portfolio(s.currencies), k, c);
      CountOfEach(s.currencies, k, c);
      CountAdds([Portfolio(s.currencies)], plain, k, c);
      CountAdds(Summaries(s.currencies), UserTrades(s.currencies), k, c);
      CountAdds([Portfolio(s.currencies)] + plain, Summaries(s.currencies) + UserTrades(s.currencies), k, c);
    } else {
      assert LoginRequests(s) == plain;
    }
  }

  /** Requests are sent in the order in which they were enqueued. */
  lemma {:induction false} ServiceKeepsOrder(s: State, count: nat)
    ensures var t := Step(s, Service(count));
            Enqueued(t) == Enqueued(s) && s.sent <= t.sent && (s.ready && count >= |s.queue| ==> t.queue == [])
  {
    var n := if !s.ready then 0 else if count < |s.queue| then count else |s.queue|;
    assert s.queue == s.queue[..n] + s.queue[n..];
    Assoc(s.sent, s.queue[..n], s.queue[n..]);
  }

  // Exactly once

  predicate Distinct(names: seq<string>) {
    forall i: nat, j: nat :: i < j < |names| ==> names[i] != names[j]
  }

  lemma {:induction false} DistinctTimes(names: seq<string>, c: string)
    requires Distinct(names)
    ensures Times(names, c) == if c in names then 1 else 0
  {
    if names != [] {
      var n := |names| - 1;
      DistinctTimes(names[..n], c);
      assert names == names[..n] + [names[n]];
    }
  }

  lemma DistinctAppend(a: seq<string>, b: seq<string>)
    requires Distinct(a) && Distinct(b) && forall n :: n in b ==> n !in a
    ensures Distinct(a + b)
  {
    forall i: nat, j: nat | i < j < |a + b|
      ensures (a + b)[i] != (a + b)[j]
    {
      if i < |a| <= j {
        assert a[i] in a && b[j - |a|] in b;
      } else if |a| <= i {
        assert b[i - |a|] != b[j - |a|];
      }
    }
  }

  lemma {:induction false} FreshIsNew(known: set<string>, items: seq<string>)
    ensures var added := Fresh(known, items);
            Distinct(added) && forall c :: c in added <==> c in items && c !in known
  {
    if items != [] {
      var n := |items| - 1;
      FreshIsNew(known, items[..n]);
      assert items == items[..n] + [items[n]];
    }
  }

  predicate Open(s: State) {
    s.ready && s.canDownload
  }

  /** New currencies are passed on in the order in which they came. */
  lemma {:induction false} FreshKeepsOrder(known: set<string>, items: seq<string>, n: nat)
    requires n <= |items|
    ensures Fresh(known, items[..n]) <= Fresh(known, items)
    ensures forall c :: c in Fresh(known, items[..n]) <==> c in items[..n] && c !in known
    decreases |items|
  {
    FreshIsNew(known, items[..n]);
    if n < |items| {
      var front := items[..|items| - 1];
      FreshKeepsOrder(known, front, n);
      assert front[..n] == items[..n];
    } else {
      assert items[..n] == items;
    }
  }

  /** What every reachable state keeps, for one currency and one kind of request; `extra` counts the channels too many. */
  ghost predicate Inv(s: State, k: Kind, c: string, extra: nat) {
    && Distinct(s.currencies)
    && (forall n :: n in s.currencies <==> n in s.known)
    && (!s.ready ==> Enqueued(s) == [])
    && (!Open(s) ==> extra == 0)
    && Count(Enqueued(s), k, c)
       == (if s.ready && (!OfCurrency(k) || (s.canDownload && c in s.currencies)) then 1 else 0) + extra
  }

  function NextExtra(s: State, e: Event, k: Kind, c: string, extra: nat): nat {
    if e.Disconnected? then 0
    else if !Open(s) && Open(Step(s, e)) then Extra(s.currencies, k, c)
    else extra
  }

  lemma StepKeepsInv(s: State, e: Event, k: Kind, c: string, extra: nat)
    requires Inv(s, k, c, extra) && (e.LoggedIn? ==> !s.ready)
    ensures Inv(Step(s, e), k, c, NextExtra(s, e, k, c, extra))
  {
    hide Count, Downloads, LoginRequests, Fresh, Times, Distinct;
    match e
    case CurrenciesAck(items) => NewCurrenciesKeepInv(s, items, k, c, extra);
    case Latch => LatchKeepsInv(s, k, c, extra);
    case LoggedIn => LoginKeepsInv(s, k, c, extra);
    case Disconnected => CountOfNone(k, c);
    case Service(count) =>
      var n := if !s.ready then 0 else if count < |s.queue| then count else |s.queue|;
      assert s.queue == s.queue[..n] + s.queue[n..];
      Assoc(s.sent, s.queue[..n], s.queue[n..]);
  }

  lemma CountOfNone(k: Kind, c: string)
    ensures Count([], k, c) == 0
  {
  }

  lemma NewCurrenciesKeepInv(s: State, items: seq<string>, k: Kind, c: string, extra: nat)
    requires Inv(s, k, c, extra)
    ensures Inv(Step(s, CurrenciesAck(items)), k, c, extra)
  {
    hide Count, Downloads, Fresh, Times;
    var added := Fresh(s.known, items);
    FreshIsNew(s.known, items);
    DistinctAppend(s.currencies, added);
    assert forall n :: n in Elements(items) <==> n in items;
    assert forall n :: n in s.currencies + added <==> n in s.known + Elements(items);
    DistinctTimes(added, c);
    assert s.queue + [] == s.queue;
    Assoc(s.sent, s.queue, Downloads(added));
    CountAdds(Enqueued(s), Downloads(added), k, c);
    CountOfDownloads(added, k, c);
  }

  lemma LatchKeepsInv(s: State, k: Kind, c: string, extra: nat)
    requires Inv(s, k, c, extra)
    ensures Inv(Step(s, Latch), k, c, NextExtra(s, Latch, k, c, extra))
  {
    hide Count, Downloads, Times;
    DistinctTimes(s.currencies, c);
    Assoc(s.sent, s.queue, Downloads(s.currencies));
    CountAdds(Enqueued(s), Downloads(s.currencies), k, c);
    CountOfDownloads(s.currencies, k, c);
  }

  lemma LoginKeepsInv(s: State, k: Kind, c: string, extra: nat)
    requires Inv(s, k, c, extra) && !s.ready
    ensures Inv(Step(s, LoggedIn), k, c, NextExtra(s, LoggedIn, k, c, extra))
  {
    hide Count, LoginRequests, Times;
    DistinctTimes(s.currencies, c);
    Assoc(s.sent, s.queue, LoginRequests(s));
    CountAdds(Enqueued(s), LoginRequests(s), k, c);
    CountOfNone(k, c);
    CountOfLogin(s, k, c);
  }

  /** Every currency the REST client has ever been told of, and no other. */
  function Announced(h: seq<Event>): set<string> {
    if h == [] then {} else
      Announced(h[..|h| - 1]) + (if h[|h| - 1].CurrenciesAck? then Elements(h[|h| - 1].items) else {})
  }

  lemma {:induction false} KnownIsAnnounced(h: seq<Event>)
    ensures After(h).known == Announced(h)
  {
    if h != [] {
      KnownIsAnnounced(h[..|h| - 1]);
    }
  }

  // The flags, from the events

  /** The session logged in, and the connection was not lost since. */
  predicate LoggedInNow(h: seq<Event>) {
    h != [] && (h[|h| - 1].LoggedIn? || (!h[|h| - 1].Disconnected? && LoggedInNow(h[..|h| - 1])))
  }

  /** Ready means logged in on this connection; the latch, once given, stays over all connections. */
  lemma {:induction false} FlagsFromEvents(h: seq<Event>)
    ensures After(h).ready <==> LoggedInNow(h)
    ensures After(h).canDownload <==> Latch in h
  {
    if h != [] {
      var n := |h| - 1;
      FlagsFromEvents(h[..n]);
      assert h == h[..n] + [h[n]];
    }
  }

  // The empty name

  predicate NotLostAfter(h: seq<Event>, i: nat) {
    forall j: nat :: i < j < |h| ==> !h[j].Disconnected?
  }

  /** The event at `i` first made the session both ready and latched on the connection that lasts to the end. */
  predicate OpensAt(h: seq<Event>, i: nat) {
    i < |h| && !Open(After(h[..i])) && Open(After(h[..i + 1])) && NotLostAfter(h, i)
  }

  /** At that event no currency was known. */
  predicate OpenedEmpty(h: seq<Event>) {
    exists i: nat :: i < |h| && OpensAt(h, i) && Announced(h[..i]) == {}
  }

  lemma NotLostAtEnd(h: seq<Event>)
    requires h != []
    ensures NotLostAfter(h, |h| - 1)
  {
  }

  lemma NotLostStep(h: seq<Event>, i: nat)
    requires h != [] && i < |h| - 1
    ensures NotLostAfter(h, i) <==> NotLostAfter(h[..|h| - 1], i) && !h[|h| - 1].Disconnected?
  {
    var front := h[..|h| - 1];
    assert forall j: nat :: j < |front| ==> front[j] == h[j];
  }

  lemma OpensAtStep(h: seq<Event>, i: nat)
    requires h != []
    ensures var n := |h| - 1;
            OpensAt(h, i) <==> if i == n then !Open(After(h[..n])) && Open(After(h)) else OpensAt(h[..n], i) && !h[n].Disconnected?
  {
    hide After, Open, NotLostAfter;
    var n := |h| - 1;
    if i < n {
      assert h[..n][..i] == h[..i] && h[..n][..i + 1] == h[..i + 1];
      NotLostStep(h, i);
    } else if i == n {
      assert h[..n + 1] == h;
      NotLostAtEnd(h);
    }
  }

  lemma OpenedEmptyStep(h: seq<Event>)
    requires h != []
    ensures var n := |h| - 1;
            OpenedEmpty(h)
            <==> (!Open(After(h[..n])) && Open(After(h)) && Announced(h[..n]) == {})
                 || (OpenedEmpty(h[..n]) && !h[n].Disconnected?)
  {
    hide OpensAt, Open, After, Announced;
    var n := |h| - 1;
    OpensAtStep(h, n);
    if i: nat :| i < |h| && OpensAt(h, i) && Announced(h[..i]) == {} {
      OpensAtStep(h, i);
      if i != n {
        assert h[..n][..i] == h[..i];
      }
    }
    var front := h[..n];
    if i: nat :| i < n && OpensAt(front, i) && Announced(front[..i]) == {} {
      OpensAtStep(h, i);
      assert front[..i] == h[..i];
    }
  }

  function ExtraAfter(h: seq<Event>, k: Kind, c: string): nat {
    if k.PortfolioKind? && c == "" && OpenedEmpty(h) then 1 else 0
  }

  lemma {:induction false} InvHolds(h: seq<Event>, k: Kind, c: string)
    requires Legal(h)
    ensures Inv(After(h), k, c, ExtraAfter(h, k, c))
  {
    hide Step, Inv, OpenedEmpty, Announced;
    if h == [] {
      InvAtFirst(k, c);
      NothingOpened();
    } else {
      var n := |h| - 1;
      assert forall i: nat :: i < n ==> h[..n][i] == h[i] && h[..n][..i] == h[..i];
      InvHolds(h[..n], k, c);
      StepKeepsInv(After(h[..n]), h[n], k, c, ExtraAfter(h[..n], k, c));
      ExtraStep(h, k, c);
    }
  }

  lemma InvAtFirst(k: Kind, c: string)
    ensures Inv(NEW_STATE, k, c, 0)
  {
  }

  lemma NothingOpened()
    ensures !OpenedEmpty([])
  {
  }

  lemma ExtraStep(h: seq<Event>, k: Kind, c: string)
    requires h != []
    requires var n := |h| - 1;
             Inv(After(h[..n]), k, c, ExtraAfter(h[..n], k, c)) && After(h) == Step(After(h[..n]), h[n])
    ensures ExtraAfter(h, k, c) == NextExtra(After(h[..|h| - 1]), h[|h| - 1], k, c, ExtraAfter(h[..|h| - 1], k, c))
  {
    hide After, Announced, Count, OpenedEmpty;
    var n := |h| - 1;
    OpenedEmptyStep(h);
    KnownIsAnnounced(h[..n]);
    NoneIsEmpty(After(h[..n]).currencies, After(h[..n]).known);
    LostIsClosed(After(h[..n]));
  }

  lemma NoneIsEmpty(names: seq<string>, known: set<string>)
    requires forall n :: n in names <==> n in known
    ensures names == [] <==> known == {}
  {
    if names != [] {
      assert names[0] in known;
    }
  }

  lemma LostIsClosed(s: State)
    ensures !Open(Step(s, Disconnected))
  {
  }

  /**
   Once logged in on this connection, and latched ever, every currency announced so far has had each of its three requests
   enqueued exactly once on the current connection, and so has each subscription that is not
   for a currency after the login alone; before that, none. The one exception is the portfolio of
   the empty name, which is subscribed to once more if the connection was opened with no currency known.
   */
  lemma {:induction false} ExactlyOnce(h: seq<Event>, k: Kind, c: string)
    requires Legal(h)
    ensures var s := After(h);
            Count(Enqueued(s), k, c)
            == (if LoggedInNow(h) && (!OfCurrency(k) || (Latch in h && c in Announced(h))) then 1 else 0)
               + (if k.PortfolioKind? && c == "" && OpenedEmpty(h) then 1 else 0)
  {
    hide OpenedEmpty;
    InvHolds(h, k, c);
    KnownIsAnnounced(h);
    FlagsFromEvents(h);
  }

  /** A portfolio with an empty name is subscribed to, without such a currency, iff the connection was opened with none known. */
  lemma {:induction false} EmptyPortfolioIff(h: seq<Event>)
    requires Legal(h) && "" !in Announced(h)
    ensures Count(Enqueued(After(h)), PortfolioKind, "") == if OpenedEmpty(h) then 1 else 0
  {
    ExactlyOnce(h, PortfolioKind, "");
  }

  /** Once the queue is empty each has been sent exactly once. */
  lemma {:induction false} SentExactlyOnce(h: seq<Event>, k: Kind, c: string)
    requires Legal(h)
    requires LoggedInNow(h) && Latch in h && After(h).queue == [] && c in Announced(h)
    ensures Count(After(h).sent, k, c) == 1 + if k.PortfolioKind? && c == "" && OpenedEmpty(h) then 1 else 0
  {
    hide OpenedEmpty;
    ExactlyOnce(h, k, c);
    assert Enqueued(After(h)) == After(h).sent;
  }

  /** The latch before any currency is known: the join of no names subscribes to a portfolio without a name. */
  lemma {:induction false} EmptyJoinNamesNothing()
    ensures After([Latch, LoggedIn]).queue == [SubscribePortfolio([""]), SubscribeChanges, SubscribeOrders, SubscribeTrades]
  {
    var h := [Latch, LoggedIn];
    assert h[..1] == [Latch] && [Latch][..0] == [];
    assert After([Latch]) == NEW_STATE.(canDownload := true);
  }
}
