/**
 Channel names of the JSON interface: the texts that subscribe to them
 (src/roq/deribit/gateway/web_socket.cpp:497-565, src/roq/deribit/gateway/drop_copy.cpp:462-475)
 and the parser that takes a name apart (src/roq/deribit/protocol/json/parser.cpp:52-112).
 */
module ChannelNames {
  import opened Words

  // Subscribing

  /** The names with `separator` between them. */
  function Join(names: seq<string>, separator: string): string {
    if names == [] then "" else if |names| == 1 then names[0]
    else names[0] + separator + Join(names[1..], separator)
  }

  const QUOTE_SIGN := "\""

  /** A list of channels that differ in one part only; the separator closes one name and opens the next. */
  function ChannelList(prefix: string, names: seq<string>, suffix: string): string {
    "[" + QUOTE_SIGN + prefix + Join(names, suffix + QUOTE_SIGN + "," + QUOTE_SIGN + prefix) + suffix + QUOTE_SIGN + "]"
  }

  function SubscribeMessage(access: string, channels: string, requestType: string): string {
    "{\"method\":\"" + access + "/subscribe\",\"params\":{\"channels\":" + channels + "},\"id\":\"" + requestType + "\"}"
  }

  const QUOTE_PREFIX := "quote" + "."
  const TICKER_PREFIX := "ticker" + "."
  const CHART_PREFIX := "chart" + "." + "trades" + "."
  const PORTFOLIO_PREFIX := "user" + "." + "portfolio" + "."
  const CHART_SUFFIX := ".1"

  datatype Settings = Settings(disableQuote: bool, timeSeriesLookback: nat, tickerInterval: string)

  function QuoteText(symbols: seq<string>): string {
    SubscribeMessage("public", ChannelList(QUOTE_PREFIX, symbols, ""), "subscribe_quote")
  }

  function TickerText(symbols: seq<string>, interval: string): string {
    SubscribeMessage("public", ChannelList(TICKER_PREFIX, symbols, "." + interval), "subscribe_ticker")
  }

  function ChartText(symbols: seq<string>): string {
    SubscribeMessage("public", ChannelList(CHART_PREFIX, symbols, CHART_SUFFIX), "subscribe_chart_trades")
  }

  function SubscribeTexts(config: Settings, symbols: seq<string>): seq<string> {
    if symbols == [] then [] else
      (if config.disableQuote then [] else [QuoteText(symbols)])
      + [TickerText(symbols, config.tickerInterval)]
      + (if config.timeSeriesLookback == 0 then [] else [ChartText(symbols)])
  }

  class WebSocket {
    const config: Settings
    var subscribeQueue: seq<string>
    var timeSeriesRequests: seq<string>

    constructor (config: Settings)
      ensures this.config == config && subscribeQueue == [] && timeSeriesRequests == []
    {
      this.config := config;
      subscribeQueue, timeSeriesRequests := [], [];
    }

    method Subscribe(symbols: seq<string>)
      modifies this
      ensures subscribeQueue == old(subscribeQueue) + SubscribeTexts(config, symbols)
      ensures timeSeriesRequests
           == old(timeSeriesRequests) + if config.timeSeriesLookback == 0 then [] else symbols
    {
      hide QuoteText, TickerText, ChartText;
      if symbols == [] {
        return;
      }
      if !config.disableQuote {
        SubscribeQuote(symbols);
      }
      SubscribeTicker(symbols);
      if config.timeSeriesLookback != 0 {
        SubscribeChartTrades(symbols);
      }
    }

    method SubscribeQuote(symbols: seq<string>)
      modifies this`subscribeQueue
      ensures subscribeQueue == old(subscribeQueue) + [QuoteText(symbols)]
    {
      var separator := "\",\"" + QUOTE_PREFIX;
      assert "" + QUOTE_SIGN + "," + QUOTE_SIGN + QUOTE_PREFIX == separator;
      var channels := "[\"" + QUOTE_PREFIX + Join(symbols, separator) + "\"]";
      assert channels == ChannelList(QUOTE_PREFIX, symbols, "");
      subscribeQueue := subscribeQueue + [SubscribeMessage("public", channels, "subscribe_quote")];
    }

    method SubscribeTicker(symbols: seq<string>)
      modifies this`subscribeQueue
      ensures subscribeQueue == old(subscribeQueue) + [TickerText(symbols, config.tickerInterval)]
    {
      var separator := "." + config.tickerInterval + "\",\"" + TICKER_PREFIX;
      assert "." + config.tickerInterval + QUOTE_SIGN + "," + QUOTE_SIGN + TICKER_PREFIX == separator;
      var channels := "[\"" + TICKER_PREFIX + Join(symbols, separator) + "." + config.tickerInterval + "\"]";
      assert channels == ChannelList(TICKER_PREFIX, symbols, "." + config.tickerInterval);
      subscribeQueue := subscribeQueue + [SubscribeMessage("public", channels, "subscribe_ticker")];
    }

    method SubscribeChartTrades(symbols: seq<string>)
      modifies this
      ensures subscribeQueue == old(subscribeQueue) + [ChartText(symbols)]
      ensures timeSeriesRequests == old(timeSeriesRequests) + symbols
    {
      var separator := ".1\",\"" + CHART_PREFIX;
      assert CHART_SUFFIX + QUOTE_SIGN + "," + QUOTE_SIGN + CHART_PREFIX == separator;
      var channels := "[\"" + CHART_PREFIX + Join(symbols, separator) + ".1\"]";
      assert channels == ChannelList(CHART_PREFIX, symbols, CHART_SUFFIX);
      subscribeQueue := subscribeQueue + [SubscribeMessage("public", channels, "subscribe_chart_trades")];
      for i := 0 to |symbols|
        invariant timeSeriesRequests == old(timeSeriesRequests) + symbols[..i]
        invariant subscribeQueue == old(subscribeQueue) + [ChartText(symbols)]
      {
        timeSeriesRequests := timeSeriesRequests + [symbols[i]];
      }
    }
  }

  // A reader of JSON lists of strings, for characters that need no escape

  predicate IsPlain(c: char) {
    ' ' <= c && c != '"' && c != '\\'
  }

  predicate Plain(s: string) {
    forall i: nat :: i < |s| ==> IsPlain(s[i])
  }

  /** How many plain characters the text starts with. */
  function PlainLength(text: string): (n: nat)
    ensures n <= |text|
  {
    if text != "" && IsPlain(text[0]) then 1 + PlainLength(text[1..]) else 0
  }

  /** The strings of a list whose opening bracket has been read, and the text behind the list. */
  function ReadStrings(text: string): Option<(seq<string>, string)>
    decreases |text|
  {
    if text == "" || text[0] != '"' then None else
      var n := PlainLength(text[1..]);
      if n + 2 >= |text| || text[n + 1] != '"' then None
      else if text[n + 2] == ']' then Some(([text[1..n + 1]], text[n + 3..]))
      else if text[n + 2] != ',' then None
      else match ReadStrings(text[n + 3..])
           case None => None
           case Some(more) => Some(([text[1..n + 1]] + more.0, more.1))
  }

  function ReadList(text: string): Option<(seq<string>, string)> {
    if text == "" || text[0] != '[' then None else ReadStrings(text[1..])
  }

  function Channels(prefix: string, names: seq<string>, suffix: string): seq<string> {
    seq(|names|, i requires 0 <= i < |names| => prefix + names[i] + suffix)
  }

  lemma {:induction false} PlainPart(s: string, rest: string)
    requires Plain(s) && rest != "" && rest[0] == '"'
    ensures PlainLength(s + rest) == |s|
  {
    if s == "" {
      assert s + rest == rest;
    } else {
      assert (s + rest)[1..] == s[1..] + rest;
      PlainPart(s[1..], rest);
    }
  }

  /** One string of a list, followed by the rest of it. */
  lemma ReadOne(s: string, rest: string)
    requires Plain(s) && rest != ""
    ensures var text := QUOTE_SIGN + s + QUOTE_SIGN + rest;
            ReadStrings(text)
            == if rest[0] == ']' then Some(([s], rest[1..]))
               else if rest[0] != ',' then None
               else match ReadStrings(rest[1..])
                    case None => None
                    case Some(more) => Some(([s] + more.0, more.1))
  {
    var text := QUOTE_SIGN + s + QUOTE_SIGN + rest;
    assert text[1..] == s + (QUOTE_SIGN + rest);
    PlainPart(s, QUOTE_SIGN + rest);
    assert text[1..|s| + 1] == s && text[|s| + 2] == rest[0] && text[|s| + 3..] == rest[1..];
  }

  const BETWEEN := QUOTE_SIGN + "," + QUOTE_SIGN

  lemma Regroup(p: string, n: string, s: string, m: string, j: string)
    ensures p + (n + (s + m + p) + j) + s == (p + n + s) + m + (p + j + s)
  {
    var t := p + j + s;
    assert p + (n + (s + m + p) + j) == (p + n + s) + m + (p + j);
    Assoc((p + n + s) + m, p + j, s);
  }

  /** Putting the prefix and suffix around the joined names is joining the channels. */
  lemma {:induction false} JoinedChannels(prefix: string, names: seq<string>, suffix: string)
    requires names != []
    ensures prefix + Join(names, suffix + BETWEEN + prefix) + suffix == Join(Channels(prefix, names, suffix), BETWEEN)
  {
    var channels := Channels(prefix, names, suffix);
    if |names| > 1 {
      var rest := names[1..];
      JoinedChannels(prefix, rest, suffix);
      assert channels[1..] == Channels(prefix, rest, suffix);
      Regroup(prefix, names[0], suffix, BETWEEN, Join(rest, suffix + BETWEEN + prefix));
    }
  }

  /** Reading back the joined strings of a list. */
  lemma {:induction false} ReadJoined(items: seq<string>, rest: string)
    requires items != [] && forall i: nat :: i < |items| ==> Plain(items[i])
    ensures ReadStrings(QUOTE_SIGN + Join(items, BETWEEN) + QUOTE_SIGN + ("]" + rest)) == Some((items, rest))
  {
    hide ReadStrings, Plain;
    if |items| == 1 {
      ReadOne(items[0], "]" + rest);
      assert ("]" + rest)[1..] == rest && items == [items[0]];
    } else {
      var j := Join(items[1..], BETWEEN);
      var more := QUOTE_SIGN + j + QUOTE_SIGN + ("]" + rest);
      Unjoin(items[0], j, "]" + rest);
      ReadOne(items[0], "," + more);
      ReadJoined(items[1..], rest);
      assert ("," + more)[1..] == more;
      assert items == [items[0]] + items[1..];
    }
  }

  lemma Unjoin(s: string, j: string, rest: string)
    ensures QUOTE_SIGN + (s + BETWEEN + j) + QUOTE_SIGN + rest == QUOTE_SIGN + s + QUOTE_SIGN + ("," + (QUOTE_SIGN + j + QUOTE_SIGN + rest))
  {
    assert QUOTE_SIGN + (s + BETWEEN + j) == QUOTE_SIGN + s + QUOTE_SIGN + ("," + (QUOTE_SIGN + j));
  }

  /** What a builder writes for a non-empty list names one channel each, in order. */
  lemma {:induction false} ListNamesEachChannel(prefix: string, names: seq<string>, suffix: string, rest: string)
    requires names != [] && Plain(prefix) && Plain(suffix) && forall i: nat :: i < |names| ==> Plain(names[i])
    ensures ReadList(ChannelList(prefix, names, suffix) + rest) == Some((Channels(prefix, names, suffix), rest))
  {
    var channels := Channels(prefix, names, suffix);
    assert forall i: nat :: i < |names| ==> Plain(channels[i]);
    hide ReadStrings, Plain, Join;
    JoinedChannels(prefix, names, suffix);
    ReadJoined(channels, rest);
    var j := Join(names, suffix + QUOTE_SIGN + "," + QUOTE_SIGN + prefix);
    assert suffix + QUOTE_SIGN + "," + QUOTE_SIGN + prefix == suffix + BETWEEN + prefix;
    Bracketed(prefix, j, suffix, rest);
  }

  lemma Bracketed(prefix: string, j: string, suffix: string, rest: string)
    ensures var text := "[" + QUOTE_SIGN + prefix + j + suffix + QUOTE_SIGN + "]" + rest;
            text[0] == '[' && text[1..] == QUOTE_SIGN + (prefix + j + suffix) + QUOTE_SIGN + ("]" + rest)
  {
  }

  /** For an empty list it still names one, without a symbol. */
  lemma {:induction false} EmptyListNamesOne(prefix: string, suffix: string)
    ensures ChannelList(prefix, [], suffix) == ChannelList(prefix, [""], suffix)
  {
  }

  /** The list of one channel, in full. */
  lemma OneChannel(prefix: string, symbol: string, suffix: string)
    ensures ChannelList(prefix, [symbol], suffix) == "[\"" + (prefix + symbol + suffix) + "\"]"
  {
    assert "[" + QUOTE_SIGN == "[\"" && QUOTE_SIGN + "]" == "\"]";
    var channel := prefix + symbol + suffix;
    assert "[" + QUOTE_SIGN + prefix + symbol + suffix == "[\"" + channel;
    Assoc("[\"" + channel, QUOTE_SIGN, "]");
  }

  /** The messages for one symbol, in full. */
  lemma {:induction false} TextsOfOne(symbol: string, interval: string)
    ensures QuoteText([symbol])
         == "{\"method\":\"" + "public" + "/subscribe\",\"params\":{\"channels\":"
            + ("[\"" + ("quote" + "." + symbol + "") + "\"]") + "},\"id\":\"" + "subscribe_quote" + "\"}"
    ensures TickerText([symbol], interval)
         == "{\"method\":\"" + "public" + "/subscribe\",\"params\":{\"channels\":"
            + ("[\"" + ("ticker" + "." + symbol + ("." + interval)) + "\"]") + "},\"id\":\"" + "subscribe_ticker" + "\"}"
    ensures ChartText([symbol])
         == "{\"method\":\"" + "public" + "/subscribe\",\"params\":{\"channels\":"
            + ("[\"" + ("chart" + "." + "trades" + "." + symbol + ".1") + "\"]") + "},\"id\":\"" + "subscribe_chart_trades" + "\"}"
  {
    hide ChannelList;
    OneChannel(QUOTE_PREFIX, symbol, "");
    OneChannel(TICKER_PREFIX, symbol, "." + interval);
    OneChannel(CHART_PREFIX, symbol, CHART_SUFFIX);
  }

  /** Which messages go out, in which order. */
  lemma {:induction false} TextsBySettings(config: Settings, symbols: seq<string>)
    ensures var texts, quote, ticker, chart := SubscribeTexts(config, symbols), QuoteText(symbols),
                                               TickerText(symbols, config.tickerInterval), ChartText(symbols);
            texts == if symbols == [] then []
                     else if config.disableQuote && config.timeSeriesLookback == 0 then [ticker]
                     else if config.disableQuote then [ticker, chart]
                     else if config.timeSeriesLookback == 0 then [quote, ticker]
                     else [quote, ticker, chart]
  {
    hide QuoteText, TickerText, ChartText;
  }

  // Taking names apart

  /** How many characters come before the first '.'. */
  function DotAfter(s: string): (k: nat)
    ensures k <= |s|
    ensures k < |s| ==> s[k] == '.'
    ensures forall i: nat :: i < k ==> s[i] != '.'
  {
    if s == "" || s[0] == '.' then 0 else 1 + DotAfter(s[1..])
  }

  /** The position of the first '.' from `start` on, or the length if there is none. */
  function FindDot(s: string, start: nat): (k: nat)
    requires start <= |s|
    ensures start <= k <= |s|
  {
    start + DotAfter(s[start..])
  }

  function Part(name: string, start: nat): string
    requires start <= |name|
  {
    name[start..FindDot(name, start)]
  }

  function GetToken(name: string): string {
    var delim := FindDot(name, 0);
    var part := name[..delim];
    if part == "user" && delim < |name| then Part(name, delim + 1)
    else if part == "instrument" && delim < |name| then
      if Part(name, delim + 1) == "state" then "instrument_state" else ""
    else if part == "chart" && delim < |name| then
      if Part(name, delim + 1) == "trades" then "chart_trades" else ""
    else part
  }

  datatype Channel =
    | Undefined | Unknown
    | Changes | InstrumentState | PlatformState | Portfolio | Quote | Ticker | ChartTrades | Orders | Trades

  function ChannelOf(token: string): Channel {
    match token
    case "changes" => Changes
    case "instrument_state" => InstrumentState
    case "platform_state" => PlatformState
    case "portfolio" => Portfolio
    case "quote" => Quote
    case "ticker" => Ticker
    case "chart_trades" => ChartTrades
    case "orders" => Orders
    case "trades" => Trades
    case _ => Unknown
  }

  /** The parts of a name between its dots. */
  function Split(name: string): (parts: seq<string>)
    ensures parts != []
  {
    var k := DotAfter(name);
    [name[..k]] + if k == |name| then [] else Split(name[k + 1..])
  }

  /** The token a name's first two parts stand for. */
  function TokenOf(parts: seq<string>): string
    requires parts != []
  {
    if |parts| == 1 then parts[0]
    else if parts[0] == "user" then parts[1]
    else if parts[0] == "instrument" then if parts[1] == "state" then "instrument_state" else ""
    else if parts[0] == "chart" then if parts[1] == "trades" then "chart_trades" else ""
    else parts[0]
  }

  /** The third part of a chart channel that has a fourth; the interval is never read. */
  method ParseChannel(name: string) returns (channel: Channel, symbol: string, interval: nat)
    ensures var parts := Split(name);
            && channel == ChannelOf(TokenOf(parts))
            && symbol == (if channel == ChartTrades && |parts| > 3 then parts[2] else "")
            && interval == 0
  {
    assert ChannelOf("") == Unknown;
    TokenIsOfParts(name);
    hide ChannelOf, GetToken, TokenOf, Split;
    symbol, interval := "", 0;
    var token := GetToken(name);
    if token == "" {
      channel := Unknown;
      return;
    }
    channel := ChannelOf(token);
    if channel == ChartTrades {
      symbol := ParseSymbol(name);
    }
  }

  method ParseSymbol(name: string) returns (symbol: string)
    ensures symbol == if |Split(name)| > 3 then Split(name)[2] else ""
  {
    hide Split, FindDot, DotAfter;
    symbol := "";
    ThirdPart(name);
    var d1 := FindDot(name, 0);
    if d1 < |name| {
      var d2 := FindDot(name, d1 + 1);
      if d2 < |name| {
        var d3 := FindDot(name, d2 + 1);
        if d3 < |name| {
          symbol := name[d2 + 1..d3];
        }
      }
    }
  }

  /** A fourth part means three dots, the third part between the last two of them. */
  lemma ThirdPart(name: string)
    ensures var d1 := FindDot(name, 0);
            if d1 == |name| then |Split(name)| == 1 else
              var d2 := FindDot(name, d1 + 1);
              if d2 == |name| then |Split(name)| == 2 else
                var d3 := FindDot(name, d2 + 1);
                if d3 == |name| then |Split(name)| == 3
                else |Split(name)| > 3 && Split(name)[2] == name[d2 + 1..d3]
  {
    hide Split, FindDot;
    SplitFrom(name, 0);
    var d1 := FindDot(name, 0);
    if d1 < |name| {
      SplitFrom(name, d1 + 1);
      var d2 := FindDot(name, d1 + 1);
      if d2 < |name| {
        SplitFrom(name, d2 + 1);
      }
    }
  }

  lemma SplitStep(rest: string)
    ensures var k := DotAfter(rest);
            Split(rest) == [rest[..k]] + if k == |rest| then [] else Split(rest[k + 1..])
  {
    hide DotAfter;
  }

  lemma SplitFrom(name: string, start: nat)
    requires start <= |name|
    ensures name[0..] == name
    ensures var k := FindDot(name, start);
            Split(name[start..]) == [name[start..k]] + if k == |name| then [] else Split(name[k + 1..])
  {
    hide Split, DotAfter;
    var rest, k := name[start..], FindDot(name, start);
    SplitStep(rest);
    assert rest[..k - start] == name[start..k];
    if k < |name| {
      assert rest[k - start + 1..] == name[k + 1..];
    }
  }

  lemma {:induction false} TokenIsOfParts(name: string)
    ensures GetToken(name) == TokenOf(Split(name))
  {
    hide Split;
    var k := FindDot(name, 0);
    SplitFrom(name, 0);
    assert name[0..k] == name[..k];
    if k < |name| {
      SplitFrom(name, k + 1);
    }
  }

  // Round trips

  predicate DotFree(s: string) {
    forall i: nat :: i < |s| ==> s[i] != '.'
  }

  lemma {:induction false} SplitPart(p: string, rest: string)
    requires DotFree(p)
    ensures Split(p + "." + rest) == [p] + Split(rest)
  {
    DotAfterPart(p, "." + rest);
    assert p + "." + rest == p + ("." + rest);
    assert (p + "." + rest)[..|p|] == p && (p + "." + rest)[|p| + 1..] == rest;
  }

  lemma {:induction false} DotAfterPart(p: string, rest: string)
    requires DotFree(p) && rest != "" && rest[0] == '.'
    ensures DotAfter(p + rest) == |p|
  {
    if p == "" {
      assert p + rest == rest;
    } else {
      assert (p + rest)[1..] == p[1..] + rest;
      DotAfterPart(p[1..], rest);
    }
  }

  /** The kind of every channel is recovered, whatever the symbol, currency or interval. */
  lemma {:induction false} KindIsRecovered(name: string, suffix: string)
    ensures GetToken(QUOTE_PREFIX + name) == "quote" && ChannelOf("quote") == Quote
    ensures GetToken(TICKER_PREFIX + name + suffix) == "ticker" && ChannelOf("ticker") == Ticker
    ensures GetToken(CHART_PREFIX + name + suffix) == "chart_trades" && ChannelOf("chart_trades") == ChartTrades
    ensures GetToken(PORTFOLIO_PREFIX + name) == "portfolio" && ChannelOf("portfolio") == Portfolio
  {
    ChannelsOfTokens();
    hide GetToken, ChannelOf;
    FirstPart("quote", name);
    FirstPart("ticker", name + suffix);
    Assoc(TICKER_PREFIX, name, suffix);
    ChartToken(name + suffix);
    PortfolioToken(name);
    Assoc(CHART_PREFIX, name, suffix);
  }

  lemma ChartToken(rest: string)
    ensures GetToken(CHART_PREFIX + rest) == "chart_trades"
  {
    hide GetToken;
    FirstTwoParts("chart", "trades", rest);
    TwoPrefixes("chart", "trades", rest);
  }

  lemma PortfolioToken(rest: string)
    ensures GetToken(PORTFOLIO_PREFIX + rest) == "portfolio"
  {
    hide GetToken;
    FirstTwoParts("user", "portfolio", rest);
    TwoPrefixes("user", "portfolio", rest);
  }

  lemma TwoPrefixes(a: string, b: string, rest: string)
    ensures a + "." + b + "." + rest == a + "." + (b + "." + rest)
  {
  }

  const CHANGES_CHANNEL := "user" + "." + "changes" + "." + "any.any.raw"
  const ORDERS_CHANNEL := "user" + "." + "orders" + "." + "any.any.raw"
  const TRADES_CHANNEL := "user" + "." + "trades" + "." + "any.any.raw"
  const PLATFORM_CHANNEL := "platform_state"
  const INSTRUMENT_CHANNEL := "instrument" + "." + "state" + "." + "any.any"

  /** And so is that of the channels with a fixed name. */
  lemma {:induction false} FixedKindsAreRecovered()
    ensures ChannelOf(GetToken(CHANGES_CHANNEL)) == Changes
    ensures ChannelOf(GetToken(ORDERS_CHANNEL)) == Orders
    ensures ChannelOf(GetToken(TRADES_CHANNEL)) == Trades
    ensures ChannelOf(GetToken(PLATFORM_CHANNEL)) == PlatformState
    ensures ChannelOf(GetToken(INSTRUMENT_CHANNEL)) == InstrumentState
  {
    hide GetToken, ChannelOf;
    UserToken("changes", "any.any.raw");
    UserToken("orders", "any.any.raw");
    UserToken("trades", "any.any.raw");
    InstrumentToken("any.any");
    PlainToken(PLATFORM_CHANNEL);
    FixedChannels();
  }

  lemma FixedChannels()
    ensures ChannelOf("changes") == Changes && ChannelOf("orders") == Orders && ChannelOf("trades") == Trades
    ensures ChannelOf("platform_state") == PlatformState && ChannelOf("instrument_state") == InstrumentState
  {
  }

  lemma UserToken(second: string, rest: string)
    requires DotFree(second)
    ensures GetToken("user" + "." + second + "." + rest) == second
  {
    hide GetToken;
    FirstTwoParts("user", second, rest);
    TwoPrefixes("user", second, rest);
  }

  lemma InstrumentToken(rest: string)
    ensures GetToken("instrument" + "." + "state" + "." + rest) == "instrument_state"
  {
    NameParts("instrument", "state", rest);
    hide Split, GetToken;
    TwoPrefixes("instrument", "state", rest);
    TokenIsOfParts("instrument" + "." + ("state" + "." + rest));
  }

  lemma PlainToken(name: string)
    requires DotFree(name)
    ensures GetToken(name) == name
  {
    SplitStep(name);
    hide Split, GetToken;
    TokenIsOfParts(name);
    assert name[..|name|] == name;
  }

  lemma ChannelsOfTokens()
    ensures ChannelOf("quote") == Quote
    ensures ChannelOf("ticker") == Ticker
    ensures ChannelOf("chart_trades") == ChartTrades
    ensures ChannelOf("portfolio") == Portfolio
  {
  }

  lemma FirstPart(first: string, rest: string)
    requires DotFree(first) && first != "user" && first != "instrument" && first != "chart"
    ensures GetToken(first + "." + rest) == first
  {
    hide Split, GetToken;
    SplitPart(first, rest);
    TokenIsOfParts(first + "." + rest);
  }

  lemma FirstTwoParts(first: string, second: string, rest: string)
    requires DotFree(first) && DotFree(second)
    requires first == "user" || (first == "chart" && second == "trades")
    ensures var name := first + "." + (second + "." + rest);
            && Split(name) == [first, second] + Split(rest)
            && GetToken(name) == if first == "user" then second else "chart_trades"
  {
    var name := first + "." + (second + "." + rest);
    NameParts(first, second, rest);
    hide Split, GetToken;
    TokenIsOfParts(name);
  }

  lemma NameParts(first: string, second: string, rest: string)
    requires DotFree(first) && DotFree(second)
    ensures Split(first + "." + (second + "." + rest)) == [first, second] + Split(rest)
  {
    hide Split;
    SplitPart(first, second + "." + rest);
    SplitPart(second, rest);
    assert [first] + ([second] + Split(rest)) == [first, second] + Split(rest);
  }

  /** What the parser hands on as the symbol of a name. */
  function SymbolIn(name: string): string {
    var parts := Split(name);
    if ChannelOf(TokenOf(parts)) == ChartTrades && |parts| > 3 then parts[2] else ""
  }

  /** The symbol of a chart channel is recovered exactly if it has no dot. */
  lemma {:induction false} SymbolRecoveredIff(symbol: string)
    ensures SymbolIn(CHART_PREFIX + symbol + CHART_SUFFIX) == symbol <==> DotFree(symbol)
  {
    hide Split, GetToken, ChannelOf, TokenOf;
    var name, tail := CHART_PREFIX + symbol + CHART_SUFFIX, symbol + CHART_SUFFIX;
    Assoc(CHART_PREFIX, symbol, CHART_SUFFIX);
    TwoPrefixes("chart", "trades", tail);
    FirstTwoParts("chart", "trades", tail);
    TokenIsOfParts(name);
    ChannelsOfTokens();
    SymbolPart(symbol);
  }

  lemma SymbolPart(symbol: string)
    ensures var parts := Split(symbol + CHART_SUFFIX);
            |parts| > 1 && (parts[0] == symbol <==> DotFree(symbol))
  {
    var tail := symbol + CHART_SUFFIX;
    if DotFree(symbol) {
      SplitPart(symbol, "1");
      assert tail == symbol + "." + "1";
    } else {
      var i: nat :| i < |symbol| && symbol[i] == '.';
      assert tail[i] == '.';
      assert |Split(tail)[0]| == DotAfter(tail) <= i;
    }
  }
}
