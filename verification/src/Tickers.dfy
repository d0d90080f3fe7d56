/** Splitting of TradingView tickers and the market each one is routed to. Letters, digits and
    white space are the ASCII ones. */
module Tickers {

  datatype Market = KRX | HKEX | SSE | SZSE | TSE | US {
    function Name(): string {
      match this
      case KRX => "KRX" case HKEX => "HKEX" case SSE => "SSE"
      case SZSE => "SZSE" case TSE => "TSE" case US => "US"
    }
  }

  predicate IsAsia(exchange: string) {
    exchange == "HKEX" || exchange == "SSE" || exchange == "SZSE" || exchange == "TSE"
  }

  predicate IsSpace(c: char) {
    c == ' ' || '\t' <= c <= '\r'
  }

  predicate IsDigit(c: char) {
    '0' <= c <= '9'
  }

  predicate AllDigits(s: string) {
    s != "" && forall i :: 0 <= i < |s| ==> IsDigit(s[i])
  }

  function UpperChar(c: char): char {
    if 'a' <= c <= 'z' then 'A' + (c - 'a') else c
  }

  function Upper(s: string): (r: string)
    ensures |r| == |s|
    ensures forall i :: 0 <= i < |s| ==> r[i] == UpperChar(s[i])
  {
    if s == "" then "" else [UpperChar(s[0])] + Upper(s[1..])
  }

  /** str.strip() */
  function Strip(s: string): string {
    if s == "" then ""
    else if IsSpace(s[0]) then Strip(s[1..])
    else if IsSpace(s[|s| - 1]) then Strip(s[..|s| - 1])
    else s
  }

  /** Position of the first colon, or the length when there is none. */
  function Colon(s: string): (k: nat)
    ensures k <= |s| && ':' !in s[..k]
    ensures k < |s| ==> s[k] == ':'
  {
    if s == "" || s[0] == ':' then 0 else 1 + Colon(s[1..])
  }

  /** TICKER_MAP */
  function Alias(symbol: string): string {
    if symbol == "BRK.B" then "BRK B" else if symbol == "BRK.A" then "BRK A"
    else if symbol == "BF.B" then "BF B" else if symbol == "BF.A" then "BF A"
    else symbol
  }

  /** split_tv_ticker: exchange prefix and symbol */
  function Split(ticker: string): (string, string) {
    var t := Upper(Strip(ticker));
    var k := Colon(t);
    if k < |t| then (Strip(t[..k]), Alias(Strip(t[k + 1..]))) else ("", Alias(Strip(t)))
  }

  /** \d{4}[A-Z]\d, or five to seven digits */
  predicate PlainKrxCode(symbol: string) {
    || (AllDigits(symbol) && 5 <= |symbol| <= 7)
    || (|symbol| == 6 && AllDigits(symbol[..4]) && 'A' <= symbol[4] <= 'Z' && IsDigit(symbol[5]))
  }

  /** [A-Z0-9]{5,7} */
  predicate PrefixedKrxCode(symbol: string) {
    && 5 <= |symbol| <= 7
    && forall i :: 0 <= i < |symbol| ==> IsDigit(symbol[i]) || 'A' <= symbol[i] <= 'Z'
  }

  predicate DomesticParts(exchange: string, symbol: string) {
    if exchange == "KRX" then PrefixedKrxCode(symbol)
    else exchange == "" && PlainKrxCode(symbol)
  }

  predicate IsDomestic(ticker: string) {
    var (exchange, symbol) := Split(ticker);
    DomesticParts(exchange, symbol)
  }

  function MarketOfParts(exchange: string, symbol: string): Market {
    if DomesticParts(exchange, symbol) then KRX
    else if exchange == "HKEX" then HKEX
    else if exchange == "SSE" then SSE
    else if exchange == "SZSE" then SZSE
    else if exchange == "TSE" then TSE
    else US
  }

  /** _market_key_for_ticker */
  function MarketOf(ticker: string): Market {
    var (exchange, symbol) := Split(ticker);
    MarketOfParts(exchange, symbol)
  }

  /** _pending_order_matches_market; None and the empty string both mean every market. */
  predicate WakesFor(ticker: string, market: string) {
    var m := Upper(Strip(market));
    var exchange := Split(ticker).0;
    if market == "" then true
    else if m == "KRX" then IsDomestic(ticker)
    else if IsAsia(m) then exchange == m
    else if m == "US" || m == "USA" then !IsDomestic(ticker) && !IsAsia(exchange)
    else true
  }

  function Zeros(n: nat): string {
    seq(n, _ => '0')
  }

  /** Hong Kong codes are padded to five digits. */
  function PaddedCode(exchange: string, symbol: string): string {
    if exchange == "HKEX" && AllDigits(symbol) && |symbol| < 5 then Zeros(5 - |symbol|) + symbol else symbol
  }

  predicate KeepsPrefix(exchange: string) {
    IsAsia(exchange) || exchange == "LSE"
  }

  function CanonicalOfParts(exchange: string, symbol: string): string {
    if symbol == "" then ""
    else if KeepsPrefix(exchange) then exchange + ":" + PaddedCode(exchange, symbol)
    else symbol
  }

  /** canonical_trade_symbol: what the webhook stores in the order. */
  function Canonical(ticker: string): string {
    var (exchange, symbol) := Split(ticker);
    CanonicalOfParts(exchange, symbol)
  }

  /** The inner prefix and code of a symbol that has a colon of its own. */
  predicate InnerIsRouted(symbol: string) {
    var k := Colon(symbol);
    k < |symbol| && var inner, code := Strip(symbol[..k]), Alias(Strip(symbol[k + 1..]));
      IsAsia(inner) || (inner == "KRX" && PrefixedKrxCode(code)) || (inner == "" && PlainKrxCode(code))
  }

  /** The symbol alone reads as a Korean code exactly when the prefixed one did, and hides no
      second prefix that is routed. */
  predicate RoutedByCodeAlone(exchange: string, symbol: string) {
    if symbol == "" then !IsAsia(exchange)
    else if KeepsPrefix(exchange) then true
    else if ':' in symbol then !InnerIsRouted(symbol)
    else if exchange == "KRX" then PrefixedKrxCode(symbol) ==> PlainKrxCode(symbol)
    else exchange != "" ==> !PlainKrxCode(symbol)
  }

  /** Stripped and upper case. */
  predicate Tidy(s: string) {
    && (s != "" ==> !IsSpace(s[0]) && !IsSpace(s[|s| - 1]))
    && (forall i :: 0 <= i < |s| ==> !('a' <= s[i] <= 'z'))
  }

  lemma {:induction false} StripTrims(s: string)
    ensures var r := Strip(s);
      && (r != "" ==> !IsSpace(r[0]) && !IsSpace(r[|r| - 1]))
      && (forall c :: c in r ==> c in s)
  {
    if s == "" {
    } else if IsSpace(s[0]) {
      StripTrims(s[1..]);
    } else if IsSpace(s[|s| - 1]) {
      StripTrims(s[..|s| - 1]);
    }
  }

  lemma StripIsTidy(s: string)
    requires forall i :: 0 <= i < |s| ==> !('a' <= s[i] <= 'z')
    ensures Tidy(Strip(s))
  {
  }

  lemma AliasIsTidy(s: string)
    requires Tidy(s)
    ensures Tidy(Alias(s))
  {
  }

  lemma AliasTwice(s: string)
    ensures Alias(Alias(s)) == Alias(s)
  {
  }

  lemma SplitIsTidy(ticker: string)
    ensures Tidy(Split(ticker).1) && Alias(Split(ticker).1) == Split(ticker).1
  {
    var t := Upper(Strip(ticker));
    var k := Colon(t);
    var tail := if k < |t| then t[k + 1..] else t;
    StripIsTidy(tail);
    AliasIsTidy(Strip(tail));
    AliasTwice(Strip(tail));
  }

  lemma {:induction false} ColonAfter(prefix: string, rest: string)
    requires ':' !in prefix
    ensures Colon(prefix + ":" + rest) == |prefix|
  {
    var s := prefix + ":" + rest;
    if prefix == "" {
      assert s[0] == ':';
    } else {
      assert s[1..] == prefix[1..] + ":" + rest;
      ColonAfter(prefix[1..], rest);
      assert s[0] == prefix[0] && prefix[0] in prefix;
    }
  }

  lemma {:induction false} NoColon(s: string)
    requires ':' !in s
    ensures Colon(s) == |s|
  {
  }

  lemma TidyIsFixed(t: string)
    requires Tidy(t)
    ensures Strip(t) == t && Upper(t) == t
  {
  }

  lemma MarketNameIsFixed(m: Market)
    ensures Strip(m.Name()) == m.Name() && Upper(m.Name()) == m.Name()
  {
    TidyIsFixed(m.Name());
  }

  /** Every ticker wakes for exactly one of the six markets, the one it is routed to. */
  lemma WakesForItsOwnMarketOnly(ticker: string, m: Market)
    ensures WakesFor(ticker, m.Name()) <==> MarketOf(ticker) == m
  {
    MarketNameIsFixed(m);
  }

  /** The worker's own check of one ticker against the exchanges' sessions. */
  predicate OpenForTicker(ticker: string, open: set<Market>) {
    MarketOf(ticker) in open
  }

  /** The idle worker flushes each open market; what it moves passes the worker's market check
      made against the same sessions, and an order whose market is closed is never moved. */
  lemma FlushedExactlyWhenWorkerWouldTrade(ticker: string, open: set<Market>)
    ensures (exists m :: m in open && WakesFor(ticker, m.Name())) <==> OpenForTicker(ticker, open)
  {
    forall m: Market ensures WakesFor(ticker, m.Name()) <==> MarketOf(ticker) == m {
      WakesForItsOwnMarketOnly(ticker, m);
    }
  }

  lemma SplitBare(symbol: string)
    requires Tidy(symbol) && Alias(symbol) == symbol && ':' !in symbol
    ensures Split(symbol) == ("", symbol)
  {
    TidyIsFixed(symbol);
    NoColon(symbol);
  }

  lemma SplitPrefixed(exchange: string, code: string)
    requires Tidy(exchange) && ':' !in exchange && exchange != ""
    requires Tidy(code) && code != "" && Alias(code) == code
    ensures Split(exchange + ":" + code) == (exchange, code)
  {
    var t := exchange + ":" + code;
    ColonAfter(exchange, code);
    assert t[0] == exchange[0] && t[|t| - 1] == code[|code| - 1];
    assert Tidy(t);
    TidyIsFixed(t);
    TidyIsFixed(exchange);
    TidyIsFixed(code);
    assert t[..|exchange|] == exchange && t[|exchange| + 1..] == code;
  }

  lemma KeptPrefixIsTidy(exchange: string)
    requires KeepsPrefix(exchange)
    ensures Tidy(exchange) && ':' !in exchange && exchange != ""
  {
  }

  lemma PaddedIsTidy(exchange: string, symbol: string)
    requires Tidy(symbol) && Alias(symbol) == symbol && symbol != ""
    ensures var code := PaddedCode(exchange, symbol);
      Tidy(code) && Alias(code) == code && code != ""
  {
  }

  lemma ColonMeansUS(exchange: string, symbol: string)
    requires ':' in symbol && !KeepsPrefix(exchange)
    ensures MarketOfParts(exchange, symbol) == US
  {
  }

  /** Stored without its outer prefix, such a symbol is split again at its own colon. */
  lemma InnerMarket(symbol: string)
    requires Tidy(symbol) && ':' in symbol
    ensures MarketOf(symbol) == US <==> !InnerIsRouted(symbol)
  {
    TidyIsFixed(symbol);
  }

  lemma PlainIsPrefixed(symbol: string)
    requires PlainKrxCode(symbol)
    ensures PrefixedKrxCode(symbol)
  {
  }

  lemma CanonicalPartsKeepMarket(exchange: string, symbol: string)
    requires Tidy(symbol) && Alias(symbol) == symbol
    ensures MarketOf(CanonicalOfParts(exchange, symbol)) == MarketOfParts(exchange, symbol)
        <==> RoutedByCodeAlone(exchange, symbol)
  {
    if symbol == "" {
      SplitBare("");
    } else if KeepsPrefix(exchange) {
      KeptPrefixIsTidy(exchange);
      PaddedIsTidy(exchange, symbol);
      SplitPrefixed(exchange, PaddedCode(exchange, symbol));
    } else if ':' in symbol {
      ColonMeansUS(exchange, symbol);
      InnerMarket(symbol);
    } else {
      SplitBare(symbol);
      if PlainKrxCode(symbol) {
        PlainIsPrefixed(symbol);
      }
    }
  }

  /** Storing the canonical symbol keeps an alert on its market exactly when its code alone
      says where it trades. */
  lemma CanonicalKeepsMarket(ticker: string)
    ensures MarketOf(Canonical(ticker)) == MarketOf(ticker)
        <==> RoutedByCodeAlone(Split(ticker).0, Split(ticker).1)
  {
    SplitIsTidy(ticker);
    var (exchange, symbol) := Split(ticker);
    CanonicalPartsKeepMarket(exchange, symbol);
  }

  lemma LetteredParts(code: string)
    requires |code| == 5 && forall i :: 0 <= i < 5 ==> 'A' <= code[i] <= 'Z'
    ensures MarketOfParts("KRX", code) == KRX && MarketOfParts("", code) == US
    ensures CanonicalOfParts("KRX", code) == code && Tidy(code) && Alias(code) == code && ':' !in code
  {
    assert 'A' <= code[0] <= 'Z' && 'A' <= code[3] <= 'Z';
    assert "BRK.B"[3] == '.' && "BRK.A"[3] == '.';
  }

  /** A five-letter product code sent as KRX:CODE is stored as a bare word and routed to the
      US session. */
  lemma LetteredKrxCodeMovesToUS(ticker: string, code: string)
    requires |code| == 5 && forall i :: 0 <= i < 5 ==> 'A' <= code[i] <= 'Z'
    requires ticker == "KRX" + ":" + code
    ensures MarketOf(ticker) == KRX && MarketOf(Canonical(ticker)) == US
  {
    LetteredParts(code);
    assert Split(ticker) == ("KRX", code) by {
      SplitPrefixed("KRX", code);
    }
    SplitBare(code);
  }
}
