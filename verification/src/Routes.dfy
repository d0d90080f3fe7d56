/** Where a written ticker goes: reading undoes writing, whatever the case and the spaces, and the
    market follows from the exchange and the code, character by character. */
module Routes {
  import opened Tickers

  // ----- characters

  predicate Spaces(s: string) {
    forall i :: 0 <= i < |s| ==> s[i] == ' ' || 9 <= s[i] as int <= 13
  }

  predicate Numeric(s: string) {
    forall i :: 0 <= i < |s| ==> 48 <= s[i] as int <= 57
  }

  predicate Capital(c: char) {
    65 <= c as int <= 90
  }

  predicate Alphanumeric(s: string) {
    forall i :: 0 <= i < |s| ==> 48 <= s[i] as int <= 57 || Capital(s[i])
  }

  lemma UpperCharExactly(c: char)
    ensures UpperChar(c) as int == if 97 <= c as int <= 122 then c as int - 32 else c as int
  {
  }

  /** Lower-case letters are shifted by 32 and nothing else changes. */
  lemma UpperExactly(s: string, i: nat)
    requires i < |s|
    ensures Upper(s)[i] as int == if 97 <= s[i] as int <= 122 then s[i] as int - 32 else s[i] as int
  {
    hide UpperChar;
    UpperCharExactly(s[i]);
  }

  lemma {:induction false} UpperPlus(a: string, b: string)
    ensures Upper(a + b) == Upper(a) + Upper(b)
  {
    assert forall i :: 0 <= i < |a| + |b| ==> Upper(a + b)[i] == (Upper(a) + Upper(b))[i];
  }

  /** The share classes that are written with a space at the broker. */
  lemma AliasExactly(symbol: string)
    ensures var classes := {"BRK.A", "BRK.B", "BF.A", "BF.B"};
      && |Alias(symbol)| == |symbol|
      && forall i :: 0 <= i < |symbol| ==>
           Alias(symbol)[i] == if symbol in classes && symbol[i] == '.' then ' ' else symbol[i]
  {
  }

  // ----- reading a written ticker

  /** Neither empty nor with white space at an end. */
  predicate Trimmed(s: string) {
    s != "" && !IsSpace(s[0]) && !IsSpace(s[|s| - 1])
  }

  lemma {:induction false} StripBefore(before: string, t: string)
    requires Spaces(before)
    ensures Strip(before + t) == Strip(t)
  {
    if before == "" {
      assert before + t == t;
    } else {
      assert (before + t)[1..] == before[1..] + t && IsSpace(before[0]);
      StripBefore(before[1..], t);
    }
  }

  lemma {:induction false} StripAfter(t: string, after: string)
    requires Spaces(after) && Trimmed(t)
    ensures Strip(t + after) == t
    decreases |after|
  {
    if after == "" {
      assert t + after == t;
    } else {
      var n := |after| - 1;
      assert (t + after)[..|t + after| - 1] == t + after[..n] && IsSpace(after[n]);
      assert (t + after)[0] == t[0] && (t + after)[|t + after| - 1] == after[n];
      StripAfter(t, after[..n]);
    }
  }

  lemma StripsToItself(t: string)
    requires Trimmed(t)
    ensures Strip(t) == t
  {
  }

  lemma StripPadded(before: string, t: string, after: string)
    requires Spaces(before) && Spaces(after) && Trimmed(t)
    ensures Strip(before + t + after) == t
  {
    assert before + t + after == before + (t + after);
    StripBefore(before, t + after);
    StripAfter(t, after);
  }

  lemma SpacesStay(s: string)
    requires Spaces(s)
    ensures Upper(s) == s
  {
  }

  lemma UpperTrimmed(s: string)
    requires Trimmed(s)
    ensures Trimmed(Upper(s))
  {
  }

  lemma UpperColon()
    ensures Upper(":") == ":"
  {
  }

  lemma UpperOfCore(head: string, tail: string)
    ensures Upper(head + ":" + tail) == Upper(head) + ":" + Upper(tail)
  {
    UpperPlus(head + ":", tail);
    UpperPlus(head, ":");
    UpperColon();
  }

  lemma UpperBeforeSpaces(s: string, spaces: string)
    requires Spaces(spaces)
    ensures Upper(s + spaces) == Upper(s) + spaces && Upper(spaces + s) == spaces + Upper(s)
  {
    UpperPlus(s, spaces);
    UpperPlus(spaces, s);
    SpacesStay(spaces);
  }

  lemma UpperHasColon(s: string)
    ensures ':' in Upper(s) <==> ':' in s
  {
    forall i | 0 <= i < |s| ensures Upper(s)[i] == ':' <==> s[i] == ':' {
      assert Upper(s)[i] == UpperChar(s[i]);
    }
    if ':' in s {
      var i :| 0 <= i < |s| && s[i] == ':';
      assert Upper(s)[i] == ':';
    }
  }

  lemma SpacesHoldNoColon(s: string)
    requires Spaces(s)
    ensures ':' !in s
  {
  }

  lemma CutAtColon(head: string, tail: string)
    requires ':' !in head
    ensures var t := head + ":" + tail;
      Colon(t) == |head| < |t| && t[..|head|] == head && t[|head| + 1..] == tail
  {
    ColonAfter(head, tail);
  }

  /** The exchange and the code of a ticker are read back in capitals, whatever white space stands
      around them, and the code under its name at the broker. */
  lemma SplitUndoesWriting(s1: string, exchange: string, s2: string, s3: string, code: string, s4: string)
    requires Spaces(s1) && Spaces(s2) && Spaces(s3) && Spaces(s4)
    requires Trimmed(exchange) && Trimmed(code) && ':' !in exchange
    ensures Split(s1 + ((exchange + s2) + ":" + (s3 + code)) + s4) == (Upper(exchange), Alias(Upper(code)))
  {
    hide Upper, Strip, Colon, Alias, Spaces, Trimmed;
    var core := (exchange + s2) + ":" + (s3 + code);
    SpacesHoldNoColon(s2);
    CoreIsTrimmed(exchange, s2, s3, code);
    StripPadded(s1, core, s4);
    UpperOfCore(exchange + s2, s3 + code);
    UpperBeforeSpaces(exchange, s2);
    UpperBeforeSpaces(code, s3);
    var head, tail := Upper(exchange) + s2, s3 + Upper(code);
    UpperHasColon(exchange + s2);
    CutAtColon(head, tail);
    UpperTrimmed(exchange);
    UpperTrimmed(code);
    StripAfter(Upper(exchange), s2);
    StripBefore(s3, Upper(code));
    StripsToItself(Upper(code));
  }

  lemma CoreIsTrimmed(exchange: string, s2: string, s3: string, code: string)
    requires Trimmed(exchange) && Trimmed(code)
    ensures Trimmed((exchange + s2) + ":" + (s3 + code))
  {
    var core := (exchange + s2) + ":" + (s3 + code);
    assert core[0] == exchange[0] && core[|core| - 1] == code[|code| - 1];
  }

  // ----- the market

  /** A code that is Korean by itself: five to seven digits, or four digits, a letter and a digit. */
  predicate KoreanCode(code: string) {
    || (5 <= |code| <= 7 && Numeric(code))
    || (|code| == 6 && Numeric(code[..4]) && Capital(code[4]) && Numeric(code[5..]))
  }

  lemma KoreanExactly(code: string)
    ensures PlainKrxCode(code) <==> KoreanCode(code)
    ensures PrefixedKrxCode(code) <==> 5 <= |code| <= 7 && Alphanumeric(code)
  {
    if |code| == 6 {
      assert code[5..] == [code[5]];
    }
  }

  /** With an exchange in front, a ticker trades in Korea exactly as KRX with a code of five to seven
      capitals and digits, in Asia under its own exchange, and else in the US session. */
  lemma PrefixedMarketExactly(exchange: string, code: string)
    requires Tidy(exchange) && ':' !in exchange && exchange != ""
    requires Tidy(code) && code != "" && Alias(code) == code
    ensures MarketOf(exchange + ":" + code) ==
      if exchange == "KRX" && 5 <= |code| <= 7 && Alphanumeric(code) then KRX
      else if exchange == "HKEX" then HKEX
      else if exchange == "SSE" then SSE
      else if exchange == "SZSE" then SZSE
      else if exchange == "TSE" then TSE
      else US
  {
    SplitPrefixed(exchange, code);
    KoreanExactly(code);
  }

  /** Without one, exactly the Korean codes trade in Korea. */
  lemma BareMarketExactly(code: string)
    requires Tidy(code) && Alias(code) == code && ':' !in code
    ensures MarketOf(code) == if KoreanCode(code) then KRX else US
  {
    SplitBare(code);
    KoreanExactly(code);
  }

  lemma NothingIsNoName()
    ensures Upper(Strip("")) == ""
  {
  }

  /** The name of a market to wake counts in any case and with white space around it, USA is the US,
      and any other text, or none, wakes every ticker. */
  lemma WakingNamesExactly(ticker: string, market: string, m: Market)
    ensures market != "" && Upper(Strip(market)) == m.Name() ==> (WakesFor(ticker, market) <==> MarketOf(ticker) == m)
    ensures Upper(Strip(market)) == "USA" ==> (WakesFor(ticker, market) <==> MarketOf(ticker) == US)
    ensures market == "" || Upper(Strip(market)) !in {"KRX", "HKEX", "SSE", "SZSE", "TSE", "US", "USA"} ==>
      WakesFor(ticker, market)
  {
    hide Split, Upper, Strip, IsDomestic, MarketOf;
    WakesForItsOwnMarketOnly(ticker, m);
    WakesForItsOwnMarketOnly(ticker, US);
    MarketNameIsFixed(m);
    MarketNameIsFixed(US);
    NothingIsNoName();
  }

  // ----- the stored symbol

  lemma ZerosInFront(code: string)
    requires |code| < 5
    ensures var stored := "HKEX" + ":" + (Zeros(5 - |code|) + code);
      && |stored| == 10 && stored[..5] == "HKEX:" && stored[10 - |code|..] == code
      && forall i :: 5 <= i < 10 - |code| ==> stored[i] == '0'
  {
  }

  /** A ticker without a code is stored as nothing. */
  lemma NothingIsStored(ticker: string)
    ensures Split(ticker).1 == "" ==> Canonical(ticker) == ""
  {
  }

  /** What is stored: Asian and London symbols with their exchange, a Hong Kong number with zeros in
      front up to five digits, and every other code bare. */
  lemma StoredExactly(exchange: string, code: string)
    requires Tidy(exchange) && ':' !in exchange && exchange != ""
    requires Tidy(code) && code != "" && Alias(code) == code
    ensures var stored := Canonical(exchange + ":" + code);
      if exchange in {"HKEX", "SSE", "SZSE", "TSE", "LSE"} then
        if exchange == "HKEX" && Numeric(code) && |code| < 5 then
          && |stored| == 10 && stored[..5] == "HKEX:" && stored[10 - |code|..] == code
          && forall i :: 5 <= i < 10 - |code| ==> stored[i] == '0'
        else stored == exchange + ":" + code
      else stored == code
  {
    hide Split, Upper, Strip, Alias, Tidy, Zeros;
    SplitPrefixed(exchange, code);
    assert AllDigits(code) <==> Numeric(code);
    if exchange == "HKEX" && Numeric(code) && |code| < 5 {
      ZerosInFront(code);
    }
  }
}
