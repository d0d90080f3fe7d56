/** Limit prices: the two rounding steps between a computed price and the text sent to KIS.
    A price is an exact decimal, counted in ticks of its currency: cents, yen, won, or 10^-8. */
module Prices {
  import opened Orders

  datatype Currency = USD | JPY | OtherOverseas

  /** Ticks in one unit of the currency. */
  function Units(c: Currency): real {
    match c case USD => 100.0 case JPY => 1.0 case OtherOverseas => 100_000_000.0
  }

  function MaxReal(a: real, b: real): real {
    if a < b then b else a
  }

  /** Decimal.quantize with ROUND_HALF_UP on nonnegative values. */
  function HalfUp(x: real): int {
    (x + 0.5).Floor
  }

  /** _quantize_us_order_price: at least one cent. */
  function CentPrice(x: real): int {
    HalfUp(MaxReal(x, 1.0))
  }

  function Wanted(market: real, protect: Option<real>): real {
    if protect.Some? && protect.value > 0.0 then MaxReal(market, protect.value) else market
  }

  /** _buffered_sell_limit_price; `market` is the quote less the configured markdown. */
  function BufferedSellLimit(market: real, protect: Option<real>, c: Currency): int {
    var wanted := Wanted(market, protect);
    if c == USD then CentPrice(wanted) else HalfUp(wanted)
  }

  /** kis_buy_limit_markup_pct, kept between 0 and 20. */
  function Markup(percent: real): real {
    if percent < 0.0 then 0.0 else if percent > 20.0 then 20.0 else percent
  }

  /** _buffered_buy_limit_price */
  function BufferedBuyLimit(quote: real, percent: real, c: Currency): int {
    var marked := quote * (1.0 + Markup(percent) / 100.0);
    if c == USD then CentPrice(marked) else HalfUp(marked)
  }

  /** place_market_order refuses a limit below 0.01 of the currency. */
  predicate TooLow(limit: int, c: Currency) {
    limit as real < Units(c) / 100.0
  }

  /** The shares that place_buy_by_amount asks for: what the amount pays for, at least one. */
  function SharesFor(amount: real, limit: int, c: Currency): (shares: nat)
    ensures shares >= 1
  {
    var n := (amount / MaxReal(limit as real, Units(c) / 100_000_000.0)).Floor;
    if n < 1 then 1 else n
  }

  /** _format_overseas_order_price */
  function OverseasText(x: real, c: Currency): int {
    if c == USD then CentPrice(x)
    else HalfUp(if x <= 0.0 then Units(c) / 100_000_000.0 else x)
  }

  /** The price that place_sell_qty submits; None when place_market_order refuses it for being
      below 0.01 of the currency. */
  function SubmittedSell(market: real, protect: Option<real>, c: Currency): Option<int> {
    var limit := BufferedSellLimit(market, protect, c);
    if TooLow(limit, c) then None else Some(OverseasText(limit as real, c))
  }

  /** A domestic limit order in won, by _format_krw_order_price; None when it is refused. */
  function SubmittedDomestic(limit: real): Option<int> {
    var won := HalfUp(MaxReal(limit, 0.0));
    if won <= 0 then None else Some(won)
  }

  predicate OnGrid(x: real) {
    x.Floor as real == x
  }

  /** Rounding half up does not lower the price: it is on the grid, or half a tick or more above. */
  predicate RoundsUp(x: real) {
    OnGrid(x) || x - x.Floor as real >= 0.5
  }

  lemma HalfUpNear(x: real)
    ensures HalfUp(x) as real - 0.5 <= x < HalfUp(x) as real + 0.5
  {
  }

  /** An integer between two reals less than a unit apart is the only one. */
  lemma OnlyInteger(j: int, k: int, x: real)
    requires j as real <= x < j as real + 1.0 && k as real <= x < k as real + 1.0
    ensures j == k
  {
  }

  lemma HalfUpOfInteger(k: int)
    ensures HalfUp(k as real) == k
  {
  }

  lemma HalfUpMonotone(x: real, y: real)
    ensures x <= y ==> HalfUp(x) <= HalfUp(y)
  {
  }

  lemma RoundsUpExactly(x: real)
    ensures HalfUp(x) as real >= x <==> RoundsUp(x)
  {
    var f := x.Floor;
    if x - f as real < 0.5 {
      OnlyInteger(HalfUp(x), f, x + 0.5);
    } else {
      OnlyInteger(HalfUp(x), f + 1, x + 0.5);
    }
  }

  /** The second rounding, just before the POST, never moves the price. */
  lemma SecondRoundingMovesNothing(market: real, protect: Option<real>, c: Currency)
    ensures var s := SubmittedSell(market, protect, c);
      s.Some? ==> s.value == BufferedSellLimit(market, protect, c)
  {
  }

  lemma ReachesExactly(x: real, k: int)
    ensures HalfUp(x) >= k <==> x >= k as real - 0.5
  {
  }

  lemma Scale(d: real, x: real, y: real)
    requires d >= 0.0 && x <= y
    ensures d * x <= d * y
    ensures d > 0.0 && x < y ==> d * x < d * y
  {
  }

  function Marked(quote: real, percent: real): real {
    quote + quote * Markup(percent) / 100.0
  }

  lemma MarkedInRange(quote: real, percent: real)
    requires quote >= 0.0
    ensures quote * (1.0 + Markup(percent) / 100.0) == Marked(quote, percent)
    ensures quote <= Marked(quote, percent) <= 1.2 * quote
  {
    var m := Markup(percent);
    Scale(quote, 0.0, m);
    Scale(quote, m, 20.0);
    assert quote * (1.0 + m / 100.0) == quote + quote * m / 100.0;
  }

  /** A buy limit is the tick nearest to the quote with its markup, which is at most a fifth; in
      dollars at least one cent. */
  lemma BuyLimitExactly(quote: real, percent: real, c: Currency, k: int)
    requires quote >= 0.0
    ensures var limit := BufferedBuyLimit(quote, percent, c);
      && (limit >= k <==> Marked(quote, percent) >= k as real - 0.5 || (c == USD && k <= 1))
      && quote - 0.5 <= limit as real && (c != USD || quote >= 1.0 ==> limit as real <= 1.2 * quote + 0.5)
    ensures 0.0 <= percent <= 20.0 ==> Marked(quote, percent) == quote + quote * percent / 100.0
  {
    MarkedInRange(quote, percent);
    hide Marked, Markup;
    var marked := Marked(quote, percent);
    ReachesExactly(marked, k);
    ReachesExactly(MaxReal(marked, 1.0), k);
    HalfUpNear(marked);
    HalfUpNear(MaxReal(marked, 1.0));
  }

  /** The shares are the most that the amount pays for, and one when it does not pay for any. */
  lemma SharesAreAffordable(amount: real, limit: int, c: Currency)
    requires limit >= 1
    ensures var n := SharesFor(amount, limit, c);
      n >= 1 && (n > 1 ==> n as real * limit as real <= amount) && amount < (n + 1) as real * limit as real
  {
    var d, n := limit as real, SharesFor(amount, limit, c);
    assert MaxReal(d, Units(c) / 100_000_000.0) == d;
    var x := amount / d;
    assert d * x == amount;
    assert x < x.Floor as real + 1.0 <= (n + 1) as real;
    Scale(d, x, (n + 1) as real);
    assert (n + 1) as real * limit as real == d * (n + 1) as real;
    assert d * x < d * (n + 1) as real;
    assert amount < d * (n + 1) as real;
    assert amount < (n + 1) as real * limit as real;
    if n > 1 {
      Scale(d, n as real, x);
      assert n as real * limit as real == d * n as real;
    }
  }

  /** The higher of market limit and protected price decides, in ticks. */
  lemma MaxRounds(a: real, b: real)
    ensures HalfUp(MaxReal(a, b)) == if HalfUp(a) < HalfUp(b) then HalfUp(b) else HalfUp(a)
  {
  }

  /** With profit protection on, a submitted limit is never more than half a tick below the
      protected price, and not below it at all when that is on the tick grid. */
  lemma ProtectedWithinHalfTick(market: real, protect: real, c: Currency)
    requires protect > 0.0
    ensures var s := SubmittedSell(market, Some(protect), c);
      s.Some? ==> s.value as real >= protect - 0.5 && (OnGrid(protect) ==> s.value as real >= protect)
  {
    SecondRoundingMovesNothing(market, Some(protect), c);
    var wanted := Wanted(market, Some(protect));
    HalfUpMonotone(protect, if c == USD then MaxReal(wanted, 1.0) else wanted);
    HalfUpNear(protect);
    RoundsUpExactly(protect);
  }

  /** The limit protects the full price exactly when that price rounds up, when the market limit
      rounds to a higher tick than it does, or when the one-cent floor is as high. */
  lemma ProtectionHoldsExactly(market: real, protect: real, c: Currency)
    requires protect > 0.0
    ensures var s := SubmittedSell(market, Some(protect), c);
      s.Some? ==> (s.value as real >= protect <==>
                   RoundsUp(protect) || HalfUp(market) > HalfUp(protect) || (c == USD && protect <= 1.0))
  {
    SecondRoundingMovesNothing(market, Some(protect), c);
    MaxRounds(market, protect);
    MaxRounds(MaxReal(market, protect), 1.0);
    HalfUpOfInteger(1);
    HalfUpNear(market);
    RoundsUpExactly(protect);
    HalfUpNear(protect);
    var m, k := HalfUp(market), HalfUp(protect);
    assert m > k ==> m as real >= k as real + 1.0;
  }

  /** Domestic protection is within half a won, and holds exactly when the price rounds up. */
  lemma DomesticProtection(protect: real)
    requires protect > 0.0
    ensures var s := SubmittedDomestic(protect);
      s.Some? ==> s.value as real >= protect - 0.5 && (s.value as real >= protect <==> RoundsUp(protect))
  {
    HalfUpNear(protect);
    RoundsUpExactly(protect);
  }

  // ----- the submitted prices, tick by tick

  /** A price of k ticks or more comes out: one of the two prices rounds up to it, or it is the cent
      that a dollar price is raised to. */
  predicate Reaches(market: real, protect: Option<real>, c: Currency, k: int) {
    || market >= k as real - 0.5
    || (protect.Some? && protect.value > 0.0 && protect.value >= k as real - 0.5)
    || (c == USD && k <= 1)
  }

  lemma LimitReaches(market: real, protect: Option<real>, c: Currency, k: int)
    ensures BufferedSellLimit(market, protect, c) >= k <==> Reaches(market, protect, c, k)
  {
    var wanted := Wanted(market, protect);
    ReachesExactly(wanted, k);
    ReachesExactly(MaxReal(wanted, 1.0), k);
  }

  /** The sell limit is the higher of market price and protected price to the nearest tick, in dollars
      at least a cent; only a price below 0.01 of the currency is refused: never in dollars, below half
      a yen in yen. */
  lemma SubmittedSellExactly(market: real, protect: Option<real>, c: Currency, k: int)
    ensures var s := SubmittedSell(market, protect, c);
      && (s.Some? ==> (s.value >= k <==> Reaches(market, protect, c, k)))
      && (s.None? <==> match c
            case USD => false
            case JPY => !Reaches(market, protect, JPY, 1)
            case OtherOverseas => !Reaches(market, protect, OtherOverseas, 1_000_000))
  {
    SecondRoundingMovesNothing(market, protect, c);
    LimitReaches(market, protect, c, k);
    LimitReaches(market, protect, c, 1);
    LimitReaches(market, protect, c, 1_000_000);
    hide Wanted, HalfUp, OverseasText, Reaches, MaxReal, CentPrice, BufferedSellLimit;
    var limit := BufferedSellLimit(market, protect, c);
    assert c == JPY ==> (TooLow(limit, c) <==> limit < 1);
    assert c == OtherOverseas ==> (TooLow(limit, c) <==> limit < 1_000_000);
    assert c == USD ==> (TooLow(limit, c) <==> limit < 1);
    RaisedToACent(market, protect);
  }

  lemma RaisedToACent(market: real, protect: Option<real>)
    ensures Reaches(market, protect, USD, 1)
  {
  }

  /** The text of an overseas price is the price to the nearest tick; a dollar price is at least a
      cent, and a price that is not positive becomes the smallest that eight decimals can show. */
  lemma OverseasTextExactly(x: real, c: Currency, k: int)
    ensures OverseasText(x, c) >= k <==>
      || x >= k as real - 0.5
      || match c
         case USD => k <= 1
         case JPY => x <= 0.0 && k <= 0
         case OtherOverseas => x <= 0.0 && k <= 1
  {
    ReachesExactly(MaxReal(x, 1.0), k);
    ReachesExactly(if x <= 0.0 then Units(c) / 100_000_000.0 else x, k);
  }

  /** A domestic limit is the won nearest to the price, and refused when that is none. */
  lemma SubmittedDomesticExactly(limit: real, k: int)
    ensures var s := SubmittedDomestic(limit);
      (s.None? <==> limit < 0.5) && (s.Some? ==> (s.value >= k <==> limit >= k as real - 0.5))
  {
    ReachesExactly(MaxReal(limit, 0.0), k);
    ReachesExactly(MaxReal(limit, 0.0), 1);
  }
}
