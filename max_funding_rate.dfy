/** The max-funding-rate strategy (strategy/max_funding_rate.py): per row, take
    the funding gain of the better venue, never paying on a venue where the
    position would be long; sum the gains per token and value each sum at the
    last timestamp's close. */
module MaxFundingRate {
  import opened Common
  import opened ComputeData

  /** A row of the spot price table: close price of a token at a time. */
  datatype SpotPrice = SpotPrice(closeTime: int, token: Token, close: real)

  /** The per-token outcome: tokens earned and their USD value. */
  datatype Holding = Holding(quantity: real, amountUsd: real)

  /** One venue's gain column: nothing when that venue's position would be
      long perpetual, otherwise quantity times that venue's rate. */
  function VenueGain(quantity: real, rate: real, isBuyLongPerp: bool): (g: real)
    ensures isBuyLongPerp ==> g == 0.0
    ensures quantity >= 0.0 && (isBuyLongPerp || rate >= 0.0) ==> g >= 0.0
  {
    if isBuyLongPerp then 0.0 else quantity * rate
  }

  /** The row's result: the first venue's gain when it is strictly best,
      otherwise the second venue's (so equal rates select the second). */
  function SelectedGain(r: FundingRow): real {
    if r.isFundingBinanceBest then VenueGain(r.quantity, r.rateBinance, r.isBuyLongPerpBinance)
    else VenueGain(r.quantity, r.rateBybite, r.isBuyLongPerpBybite)
  }

  /** Sum of the selected gains of `token`'s rows. */
  function TokenQuantity(rows: seq<FundingRow>, token: Token): real {
    if rows == [] then 0.0
    else
      var last := rows[|rows| - 1];
      TokenQuantity(rows[..|rows| - 1], token) + (if last.token == token then SelectedGain(last) else 0.0)
  }

  function Timestamps(rows: seq<FundingRow>): (ts: seq<int>)
    ensures |ts| == |rows| && forall k :: 0 <= k < |rows| ==> ts[k] == rows[k].timestamp
  {
    seq(|rows|, k requires 0 <= k < |rows| => rows[k].timestamp)
  }

  function Tokens(rows: seq<FundingRow>): (ts: seq<Token>)
    ensures |ts| == |rows| && forall k :: 0 <= k < |rows| ==> ts[k] == rows[k].token
  {
    seq(|rows|, k requires 0 <= k < |rows| => rows[k].token)
  }

  /** The close of the first spot row at (time, token), if any. */
  function LookupClose(prices: seq<SpotPrice>, time: int, token: Token): (c: Option<real>)
    ensures c.Some? <==> exists k :: 0 <= k < |prices| && prices[k].closeTime == time && prices[k].token == token
    ensures c.Some? ==> exists k :: 0 <= k < |prices| && prices[k] == SpotPrice(time, token, c.value) &&
                          forall j :: 0 <= j < k ==> !(prices[j].closeTime == time && prices[j].token == token)
  {
    if prices == [] then None
    else if prices[0].closeTime == time && prices[0].token == token then
      assert prices[0] == SpotPrice(time, token, prices[0].close);
      Some(prices[0].close)
    else
      var c := LookupClose(prices[1..], time, token);
      if c.Some? then
        var k :| 0 <= k < |prices[1..]| && prices[1..][k] == SpotPrice(time, token, c.value) &&
                 forall j :: 0 <= j < k ==> !(prices[1..][j].closeTime == time && prices[1..][j].token == token);
        assert prices[k + 1] == SpotPrice(time, token, c.value);
        assert forall j :: 1 <= j < k + 1 ==> prices[j] == prices[1..][j - 1];
        c
      else
        assert forall k :: 1 <= k < |prices| ==> prices[k] == prices[1..][k - 1];
        c
  }

  /** The holding of `token`: its summed quantity valued at `close`. */
  function TokenHolding(rows: seq<FundingRow>, token: Token, close: real): Holding {
    var quantity := TokenQuantity(rows, token);
    Holding(quantity, quantity * close)
  }

  /** Runs the strategy. An empty input has no last timestamp; the reinvest
      mode is refused before any result; a token with no spot price at the
      last timestamp stops the run. Every token except USDT gets exactly one
      entry. */
  method Apply(rows: seq<FundingRow>, prices: seq<SpotPrice>, config: Config)
    returns (r: Result<map<Token, Holding>>)
    ensures rows == [] ==> r == Err(EmptyInput)
    ensures rows != [] && config.isReinvest ==> r == Err(ReinvestNotImplemented)
    ensures r.Ok? <==>
              rows != [] && !config.isReinvest &&
              forall t :: t in Tokens(rows) && t != USDT ==>
                LookupClose(prices, LastDistinct(Timestamps(rows)), t).Some?
    ensures r.Ok? ==> forall t :: t in r.value <==> t in Tokens(rows) && t != USDT
    ensures r.Ok? ==>
              forall t :: t in r.value ==>
                LookupClose(prices, LastDistinct(Timestamps(rows)), t).Some? &&
                r.value[t] == TokenHolding(rows, t, LookupClose(prices, LastDistinct(Timestamps(rows)), t).value)
    ensures r.Err? && rows != [] && !config.isReinvest ==>
              && r.error.MissingKey?
              && r.error.key in Tokens(rows) && r.error.key != USDT
              && LookupClose(prices, LastDistinct(Timestamps(rows)), r.error.key).None?
  {
    if rows == [] {
      return Err(EmptyInput);
    }
    var lastDate := LastDistinct(Timestamps(rows));
    if config.isReinvest {
      return Err(ReinvestNotImplemented);
    }
    var tokens := Distinct(Tokens(rows));
    var result: map<Token, Holding> := map[];
    var i := 0;
    while i < |tokens|
      invariant 0 <= i <= |tokens|
      invariant forall t :: t in result <==> t in tokens[..i] && t != USDT
      invariant forall t :: t in result ==>
                  LookupClose(prices, lastDate, t).Some? &&
                  result[t] == TokenHolding(rows, t, LookupClose(prices, lastDate, t).value)
    {
      var token := tokens[i];
      if token != USDT {
        var close := LookupClose(prices, lastDate, token);
        if close.None? {
          assert token in Tokens(rows);
          return Err(MissingKey(token));
        }
        result := result[token := TokenHolding(rows, token, close.value)];
      }
      assert tokens[..i + 1] == tokens[..i] + [token];
      i := i + 1;
    }
    assert tokens[..i] == tokens;
    r := Ok(result);
  }

  /** With flags derived from the rates, every venue's gain column is
      non-negative for a non-negative quantity, and so is the row's result. */
  lemma SelectedGainNonNegative(r: FundingRow)
    requires FlagsDerived(r) && r.quantity >= 0.0
    ensures VenueGain(r.quantity, r.rateBinance, r.isBuyLongPerpBinance) >= 0.0
    ensures VenueGain(r.quantity, r.rateBybite, r.isBuyLongPerpBybite) >= 0.0
    ensures SelectedGain(r) >= 0.0
  {
  }

  /** With flags derived from the rates, the row's result is the gain at the
      larger rate when that rate is not negative; equal rates take the second
      venue. */
  lemma SelectedGainIsBestVenue(r: FundingRow)
    requires FlagsDerived(r)
    ensures r.rateBinance == r.rateBybite ==>
              SelectedGain(r) == VenueGain(r.quantity, r.rateBybite, r.isBuyLongPerpBybite)
    ensures Max(r.rateBinance, r.rateBybite) >= 0.0 ==>
              SelectedGain(r) == r.quantity * Max(r.rateBinance, r.rateBybite)
  {
  }

  /** A token's summed quantity is non-negative when every row's quantity is
      and the flags were derived from the rates. */
  lemma {:induction false} TokenQuantityNonNegative(rows: seq<FundingRow>, token: Token)
    requires forall k :: 0 <= k < |rows| ==> FlagsDerived(rows[k]) && rows[k].quantity >= 0.0
    ensures TokenQuantity(rows, token) >= 0.0
  {
    if rows != [] {
      TokenQuantityNonNegative(rows[..|rows| - 1], token);
      SelectedGainNonNegative(rows[|rows| - 1]);
    }
  }

  /** A token with no row earns nothing. */
  lemma {:induction false} TokenQuantityOfAbsentToken(rows: seq<FundingRow>, token: Token)
    requires token !in Tokens(rows)
    ensures TokenQuantity(rows, token) == 0.0
  {
    if rows != [] {
      assert Tokens(rows[..|rows| - 1]) == Tokens(rows)[..|rows| - 1];
      TokenQuantityOfAbsentToken(rows[..|rows| - 1], token);
    }
  }
}
