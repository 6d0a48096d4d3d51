/** Construction of the collateral table and of the joined funding table with
    its derived columns (analysis_tools/compute_data.py). */
module ComputeData {
  import opened Common
  import opened FundingTools

  /** Collateral value granted per token: 250000 times the token's haircut,
      and a flat 500000 for USDT whatever its haircut entry says. */
  function CollateralValues(haircuts: map<Token, real>): (m: map<Token, real>)
    ensures m.Keys == haircuts.Keys + {USDT}
    ensures m[USDT] == 500000.0
    ensures forall t :: t in haircuts && t != USDT ==> m[t] == 250000.0 * haircuts[t]
  {
    (map t | t in haircuts :: 250000.0 * haircuts[t])[USDT := 500000.0]
  }

  /** A row of the first venue's funding table, after column renaming. */
  datatype BinanceFunding = BinanceFunding(timestamp: int, token: Token, fundingIntervalHours: int, lastFundingRate: real)

  /** A row of the second venue's funding table, after column renaming. */
  datatype BybitFunding = BybitFunding(timestamp: int, token: Token, symbol: string, fundingRate: real)

  /** A row of the joined table with its two rates under their final names. */
  datatype Joined = Joined(timestamp: int, token: Token, fundingIntervalHours: int, rateBinance: real,
                           symbol: string, rateBybite: real)

  /** A row of the funding table as the strategies consume it. */
  datatype FundingRow = FundingRow(
    timestamp: int, token: Token, rateBinance: real, rateBybite: real,
    isMarketFundingArb: bool, isBuyLongPerpBinance: bool, isBuyLongPerpBybite: bool,
    isFundingBinanceBest: bool, quantity: real)

  predicate SameKey(a: BinanceFunding, b: BybitFunding) {
    a.timestamp == b.timestamp && a.token == b.token
  }

  function Pair(a: BinanceFunding, b: BybitFunding): Joined {
    Joined(a.timestamp, a.token, a.fundingIntervalHours, a.lastFundingRate, b.symbol, b.fundingRate)
  }

  /** The joined rows one left row contributes: one per matching right row, in
      right-table order. */
  function Matches(a: BinanceFunding, right: seq<BybitFunding>): (j: seq<Joined>)
    decreases |right|
  {
    if right == [] then []
    else (if SameKey(a, right[0]) then [Pair(a, right[0])] else []) + Matches(a, right[1..])
  }

  /** Inner join on (timestamp, token), in left-table order. */
  function InnerJoin(left: seq<BinanceFunding>, right: seq<BybitFunding>): (j: seq<Joined>)
    decreases |left|
  {
    if left == [] then [] else Matches(left[0], right) + InnerJoin(left[1..], right)
  }

  lemma {:induction false} MatchesSound(a: BinanceFunding, right: seq<BybitFunding>, x: Joined)
    requires x in Matches(a, right)
    ensures exists b :: b in right && SameKey(a, b) && x == Pair(a, b)
    decreases |right|
  {
    if right != [] {
      if SameKey(a, right[0]) && x == Pair(a, right[0]) {
        assert right[0] in right;
      } else {
        assert x in Matches(a, right[1..]);
        MatchesSound(a, right[1..], x);
        var b :| b in right[1..] && SameKey(a, b) && x == Pair(a, b);
        assert b in right;
      }
    }
  }

  lemma {:induction false} MatchesComplete(a: BinanceFunding, right: seq<BybitFunding>, b: BybitFunding)
    requires b in right && SameKey(a, b)
    ensures Pair(a, b) in Matches(a, right)
    decreases |right|
  {
    if right[0] != b {
      assert b in right[1..];
      MatchesComplete(a, right[1..], b);
    }
  }

  /** Every joined row comes from a left row and a right row with the same
      (timestamp, token): the join keeps only keys present in both tables. */
  lemma {:induction false} InnerJoinSound(left: seq<BinanceFunding>, right: seq<BybitFunding>, x: Joined)
    requires x in InnerJoin(left, right)
    ensures exists a, b :: a in left && b in right && SameKey(a, b) && x == Pair(a, b)
    decreases |left|
  {
    if x in Matches(left[0], right) {
      MatchesSound(left[0], right, x);
      var b :| b in right && SameKey(left[0], b) && x == Pair(left[0], b);
      assert left[0] in left;
    } else {
      InnerJoinSound(left[1..], right, x);
      var a, b :| a in left[1..] && b in right && SameKey(a, b) && x == Pair(a, b);
      assert a in left;
    }
  }

  /** Every matching pair of rows appears in the join. */
  lemma {:induction false} InnerJoinComplete(left: seq<BinanceFunding>, right: seq<BybitFunding>,
                                             a: BinanceFunding, b: BybitFunding)
    requires a in left && b in right && SameKey(a, b)
    ensures Pair(a, b) in InnerJoin(left, right)
    decreases |left|
  {
    if left[0] == a {
      MatchesComplete(a, right, b);
    } else {
      assert a in left[1..];
      InnerJoinComplete(left[1..], right, a, b);
    }
  }

  /** The derived columns of one joined row; sizing may fail, and then the
      row fails with the sizing error. A derived row keeps the joined row's
      key and rates, its flags are those of its own rates, and its quantity
      is the sized one. */
  function DeriveRow(j: Joined, inventory: map<Token, real>, initialPrices: map<Token, real>): (r: Result<FundingRow>)
    ensures var q := InitQuantity(j.token, inventory, initialPrices);
            && (r.Ok? <==> q.Ok?)
            && (r.Err? ==> r.error == q.error)
            && (r.Ok? ==> && FlagsDerived(r.value) && r.value.quantity == q.value
                          && (r.value.timestamp, r.value.token) == (j.timestamp, j.token)
                          && (r.value.rateBinance, r.value.rateBybite) == (j.rateBinance, j.rateBybite))
  {
    var q := InitQuantity(j.token, inventory, initialPrices);
    if q.Err? then Err(q.error)
    else
      Ok(FundingRow(j.timestamp, j.token, j.rateBinance, j.rateBybite,
                    IsMarketFundingArb(j.rateBinance, j.rateBybite),
                    IsBuyLongPerp(j.rateBinance), IsBuyLongPerp(j.rateBybite),
                    j.rateBinance > j.rateBybite, q.value))
  }

  /** Every joined row can be sized. */
  predicate AllSizable(joined: seq<Joined>, inventory: map<Token, real>, initialPrices: map<Token, real>) {
    forall k :: 0 <= k < |joined| ==> DeriveRow(joined[k], inventory, initialPrices).Ok?
  }

  /** A funding row whose flag columns were derived from its own rates. */
  predicate FlagsDerived(r: FundingRow) {
    && r.isMarketFundingArb == IsMarketFundingArb(r.rateBinance, r.rateBybite)
    && r.isBuyLongPerpBinance == IsBuyLongPerp(r.rateBinance)
    && r.isBuyLongPerpBybite == IsBuyLongPerp(r.rateBybite)
    && r.isFundingBinanceBest == (r.rateBinance > r.rateBybite)
  }

  /** The first venue is best only when the rates differ, and equal rates
      never make it best; a row is an arbitrage row exactly when one of the
      venues is strictly better. */
  lemma BinanceBestOnlyOnArb(r: FundingRow)
    requires FlagsDerived(r)
    ensures r.isFundingBinanceBest ==> r.isMarketFundingArb
    ensures r.rateBinance == r.rateBybite ==> !r.isFundingBinanceBest
    ensures r.isMarketFundingArb <==> (r.isFundingBinanceBest || r.rateBybite > r.rateBinance)
  {
  }

  /** Builds the funding table: joins the two venues on (timestamp, token),
      then fills the derived columns row by row. The first row whose sizing
      fails stops the construction with that row's error. */
  method ComputeFundingDataframe(binance: seq<BinanceFunding>, bybit: seq<BybitFunding>,
                                 inventory: map<Token, real>, initialPrices: map<Token, real>)
    returns (r: Result<seq<FundingRow>>)
    ensures r.Ok? <==> AllSizable(InnerJoin(binance, bybit), inventory, initialPrices)
    ensures var joined := InnerJoin(binance, bybit);
            r.Ok? ==> |r.value| == |joined| &&
                      forall k :: 0 <= k < |joined| ==> r.value[k] == DeriveRow(joined[k], inventory, initialPrices).value
    ensures r.Ok? ==> forall k :: 0 <= k < |r.value| ==> FlagsDerived(r.value[k])
    ensures var joined := InnerJoin(binance, bybit);
            r.Err? ==> exists k :: && 0 <= k < |joined|
                                   && DeriveRow(joined[k], inventory, initialPrices) == Err(r.error)
                                   && forall j :: 0 <= j < k ==> DeriveRow(joined[j], inventory, initialPrices).Ok?
  {
    var joined := InnerJoin(binance, bybit);
    var rows: seq<FundingRow> := [];
    var i := 0;
    while i < |joined|
      invariant 0 <= i <= |joined|
      invariant |rows| == i
      invariant forall k :: 0 <= k < i ==> DeriveRow(joined[k], inventory, initialPrices) == Ok(rows[k])
      invariant forall k :: 0 <= k < i ==> FlagsDerived(rows[k])
    {
      var d := DeriveRow(joined[i], inventory, initialPrices);
      if d.Err? {
        assert !AllSizable(joined, inventory, initialPrices);
        return Err(d.error);
      }
      rows := rows + [d.value];
      i := i + 1;
    }
    r := Ok(rows);
  }
}
