/** The end-of-run roll-up of the best-gain strategy (strategy/best_gain.py):
    the profitable INVESTED rows, their gain per token, one fee per day, P&L
    and APY, and fees spread pro rata over the tokens. */
module BestGainStats {
  import opened Common
  import opened BestGainSpec

  /** One line of the per-token table before fees: the token, the sum of
      its gains and its inventory amount. */
  datatype TokenGain = TokenGain(token: Token, gain: real, amountInvested: real)

  /** One line of the recap's per-token table: the before-fee line with its
      gain after fees added. The two APY columns are ratios of the stored
      columns. */
  datatype TokenPnl = TokenPnl(token: Token, gainWithoutFee: real, amountInvested: real, gainWithFee: real)
  {
    /** The APY_BY_TOKEN column: gain before fees over the amount invested. */
    function ApyByToken(): (apy: real)
      requires amountInvested != 0.0
      ensures apy * amountInvested == gainWithoutFee
    {
      gainWithoutFee / amountInvested
    }

    /** The APY_with_fee column: gain after fees over the amount invested. */
    function ApyWithFee(): (apy: real)
      requires amountInvested != 0.0
      ensures apy * amountInvested == gainWithFee
    {
      gainWithFee / amountInvested
    }
  }

  /** The run's summary. The APY is a fraction times 100, unrounded. */
  datatype Recap = Recap(pnlWithFee: real, apyWithFee: real, feeAmount: real, pnlByToken: seq<TokenPnl>)

  /** The rows that count: tagged INVESTED on a profitable day. */
  function ProfitableTrades(rows: seq<ResultRow>): (p: seq<ResultRow>)
    ensures forall r :: r in p <==> r in rows && r.isProfitable && r.action == Invested
    ensures |p| <= |rows|
  {
    if rows == [] then []
    else
      var prefix := ProfitableTrades(rows[..|rows| - 1]);
      var last := rows[|rows| - 1];
      assert forall r :: r in rows <==> r in rows[..|rows| - 1] || r == last;
      if last.isProfitable && last.action == Invested then prefix + [last] else prefix
  }

  /** `ProfitableTrades` keeps every profitable INVESTED row as often as it
      occurs and no other row. */
  lemma {:induction false} ProfitableTradesCount(rows: seq<ResultRow>)
    ensures forall r :: multiset(ProfitableTrades(rows))[r] ==
                        if r.isProfitable && r.action == Invested then multiset(rows)[r] else 0
  {
    if rows != [] {
      var n := |rows| - 1;
      ProfitableTradesCount(rows[..n]);
      assert rows == rows[..n] + [rows[n]];
    }
  }

  function Tokens(rows: seq<ResultRow>): (ts: seq<Token>)
    ensures |ts| == |rows| && forall k :: 0 <= k < |rows| ==> ts[k] == rows[k].row.token
  {
    seq(|rows|, k requires 0 <= k < |rows| => rows[k].row.token)
  }

  function Dates(rows: seq<ResultRow>): (ts: seq<int>)
    ensures |ts| == |rows| && forall k :: 0 <= k < |rows| ==> ts[k] == rows[k].row.timestamp
  {
    seq(|rows|, k requires 0 <= k < |rows| => rows[k].row.timestamp)
  }

  /** Sum of the USD gain of all rows. */
  function TotalGain(rows: seq<ResultRow>): real {
    if rows == [] then 0.0
    else TotalGain(rows[..|rows| - 1]) + rows[|rows| - 1].row.potentialGainUsd
  }

  /** Sum of the USD gain of `token`'s rows. */
  function GainOf(rows: seq<ResultRow>, token: Token): real {
    if rows == [] then 0.0
    else
      var last := rows[|rows| - 1];
      GainOf(rows[..|rows| - 1], token) + (if last.row.token == token then last.row.potentialGainUsd else 0.0)
  }

  /** Sum of the per-token gains over `tokens`. */
  function SumOverTokens(tokens: seq<Token>, rows: seq<ResultRow>): real {
    if tokens == [] then 0.0
    else SumOverTokens(tokens[..|tokens| - 1], rows) + GainOf(rows, tokens[|tokens| - 1])
  }

  /** Sum of the inventory amounts of `tokens`. */
  function AmountInvested(tokens: seq<Token>, inventory: map<Token, real>): real
    requires forall t :: t in tokens ==> t in inventory
  {
    if tokens == [] then 0.0
    else AmountInvested(tokens[..|tokens| - 1], inventory) + inventory[tokens[|tokens| - 1]]
  }

  function FeeSumAt(rows: seq<ResultRow>, date: int): real {
    if rows == [] then 0.0
    else
      var last := rows[|rows| - 1];
      FeeSumAt(rows[..|rows| - 1], date) + (if last.row.timestamp == date then last.feeAmount else 0.0)
  }

  function CountAt(rows: seq<ResultRow>, date: int): nat {
    if rows == [] then 0
    else CountAt(rows[..|rows| - 1], date) + (if rows[|rows| - 1].row.timestamp == date then 1 else 0)
  }

  /** The mean fee of the rows at `date` (the pivot by timestamp). */
  function MeanFeeAt(rows: seq<ResultRow>, date: int): real
    requires CountAt(rows, date) > 0
  {
    FeeSumAt(rows, date) / (CountAt(rows, date) as real)
  }

  /** The sum over `dates` of each date's mean fee. */
  function SumMeanFees(rows: seq<ResultRow>, dates: seq<int>): real
    requires forall d :: d in dates ==> CountAt(rows, d) > 0
  {
    if dates == [] then 0.0
    else SumMeanFees(rows, dates[..|dates| - 1]) + MeanFeeAt(rows, dates[|dates| - 1])
  }

  /** The run's total fee: one (mean) fee per distinct timestamp, summed. */
  function TotalFee(rows: seq<ResultRow>): real {
    CountAtDates(rows);
    SumMeanFees(rows, Distinct(Dates(rows)))
  }

  /** The per-token table before fees, one line per token in the given
      order: the token's summed gain and its inventory amount. */
  function PnlByToken(tokens: seq<Token>, rows: seq<ResultRow>, inventory: map<Token, real>)
    : (table: seq<TokenGain>)
    requires forall t :: t in tokens ==> t in inventory
    ensures |table| == |tokens|
    ensures forall k :: 0 <= k < |tokens| ==>
              && table[k].token == tokens[k]
              && table[k].gain == GainOf(rows, tokens[k])
              && table[k].amountInvested == inventory[tokens[k]]
  {
    seq(|tokens|, k requires 0 <= k < |tokens| => TokenGain(tokens[k], GainOf(rows, tokens[k]), inventory[tokens[k]]))
  }

  /** Sum of a column of numbers. */
  function Sum(xs: seq<real>): real {
    if xs == [] then 0.0 else Sum(xs[..|xs| - 1]) + xs[|xs| - 1]
  }

  /** Every number of a column multiplied by `scale`. */
  function Scaled(xs: seq<real>, scale: real): (ys: seq<real>)
    ensures |ys| == |xs|
  {
    seq(|xs|, k requires 0 <= k < |xs| => scale * xs[k])
  }

  /** The gain column of the table before fees. */
  function Gains(table: seq<TokenGain>): (xs: seq<real>)
    ensures |xs| == |table| && forall k :: 0 <= k < |table| ==> xs[k] == table[k].gain
  {
    seq(|table|, k requires 0 <= k < |table| => table[k].gain)
  }

  /** The gain column's total. */
  function SumGain(table: seq<TokenGain>): real {
    Sum(Gains(table))
  }

  /** Adds the gain-after-fees column: every line's gain scaled by `scale`. */
  function WithFee(table: seq<TokenGain>, scale: real): (out: seq<TokenPnl>)
    ensures |out| == |table|
  {
    if table == [] then []
    else
      var line := table[|table| - 1];
      WithFee(table[..|table| - 1], scale) + [TokenPnl(line.token, line.gain, line.amountInvested, scale * line.gain)]
  }

  /** The gain-after-fees column of the recap's table. */
  function GainsWithFee(table: seq<TokenPnl>): (xs: seq<real>)
    ensures |xs| == |table| && forall k :: 0 <= k < |table| ==> xs[k] == table[k].gainWithFee
  {
    seq(|table|, k requires 0 <= k < |table| => table[k].gainWithFee)
  }

  /** The gain-after-fees column's total. */
  function SumGainWithFee(table: seq<TokenPnl>): real {
    Sum(GainsWithFee(table))
  }

  /** The first of `tokens` with no inventory entry, if any. */
  function FirstMissing(tokens: seq<Token>, inventory: map<Token, real>): (m: Option<Token>)
    ensures m.None? <==> forall t :: t in tokens ==> t in inventory
    ensures m.Some? ==> m.value in tokens && m.value !in inventory
  {
    if tokens == [] then None
    else if tokens[0] !in inventory then Some(tokens[0])
    else
      var m := FirstMissing(tokens[1..], inventory);
      assert forall t :: t in tokens <==> t == tokens[0] || t in tokens[1..];
      m
  }

  /** The recap of a run's result. It fails when there is no profitable
      INVESTED row, when a profitable token has no inventory entry, and when
      a divisor is zero: a token's inventory amount, the total amount
      invested, or the gain before fees. */
  function Stats(result: seq<ResultRow>, inventory: map<Token, real>): Result<Recap> {
    var p := ProfitableTrades(result);
    var tokens := Distinct(Tokens(p));
    if p == [] then Err(EmptyInput)
    else
      var missing := FirstMissing(tokens, inventory);
      if missing.Some? then Err(MissingKey(missing.value))
      else if exists t :: t in tokens && inventory[t] == 0.0 then Err(ZeroDivision)
      else
        var byToken := PnlByToken(tokens, p, inventory);
        var invested := AmountInvested(tokens, inventory);
        if invested == 0.0 || SumGain(byToken) == 0.0 then Err(ZeroDivision)
        else Ok(RecapOf(byToken, TotalFee(p), invested))
  }

  /** When the recap exists: exactly when there is a profitable INVESTED
      row, every profitable token has a non-zero inventory amount and
      neither the amount invested nor the gain before fees is zero. A
      missing inventory entry is reported with a profitable token. */
  lemma StatsOutcome(result: seq<ResultRow>, inventory: map<Token, real>)
    ensures var r := Stats(result, inventory);
            var p := ProfitableTrades(result);
            var tokens := Distinct(Tokens(p));
            r.Ok? <==>
              && p != []
              && (forall t :: t in tokens ==> t in inventory && inventory[t] != 0.0)
              && AmountInvested(tokens, inventory) != 0.0
              && TotalGain(p) != 0.0
    ensures Stats(result, inventory) == Err(EmptyInput) <==> ProfitableTrades(result) == []
    ensures var r := Stats(result, inventory);
            r.Err? && r.error.MissingKey? ==>
              r.error.key in Tokens(ProfitableTrades(result)) && r.error.key !in inventory
    ensures var p := ProfitableTrades(result);
            p != [] && (exists t :: t in Distinct(Tokens(p)) && t !in inventory) ==>
              Stats(result, inventory).Err? && Stats(result, inventory).error.MissingKey?
    ensures var r := Stats(result, inventory);
            r.Err? ==> r.error.EmptyInput? || r.error.MissingKey? || r.error == ZeroDivision
  {
    var p := ProfitableTrades(result);
    var tokens := Distinct(Tokens(p));
    if p == [] {
      assert Stats(result, inventory) == Err(EmptyInput);
    } else {
      var missing := FirstMissing(tokens, inventory);
      if missing.Some? {
        assert Stats(result, inventory) == Err(MissingKey(missing.value));
      } else if exists t :: t in tokens && inventory[t] == 0.0 {
        assert Stats(result, inventory) == Err(ZeroDivision);
      } else {
        var byToken := PnlByToken(tokens, p, inventory);
        var invested := AmountInvested(tokens, inventory);
        GroupedGain(p);
        PnlByTokenSum(tokens, p, inventory);
        if invested == 0.0 || SumGain(byToken) == 0.0 {
          assert Stats(result, inventory) == Err(ZeroDivision);
        } else {
          assert Stats(result, inventory) == Ok(RecapOf(byToken, TotalFee(p), invested));
        }
      }
    }
  }

  /** What the recap holds: its fee is the run's total fee, its P&L the gain
      of the profitable rows less that fee, and its per-token table lists
      the distinct profitable tokens with their gains and amounts, the
      after-fee gains adding up to the P&L. */
  lemma StatsRecap(result: seq<ResultRow>, inventory: map<Token, real>)
    requires Stats(result, inventory).Ok?
    ensures var recap := Stats(result, inventory).value;
            && recap.feeAmount == TotalFee(ProfitableTrades(result))
            && recap.pnlWithFee == TotalGain(ProfitableTrades(result)) - recap.feeAmount
            && SumGainWithFee(recap.pnlByToken) == recap.pnlWithFee
    ensures var recap := Stats(result, inventory).value;
            var tokens := Distinct(Tokens(ProfitableTrades(result)));
            && |recap.pnlByToken| == |tokens|
            && forall k :: 0 <= k < |tokens| ==>
                 && recap.pnlByToken[k].token == tokens[k]
                 && recap.pnlByToken[k].gainWithoutFee == GainOf(ProfitableTrades(result), tokens[k])
                 && tokens[k] in inventory && recap.pnlByToken[k].amountInvested == inventory[tokens[k]] != 0.0
    ensures TotalGain(ProfitableTrades(result)) != 0.0
    ensures var recap := Stats(result, inventory).value;
            forall k :: 0 <= k < |recap.pnlByToken| ==>
              recap.pnlByToken[k].gainWithFee ==
                ProRata(recap.pnlWithFee, TotalGain(ProfitableTrades(result)), recap.pnlByToken[k].gainWithoutFee)
  {
    var p := ProfitableTrades(result);
    var tokens := Distinct(Tokens(p));
    var missing := FirstMissing(tokens, inventory);
    assert p != [] && missing.None? && !exists t :: t in tokens && inventory[t] == 0.0;
    var byToken := PnlByToken(tokens, p, inventory);
    var invested := AmountInvested(tokens, inventory);
    var recap := RecapOf(byToken, TotalFee(p), invested);
    assert Stats(result, inventory) == Ok(recap);
    GroupedGain(p);
    PnlByTokenSum(tokens, p, inventory);
    forall k | 0 <= k < |tokens|
      ensures && recap.pnlByToken[k].token == tokens[k]
              && recap.pnlByToken[k].gainWithoutFee == GainOf(p, tokens[k])
              && tokens[k] in inventory && recap.pnlByToken[k].amountInvested == inventory[tokens[k]] != 0.0
    {
      assert tokens[k] in tokens;
    }
    RecapOfProRata(byToken, TotalFee(p), invested, TotalGain(p));
  }

  /** The recap's APY after fees is the P&L after fees as a percentage of
      the inventory amounts of the distinct profitable tokens; by the
      contract of `Percent`, the APY times that amount is 100 times the
      P&L. */
  lemma StatsApy(result: seq<ResultRow>, inventory: map<Token, real>)
    requires Stats(result, inventory).Ok?
    ensures forall t :: t in Distinct(Tokens(ProfitableTrades(result))) ==> t in inventory
    ensures AmountInvested(Distinct(Tokens(ProfitableTrades(result))), inventory) != 0.0
    ensures var recap := Stats(result, inventory).value;
            recap.apyWithFee == Percent(recap.pnlWithFee, AmountInvested(Distinct(Tokens(ProfitableTrades(result))), inventory))
  {
    StatsIsRecapOf(result, inventory);
  }

  /** A successful recap is `RecapOf` the per-token table, the total fee and
      the amount invested of the distinct profitable tokens. */
  lemma StatsIsRecapOf(result: seq<ResultRow>, inventory: map<Token, real>)
    requires Stats(result, inventory).Ok?
    ensures forall t :: t in Distinct(Tokens(ProfitableTrades(result))) ==> t in inventory
    ensures AmountInvested(Distinct(Tokens(ProfitableTrades(result))), inventory) != 0.0
    ensures SumGain(PnlByToken(Distinct(Tokens(ProfitableTrades(result))), ProfitableTrades(result), inventory)) != 0.0
    ensures Stats(result, inventory) ==
              Ok(RecapOf(PnlByToken(Distinct(Tokens(ProfitableTrades(result))), ProfitableTrades(result), inventory),
                         TotalFee(ProfitableTrades(result)),
                         AmountInvested(Distinct(Tokens(ProfitableTrades(result))), inventory)))
  {
    var p := ProfitableTrades(result);
    var tokens := Distinct(Tokens(p));
    assert FirstMissing(tokens, inventory).None?;
  }

  /** The recap built from the per-token table, the total fee and the amount
      invested: the P&L after fees, the APY in percent, and the table with
      the fee spread over the tokens pro rata to their gains, so that the
      after-fee column adds up to the P&L. */
  function RecapOf(byToken: seq<TokenGain>, fee: real, invested: real): (recap: Recap)
    requires SumGain(byToken) != 0.0 && invested != 0.0
    ensures recap.feeAmount == fee && recap.pnlWithFee == SumGain(byToken) - fee
    ensures SumGainWithFee(recap.pnlByToken) == recap.pnlWithFee
    ensures |recap.pnlByToken| == |byToken| &&
            forall k :: 0 <= k < |byToken| ==>
              && recap.pnlByToken[k].token == byToken[k].token
              && recap.pnlByToken[k].gainWithoutFee == byToken[k].gain
              && recap.pnlByToken[k].amountInvested == byToken[k].amountInvested
    ensures forall k :: 0 <= k < |byToken| ==>
              recap.pnlByToken[k].gainWithFee == (recap.pnlWithFee / SumGain(byToken)) * byToken[k].gain
    ensures recap.apyWithFee == Percent(recap.pnlWithFee, invested)
    ensures recap.apyWithFee * invested == 100.0 * recap.pnlWithFee
  {
    var pnl := SumGain(byToken) - fee;
    ProRataSumsToPnl(byToken, pnl);
    WithFeeColumns(byToken, pnl / SumGain(byToken));
    WithFeeScaled(byToken, pnl / SumGain(byToken));
    Recap(pnl, Percent(pnl, invested), fee, WithFee(byToken, pnl / SumGain(byToken)))
  }

  /** The share of `pnl` that falls on a line with `gain` out of `total`. */
  function ProRata(pnl: real, total: real, gain: real): real
    requires total != 0.0
  {
    (pnl / total) * gain
  }

  /** The recap's after-fee gains, stated against a gain total known by
      another name: each line gets its pro-rata share of the P&L. */
  lemma RecapOfProRata(byToken: seq<TokenGain>, fee: real, invested: real, total: real)
    requires SumGain(byToken) == total && total != 0.0 && invested != 0.0
    ensures var recap := RecapOf(byToken, fee, invested);
            forall k :: 0 <= k < |recap.pnlByToken| ==>
              recap.pnlByToken[k].gainWithFee == ProRata(recap.pnlWithFee, total, recap.pnlByToken[k].gainWithoutFee)
  {
  }

  // ---------------------------------------------------------------------
  // Lemmas

  lemma {:induction false} GainOfAbsent(rows: seq<ResultRow>, token: Token)
    requires token !in Tokens(rows)
    ensures GainOf(rows, token) == 0.0
  {
    if rows != [] {
      assert Tokens(rows[..|rows| - 1]) == Tokens(rows)[..|rows| - 1];
      GainOfAbsent(rows[..|rows| - 1], token);
    }
  }

  /** Adding a row adds its gain to the token sum once, when its token is one
      of the (distinct) tokens summed over. */
  lemma {:induction false} SumOverTokensSplit(tokens: seq<Token>, rows: seq<ResultRow>)
    requires rows != [] && NoDuplicates(tokens)
    ensures var n := |rows| - 1;
            SumOverTokens(tokens, rows) ==
              SumOverTokens(tokens, rows[..n]) + (if rows[n].row.token in tokens then rows[n].row.potentialGainUsd else 0.0)
  {
    if tokens != [] {
      var m := |tokens| - 1;
      SumOverTokensSplit(tokens[..m], rows);
      assert rows[|rows| - 1].row.token in tokens <==>
             rows[|rows| - 1].row.token in tokens[..m] || rows[|rows| - 1].row.token == tokens[m];
      assert rows[|rows| - 1].row.token == tokens[m] ==> rows[|rows| - 1].row.token !in tokens[..m];
    }
  }

  /** Grouping by token keeps the total: the per-token gains over the
      distinct tokens add up to the gain of all rows. */
  lemma {:induction false} GroupedGain(rows: seq<ResultRow>)
    ensures SumOverTokens(Distinct(Tokens(rows)), rows) == TotalGain(rows)
  {
    if rows != [] {
      var n := |rows| - 1;
      var prefix := rows[..n];
      var tok := rows[n].row.token;
      assert Tokens(rows)[..n] == Tokens(prefix);
      var d := Distinct(Tokens(prefix));
      GroupedGain(prefix);
      SumOverTokensSplit(Distinct(Tokens(rows)), rows);
      if tok in d {
        assert Distinct(Tokens(rows)) == d;
      } else {
        assert Distinct(Tokens(rows)) == d + [tok];
        assert (d + [tok])[..|d|] == d;
        SumOverTokensSplit(d, rows);
        GainOfAbsent(prefix, tok);
      }
    }
  }

  /** The per-token table's gain column adds up to the sum of the token
      gains. */
  lemma {:induction false} PnlByTokenSum(tokens: seq<Token>, rows: seq<ResultRow>, inventory: map<Token, real>)
    requires forall t :: t in tokens ==> t in inventory
    ensures SumGain(PnlByToken(tokens, rows, inventory)) == SumOverTokens(tokens, rows)
  {
    if tokens != [] {
      var m := |tokens| - 1;
      PrefixSnoc(tokens, m);
      var table := PnlByToken(tokens, rows, inventory);
      var prefix := PnlByToken(tokens[..m], rows, inventory);
      assert Gains(table)[..m] == Gains(prefix);
      PnlByTokenSum(tokens[..m], rows, inventory);
    }
  }

  /** Adding the after-fee column keeps every line's token, gain and amount. */
  lemma {:induction false} WithFeeColumns(table: seq<TokenGain>, scale: real)
    ensures var out := WithFee(table, scale);
            forall k :: 0 <= k < |table| ==>
              && out[k].token == table[k].token
              && out[k].gainWithoutFee == table[k].gain
              && out[k].amountInvested == table[k].amountInvested
  {
    if table != [] {
      var m := |table| - 1;
      WithFeeColumns(table[..m], scale);
    }
  }

  /** Every line's gain after fees is its gain scaled by `scale`. */
  lemma {:induction false} WithFeeScaled(table: seq<TokenGain>, scale: real)
    ensures var out := WithFee(table, scale);
            forall k :: 0 <= k < |table| ==> out[k].gainWithFee == scale * table[k].gain
  {
    if table != [] {
      var m := |table| - 1;
      WithFeeScaled(table[..m], scale);
    }
  }

  /** Scaling every number of a column scales its sum by the same factor. */
  lemma {:induction false} SumScaled(xs: seq<real>, scale: real)
    ensures Sum(Scaled(xs, scale)) == scale * Sum(xs)
  {
    if xs != [] {
      var m := |xs| - 1;
      var ys := Scaled(xs, scale);
      assert forall k :: 0 <= k < m ==> ys[..m][k] == Scaled(xs[..m], scale)[k];
      assert ys[..m] == Scaled(xs[..m], scale);
      SumScaled(xs[..m], scale);
      ScaleStep(Sum(ys), Sum(ys[..m]), ys[m], Sum(xs[..m]), xs[m], Sum(xs), scale);
    } else {
      MulZero(scale);
    }
  }

  /** The after-fee total is `scale` times the before-fee total. */
  lemma WithFeeSum(table: seq<TokenGain>, scale: real)
    ensures SumGainWithFee(WithFee(table, scale)) == scale * SumGain(table)
  {
    WithFeeScaled(table, scale);
    var out := WithFee(table, scale);
    assert forall k :: 0 <= k < |table| ==> GainsWithFee(out)[k] == Scaled(Gains(table), scale)[k];
    assert GainsWithFee(out) == Scaled(Gains(table), scale);
    SumScaled(Gains(table), scale);
  }

  /** Fees spread pro rata add up to the P&L after fees: scaling every gain
      by the P&L over the gain total gives a table whose after-fee total is
      the P&L. */
  lemma ProRataSumsToPnl(table: seq<TokenGain>, pnl: real)
    requires SumGain(table) != 0.0
    ensures SumGainWithFee(WithFee(table, pnl / SumGain(table))) == pnl
  {
    var scale := pnl / SumGain(table);
    WithFeeSum(table, scale);
    ProRataTotal(SumGainWithFee(WithFee(table, scale)), scale, SumGain(table), pnl, SumGain(table));
  }

  /** `amount` as a percentage of `base`: times `base`, it is 100 times
      the amount. */
  function Percent(amount: real, base: real): (pct: real)
    requires base != 0.0
    ensures pct * base == 100.0 * amount
  {
    DivMulCancel(amount, base);
    assert (amount / base * 100.0) * base == ((amount / base) * base) * 100.0;
    amount / base * 100.0
  }

  /** Scaling a total by `pnl / total` gives `pnl`, over plain numbers. */
  lemma ProRataTotal(scaled: real, scale: real, sum: real, pnl: real, total: real)
    requires total != 0.0
    requires scale == pnl / total
    requires scaled == scale * sum
    requires sum == total
    ensures scaled == pnl
  {
    DivMulCancel(pnl, total);
  }

  /** One inductive step of a scaled sum, over plain numbers. */
  lemma ScaleStep(total: real, a: real, last: real, b: real, g: real, sum: real, scale: real)
    requires total == a + last && last == scale * g && a == scale * b && sum == b + g
    ensures total == scale * sum
  {
    MulAdd(scale, b, g);
  }

  lemma MulAdd(x: real, a: real, b: real)
    ensures x * (a + b) == x * a + x * b
  {
  }

  lemma MulZero(x: real)
    ensures x * 0.0 == 0.0
  {
  }

  lemma {:induction false} CountAtPositive(rows: seq<ResultRow>, date: int)
    requires date in Dates(rows)
    ensures CountAt(rows, date) > 0
  {
    var n := |rows| - 1;
    if rows[n].row.timestamp != date {
      assert Dates(rows) == Dates(rows[..n]) + [rows[n].row.timestamp];
      CountAtPositive(rows[..n], date);
    }
  }

  /** Every timestamp of the rows has at least one row. */
  lemma CountAtDates(rows: seq<ResultRow>)
    ensures forall d :: d in Dates(rows) ==> CountAt(rows, d) > 0
  {
    forall d | d in Dates(rows) ensures CountAt(rows, d) > 0 {
      CountAtPositive(rows, d);
    }
  }

  /** Rows that share a timestamp share the day's fee and verdict. */
  predicate SameDaySameFee(rows: seq<ResultRow>) {
    forall a, b :: a in rows && b in rows && a.row.timestamp == b.row.timestamp ==>
      a.feeAmount == b.feeAmount && a.isProfitable == b.isProfitable
  }

  lemma {:induction false} FeeSumOfBroadcast(rows: seq<ResultRow>, date: int, fee: real)
    requires forall k :: 0 <= k < |rows| && rows[k].row.timestamp == date ==> rows[k].feeAmount == fee
    ensures FeeSumAt(rows, date) == (CountAt(rows, date) as real) * fee
  {
    if rows != [] {
      var n := |rows| - 1;
      FeeSumOfBroadcast(rows[..n], date, fee);
      if rows[n].row.timestamp == date {
        CountStep(FeeSumAt(rows, date), FeeSumAt(rows[..n], date), CountAt(rows, date) as real,
                  CountAt(rows[..n], date) as real, fee);
      }
    }
  }

  /** One more row of the day adds one fee and one to the count, over plain
      numbers. */
  lemma CountStep(sum: real, prevSum: real, count: real, prevCount: real, fee: real)
    requires sum == prevSum + fee && prevSum == prevCount * fee && count == prevCount + 1.0
    ensures sum == count * fee
  {
    MulSucc(prevCount, fee);
  }

  lemma MulSucc(c: real, x: real)
    ensures (c + 1.0) * x == c * x + x
  {
  }

  lemma DivMulCancel(x: real, n: real)
    requires n != 0.0
    ensures (x / n) * n == x
  {
  }

  lemma MulDivCancel(n: real, x: real)
    requires n != 0.0
    ensures (n * x) / n == x
  {
  }

  /** When the day's fee is broadcast to all its rows, the per-timestamp mean
      is that fee, so the total fee counts each day's fee exactly once. */
  lemma MeanOfBroadcastFee(rows: seq<ResultRow>, r: ResultRow)
    requires SameDaySameFee(rows) && r in rows
    ensures CountAt(rows, r.row.timestamp) > 0
    ensures MeanFeeAt(rows, r.row.timestamp) == r.feeAmount
  {
    var k :| 0 <= k < |rows| && rows[k] == r;
    assert Dates(rows)[k] == r.row.timestamp;
    CountAtPositive(rows, r.row.timestamp);
    assert forall j :: 0 <= j < |rows| && rows[j].row.timestamp == r.row.timestamp ==> rows[j].feeAmount == r.feeAmount;
    MeanFeeOfBroadcast(rows, r.row.timestamp, r.feeAmount);
  }

  /** The mean fee of a date whose rows all carry `fee` is `fee`. */
  lemma MeanFeeOfBroadcast(rows: seq<ResultRow>, date: int, fee: real)
    requires CountAt(rows, date) > 0
    requires forall k :: 0 <= k < |rows| && rows[k].row.timestamp == date ==> rows[k].feeAmount == fee
    ensures MeanFeeAt(rows, date) == fee
  {
    FeeSumOfBroadcast(rows, date, fee);
    MulDivCancel(CountAt(rows, date) as real, fee);
  }

  /** Keeping only the profitable INVESTED rows keeps fees broadcast. */
  lemma ProfitableKeepsBroadcast(rows: seq<ResultRow>)
    requires SameDaySameFee(rows)
    ensures SameDaySameFee(ProfitableTrades(rows))
  {
  }

  /** Every row the day's ranking holds, the synthetic USDT row included,
      carries the day's timestamp. */
  lemma RankedOnDate(day: seq<Observation>, p: Setup, date: int)
    requires |day| > 0 && p.config.requiredCollateral != 0.0
    requires forall k :: 0 <= k < |day| ==> day[k].close != 0.0 && day[k].timestamp == date
    ensures var ranked := Ranked(day, p.inventory, p.initUsdt, p.haircuts, p.config);
            forall k :: 0 <= k < |ranked| ==> ranked[k].timestamp == date
  {
    var ranked := Ranked(day, p.inventory, p.initUsdt, p.haircuts, p.config);
    var valued := ValueAll(day, p.inventory, p.haircuts, p.config);
    forall k | 1 <= k < |ranked| ensures ranked[k].timestamp == date {
      assert ranked[k] == ranked[1..][k - 1];
      assert ranked[k] in multiset(valued);
      var j :| 0 <= j < |valued| && valued[j] == ranked[k];
    }
  }

  /** One day's rows all carry that day's timestamp, fee and verdict. */
  lemma DayResultOnDate(day: seq<Observation>, p: Setup, date: int)
    requires |day| > 0 && p.config.requiredCollateral != 0.0
    requires forall k :: 0 <= k < |day| ==> day[k].close != 0.0 && day[k].timestamp == date
    ensures var out := DayResult(day, p);
            forall k :: 0 <= k < |out| ==>
              out[k].row.timestamp == date && out[k].feeAmount == out[0].feeAmount &&
              out[k].isProfitable == out[0].isProfitable
  {
    RankedOnDate(day, p, date);
  }

  /** The rows of one day of the table carry that day's timestamp, fee and
      verdict. */
  lemma DayOfTable(obs: seq<Observation>, p: Setup, date: int)
    requires p.config.requiredCollateral != 0.0
    requires forall k :: 0 <= k < |obs| ==> obs[k].close != 0.0
    requires date in Timestamps(obs)
    ensures |RowsOn(obs, date)| > 0
    ensures var out := DayResult(RowsOn(obs, date), p);
            forall r :: r in out ==>
              r.row.timestamp == date && r.feeAmount == out[0].feeAmount && r.isProfitable == out[0].isProfitable
  {
    var day := RowsOn(obs, date);
    RowsOnNonEmpty(obs, date);
    DayResultOnDate(day, p, date);
  }

  /** Every row of a run over `dates` carries one of those dates and is a
      row of the outcome of its own day. */
  lemma {:induction false} RunDaysRowsOfDay(obs: seq<Observation>, dates: seq<int>, p: Setup)
    requires p.config.requiredCollateral != 0.0
    requires forall k :: 0 <= k < |obs| ==> obs[k].close != 0.0
    requires forall d :: d in dates ==> d in Timestamps(obs)
    ensures forall r :: r in RunDays(obs, dates, p) ==>
              && r.row.timestamp in dates
              && |RowsOn(obs, r.row.timestamp)| > 0
              && r in DayResult(RowsOn(obs, r.row.timestamp), p)
  {
    if dates != [] {
      var n := |dates| - 1;
      PrefixSnoc(dates, n);
      RunDaysRowsOfDay(obs, dates[..n], p);
      DayOfTable(obs, p, dates[n]);
      RunDaysSnoc(obs, dates[..n], dates[n], p);
    }
  }

  /** Rows that share a timestamp come from the same day, so they share its
      fee and verdict. */
  lemma RunDaysBroadcast(obs: seq<Observation>, dates: seq<int>, p: Setup)
    requires p.config.requiredCollateral != 0.0
    requires forall k :: 0 <= k < |obs| ==> obs[k].close != 0.0
    requires forall d :: d in dates ==> d in Timestamps(obs)
    ensures SameDaySameFee(RunDays(obs, dates, p))
  {
    var rows := RunDays(obs, dates, p);
    RunDaysRowsOfDay(obs, dates, p);
    forall a, b | a in rows && b in rows && a.row.timestamp == b.row.timestamp
      ensures a.feeAmount == b.feeAmount && a.isProfitable == b.isProfitable
    {
      DayOfTable(obs, p, a.row.timestamp);
    }
  }

  /** In a run's result, rows with the same timestamp carry the same fee and
      verdict: the day's fee and verdict are broadcast to its rows. */
  lemma RunBroadcastsFees(obs: seq<Observation>, p: Setup)
    requires p.config.requiredCollateral != 0.0
    requires forall k :: 0 <= k < |obs| ==> obs[k].close != 0.0
    ensures SameDaySameFee(Run(obs, p))
  {
    RunDaysBroadcast(obs, Distinct(Timestamps(obs)), p);
  }

  /** In the recap of a run, the fee of each profitable day is counted once:
      the per-timestamp mean over that day's profitable INVESTED rows is the
      day's fee. */
  lemma RunFeeCountedOncePerDay(obs: seq<Observation>, p: Setup, r: ResultRow)
    requires p.config.requiredCollateral != 0.0
    requires forall k :: 0 <= k < |obs| ==> obs[k].close != 0.0
    requires r in ProfitableTrades(Run(obs, p))
    ensures CountAt(ProfitableTrades(Run(obs, p)), r.row.timestamp) > 0
    ensures MeanFeeAt(ProfitableTrades(Run(obs, p)), r.row.timestamp) == r.feeAmount
  {
    RunBroadcastsFees(obs, p);
    ProfitableKeepsBroadcast(Run(obs, p));
    MeanOfBroadcastFee(ProfitableTrades(Run(obs, p)), r);
  }
}
