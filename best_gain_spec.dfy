/** The daily greedy allocator of the best-gain strategy
    (strategy/best_gain.py), as functions: row valuation, gain estimate, the
    ranking of a day's rows, the per-row allocation state machine, the day's
    fee and verdict, and the whole run over all days. The class in
    best_gain.dfy executes these steps in place and is proved against them. */
module BestGainSpec {
  import opened Common

  /** A row of the merged funding and spot table: one token at one time. */
  datatype Observation = Observation(
    timestamp: int, token: Token, rateBinance: real, rateBybite: real,
    quantity: real, close: real)

  /** The tag the allocator gives a row. */
  datatype Action = Posted | Invested | NotOwned

  /** A row with its valuation columns. */
  datatype ValuedRow = ValuedRow(
    timestamp: int, token: Token, rateBinance: real, rateBybite: real,
    quantity: real, close: real,
    collateralValue: real, collateralValueUsd: real,
    potentialGain: real, potentialGainUsd: real,
    collateralNeededUsd: real, isUsdtInvest: bool)

  /** A row of the day's outcome: the allocator's tag and the day's verdict
      and fee, which are the same on every row of the day. */
  datatype ResultRow = ResultRow(row: ValuedRow, action: Action, isProfitable: bool, feeAmount: real)

  /** The allocator's per-day state. */
  datatype AllocState = AllocState(available: real, invested: real, posted: real)

  // ---------------------------------------------------------------------
  // Valuation and gain

  /** The token without its four-character quote suffix ("BTCUSDT" gives
      "BTC"); a token shorter than the suffix gives the empty string. */
  function QuoteStripped(t: Token): (r: Token)
    ensures |t| >= 4 ==> t == r + t[|t| - 4..]
    ensures |t| < 4 ==> r == ""
  {
    if |t| >= 4 then t[..|t| - 4] else ""
  }

  /** The key under which the haircut table is consulted: the stripped token
      for a held token; for an unheld token the integer 0, written `None`
      here since no token key can equal it. */
  function HaircutKey(token: Token, inventory: map<Token, real>): Option<Token> {
    if token in inventory then Some(QuoteStripped(token)) else None
  }

  /** The haircut factor: the table's entry under the key, or 1 when there is
      none (so an unheld token is valued at full quantity, not at zero). */
  function Haircut(token: Token, inventory: map<Token, real>, haircuts: map<Token, real>): (h: real)
    ensures token !in inventory ==> h == 1.0
    ensures token in inventory && QuoteStripped(token) !in haircuts ==> h == 1.0
    ensures token in inventory && QuoteStripped(token) in haircuts ==> h == haircuts[QuoteStripped(token)]
  {
    var key := HaircutKey(token, inventory);
    if key.Some? && key.value in haircuts then haircuts[key.value] else 1.0
  }

  /** Estimated funding gain of holding `quantity`: nothing when neither venue
      pays a positive rate, otherwise the quantity at the better rate. Stated
      independently: the quantity times the positive part of the better rate. */
  function PotentialGain(rateBinance: real, rateBybite: real, quantity: real): (g: real)
    ensures g == quantity * Max(0.0, Max(rateBinance, rateBybite))
  {
    if rateBinance <= 0.0 && rateBybite <= 0.0 then 0.0
    else quantity * Max(rateBinance, rateBybite)
  }

  /** The valuation columns of one observation. */
  function Value(o: Observation, inventory: map<Token, real>, haircuts: map<Token, real>, config: Config): ValuedRow
    requires config.requiredCollateral != 0.0
  {
    var collateralValue := o.quantity * Haircut(o.token, inventory, haircuts);
    var gain := PotentialGain(o.rateBinance, o.rateBybite, o.quantity);
    ValuedRow(o.timestamp, o.token, o.rateBinance, o.rateBybite, o.quantity, o.close,
              collateralValue, (collateralValue * o.close) / config.requiredCollateral,
              gain, gain * o.close, o.quantity * o.close, false)
  }

  /** The synthetic USDT row, copied from the top-ranked row: its collateral
      value and need are the USDT budget, its quantity is that budget in units
      of the copied close, and its gain is estimated at the copied rates. */
  function UsdtRow(top: ValuedRow, initUsdt: real): ValuedRow
    requires top.close != 0.0
  {
    var quantity := initUsdt / top.close;
    top.(token := USDT,
         collateralNeededUsd := initUsdt,
         collateralValueUsd := initUsdt,
         quantity := quantity,
         potentialGain := quantity,
         potentialGainUsd := PotentialGain(top.rateBinance, top.rateBybite, quantity) * top.close,
         isUsdtInvest := true)
  }

  /** Input columns the model's arithmetic facts rely on: a held quantity that
      is not negative and a positive close. */
  predicate WellFormed(o: Observation) {
    o.quantity >= 0.0 && o.close > 0.0
  }

  predicate HaircutsNonNegative(haircuts: map<Token, real>) {
    forall t :: t in haircuts ==> haircuts[t] >= 0.0
  }

  /** The three columns the allocator and the fee add up are not negative. */
  predicate NonNegativeColumns(r: ValuedRow) {
    r.collateralValueUsd >= 0.0 && r.potentialGainUsd >= 0.0 && r.collateralNeededUsd >= 0.0
  }

  lemma MulNonNegative(a: real, b: real)
    requires a >= 0.0 && b >= 0.0
    ensures a * b >= 0.0
  {
  }

  lemma DivNonNegative(a: real, b: real)
    requires a >= 0.0 && b > 0.0
    ensures a / b >= 0.0
  {
  }

  /** Valuation of a well-formed row: collateral value at the haircut scaled
      by the required collateral, face value as the need, the gain at the
      close, all non-negative. */
  lemma ValueColumns(o: Observation, inventory: map<Token, real>, haircuts: map<Token, real>, config: Config)
    requires ValidConfig(config) && WellFormed(o) && HaircutsNonNegative(haircuts)
    ensures var r := Value(o, inventory, haircuts, config);
            && r.collateralValueUsd == (o.quantity * Haircut(o.token, inventory, haircuts) * o.close) / config.requiredCollateral
            && r.collateralNeededUsd == o.quantity * o.close
            && r.potentialGainUsd == PotentialGain(o.rateBinance, o.rateBybite, o.quantity) * o.close
            && NonNegativeColumns(r)
  {
    var h := Haircut(o.token, inventory, haircuts);
    assert h >= 0.0;
    ValuationSigns(o.quantity, h, o.close, config.requiredCollateral, Max(0.0, Max(o.rateBinance, o.rateBybite)));
  }

  /** The signs of the valuation's products for a non-negative quantity,
      haircut and rate and a positive close and collateral ratio. */
  lemma ValuationSigns(quantity: real, haircut: real, close: real, required: real, rate: real)
    requires quantity >= 0.0 && haircut >= 0.0 && close > 0.0 && required > 0.0 && rate >= 0.0
    ensures (quantity * haircut * close) / required >= 0.0
    ensures quantity * close >= 0.0
    ensures quantity * rate * close >= 0.0
  {
    MulNonNegative(quantity, haircut);
    MulNonNegative(quantity * haircut, close);
    DivNonNegative(quantity * haircut * close, required);
    MulNonNegative(quantity, close);
    MulNonNegative(quantity, rate);
    MulNonNegative(quantity * rate, close);
  }

  /** The synthetic USDT row earns the better positive rate on the whole
      USDT budget, and its columns are non-negative for a non-negative
      budget. */
  lemma UsdtRowColumns(top: ValuedRow, initUsdt: real)
    requires top.close > 0.0
    ensures var u := UsdtRow(top, initUsdt);
            && u.token == USDT && u.timestamp == top.timestamp
            && u.collateralValueUsd == initUsdt && u.collateralNeededUsd == initUsdt
            && u.potentialGainUsd == initUsdt * Max(0.0, Max(top.rateBinance, top.rateBybite))
            && (initUsdt >= 0.0 ==> NonNegativeColumns(u))
  {
    var m := Max(0.0, Max(top.rateBinance, top.rateBybite));
    var q := initUsdt / top.close;
    calc {
      PotentialGain(top.rateBinance, top.rateBybite, q) * top.close;
      (q * m) * top.close;
      m * (q * top.close);
      { assert q * top.close == initUsdt; }
      m * initUsdt;
    }
    if initUsdt >= 0.0 {
      MulNonNegative(initUsdt, m);
    }
  }

  /** The single-token example: 40 units at 2500 with rates 0.001 and
      -0.0005, full haircut and a 0.3 collateral ratio, give a gain of 0.04
      units, 100 USD of gain, a 100000 USD need and 1000000/3 USD of
      collateral value. */
  lemma SingleTokenExample()
    ensures var o := Observation(0, "TOKA", 0.001, -0.0005, 40.0, 2500.0);
            var r := Value(o, map["TOKA" := 100000.0, USDT := 50000.0], map[], Config(0.1, 0.3, false));
            && r.potentialGain == 0.04 && r.potentialGainUsd == 100.0
            && r.collateralNeededUsd == 100000.0 && r.collateralValueUsd == 1000000.0 / 3.0
  {
  }

  // ---------------------------------------------------------------------
  // Ranking of a day's rows

  /** Rows in non-increasing order of USD gain. */
  predicate NonIncreasing(rows: seq<ValuedRow>) {
    forall i, j :: 0 <= i < j < |rows| ==> rows[i].potentialGainUsd >= rows[j].potentialGainUsd
  }

  /** Places `x` before the first row with a smaller USD gain. */
  function Insert(x: ValuedRow, s: seq<ValuedRow>): seq<ValuedRow> {
    if s == [] || s[0].potentialGainUsd <= x.potentialGainUsd then [x] + s
    else [s[0]] + Insert(x, s[1..])
  }

  /** A row that is `x` or a row of `s` gains no more than `bound` when `x`
      and every row of `s` do not. */
  lemma BoundedByHead(rest: seq<ValuedRow>, x: ValuedRow, s: seq<ValuedRow>, bound: real)
    requires multiset(rest) == multiset(s) + multiset{x}
    requires x.potentialGainUsd <= bound
    requires forall i :: 0 <= i < |s| ==> s[i].potentialGainUsd <= bound
    ensures forall j :: 0 <= j < |rest| ==> rest[j].potentialGainUsd <= bound
  {
    forall j | 0 <= j < |rest| ensures rest[j].potentialGainUsd <= bound {
      assert rest[j] in multiset(rest);
      if rest[j] != x {
        assert rest[j] in multiset(s);
        var i :| 0 <= i < |s| && s[i] == rest[j];
      }
    }
  }

  lemma {:induction false} InsertPermutes(x: ValuedRow, s: seq<ValuedRow>)
    ensures multiset(Insert(x, s)) == multiset(s) + multiset{x}
  {
    if s != [] && s[0].potentialGainUsd > x.potentialGainUsd {
      assert s == [s[0]] + s[1..];
      InsertPermutes(x, s[1..]);
    }
  }

  lemma {:induction false} InsertKeepsOrder(x: ValuedRow, s: seq<ValuedRow>)
    requires NonIncreasing(s)
    ensures NonIncreasing(Insert(x, s))
  {
    if s == [] {
    } else if s[0].potentialGainUsd > x.potentialGainUsd {
      var tail := s[1..];
      var rest := Insert(x, tail);
      InsertKeepsOrder(x, tail);
      InsertPermutes(x, tail);
      BoundedByHead(rest, x, tail, s[0].potentialGainUsd);
      var r := [s[0]] + rest;
      assert r == Insert(x, s);
      forall i, j | 0 <= i < j < |r| ensures r[i].potentialGainUsd >= r[j].potentialGainUsd {
        if i == 0 {
          assert r[j] == rest[j - 1];
        } else {
          assert r[i] == rest[i - 1] && r[j] == rest[j - 1];
        }
      }
    } else {
      var r := [x] + s;
      assert r == Insert(x, s);
      forall i, j | 0 <= i < j < |r| ensures r[i].potentialGainUsd >= r[j].potentialGainUsd {
        if i == 0 {
          assert r[j] == s[j - 1];
        } else {
          assert r[i] == s[i - 1] && r[j] == s[j - 1];
        }
      }
    }
  }

  /** The day's rows ranked by USD gain, richest first. Ties are broken by
      input order here; the properties below hold for any non-increasing
      permutation. */
  function SortByGain(rows: seq<ValuedRow>): (r: seq<ValuedRow>)
    ensures NonIncreasing(r)
    ensures multiset(r) == multiset(rows)
  {
    if rows == [] then []
    else
      assert rows == [rows[0]] + rows[1..];
      InsertKeepsOrder(rows[0], SortByGain(rows[1..]));
      InsertPermutes(rows[0], SortByGain(rows[1..]));
      Insert(rows[0], SortByGain(rows[1..]))
  }

  function RowsOn(obs: seq<Observation>, date: int): (day: seq<Observation>)
    ensures forall k :: 0 <= k < |day| ==> day[k].timestamp == date && day[k] in obs
    ensures forall o :: o in obs && o.timestamp == date ==> o in day
  {
    if obs == [] then []
    else
      var prefix := RowsOn(obs[..|obs| - 1], date);
      var last := obs[|obs| - 1];
      assert forall o :: o in obs ==> o in obs[..|obs| - 1] || o == last;
      if last.timestamp == date then prefix + [last] else prefix
  }

  /** `RowsOn` keeps every row of the day as often as it occurs and no
      other row. */
  lemma {:induction false} RowsOnCount(obs: seq<Observation>, date: int)
    ensures forall o :: multiset(RowsOn(obs, date))[o] == if o.timestamp == date then multiset(obs)[o] else 0
  {
    if obs != [] {
      var n := |obs| - 1;
      RowsOnCount(obs[..n], date);
      assert obs == obs[..n] + [obs[n]];
    }
  }

  function ValueAll(day: seq<Observation>, inventory: map<Token, real>, haircuts: map<Token, real>, config: Config)
    : (rows: seq<ValuedRow>)
    requires config.requiredCollateral != 0.0
    ensures |rows| == |day|
    ensures forall k :: 0 <= k < |day| ==> rows[k] == Value(day[k], inventory, haircuts, config)
  {
    seq(|day|, k requires 0 <= k < |day| => Value(day[k], inventory, haircuts, config))
  }

  /** The day's processing order: the synthetic USDT row built from the
      top-ranked row, then the rows in non-increasing USD gain. */
  function Ranked(day: seq<Observation>, inventory: map<Token, real>, initUsdt: real,
                  haircuts: map<Token, real>, config: Config): (ranked: seq<ValuedRow>)
    requires |day| > 0 && config.requiredCollateral != 0.0
    requires forall k :: 0 <= k < |day| ==> day[k].close != 0.0
    ensures |ranked| == |day| + 1
    ensures ranked[0].token == USDT && ranked[0].isUsdtInvest
    ensures ranked[0].collateralValueUsd == initUsdt && ranked[0].collateralNeededUsd == initUsdt
    ensures NonIncreasing(ranked[1..])
    ensures multiset(ranked[1..]) == multiset(ValueAll(day, inventory, haircuts, config))
    ensures forall k :: 1 <= k < |ranked| ==> ranked[k].close != 0.0
    ensures ranked[0] == UsdtRow(ranked[1], initUsdt)
  {
    var valued := ValueAll(day, inventory, haircuts, config);
    var sorted := SortByGain(valued);
    assert |sorted| == |multiset(sorted)| == |valued|;
    forall k | 0 <= k < |sorted| ensures sorted[k].close != 0.0 {
      assert sorted[k] in multiset(valued);
      var j :| 0 <= j < |valued| && valued[j] == sorted[k];
    }
    var ranked := [UsdtRow(sorted[0], initUsdt)] + sorted;
    assert ranked[1..] == sorted;
    ranked
  }

  // ---------------------------------------------------------------------
  // The allocation state machine

  /** One allocation step. An unheld token is NOT OWNED and changes nothing.
      Otherwise the row is INVESTED when, after committing its collateral and
      reserving the liquidation buffer, what remains still covers everything
      invested including this row's need; else it is POSTED. */
  function Step(s: AllocState, row: ValuedRow, inventory: map<Token, real>, buffer: real): (r: (Action, AllocState))
    ensures r.0 == NotOwned <==> row.token !in inventory
    ensures r.0 == NotOwned ==> r.1 == s
    ensures r.0 == Posted ==> r.1 == s.(posted := s.posted + row.collateralValueUsd)
    ensures r.0 == Invested ==>
              r.1 == s.(available := s.available - row.collateralValueUsd,
                        invested := s.invested + row.collateralNeededUsd)
    ensures r.0 == Invested <==>
              row.token in inventory &&
              (s.available - row.collateralValueUsd) * (1.0 - buffer) >= s.invested + row.collateralNeededUsd
  {
    if row.token !in inventory then (NotOwned, s)
    else if (s.available - row.collateralValueUsd) * (1.0 - buffer) < s.invested + row.collateralNeededUsd then
      (Posted, s.(posted := s.posted + row.collateralValueUsd))
    else
      (Invested, s.(available := s.available - row.collateralValueUsd,
                    invested := s.invested + row.collateralNeededUsd))
  }

  /** The allocator run over `rows` in order from state `s0`: the tags and the
      final state. */
  function Allocate(s0: AllocState, rows: seq<ValuedRow>, inventory: map<Token, real>, buffer: real)
    : (r: (seq<Action>, AllocState))
    ensures |r.0| == |rows|
  {
    if rows == [] then ([], s0)
    else
      var before := Allocate(s0, rows[..|rows| - 1], inventory, buffer);
      var step := Step(before.1, rows[|rows| - 1], inventory, buffer);
      (before.0 + [step.0], step.1)
  }

  /** The allocator's safety invariant: the available collateral, less the
      liquidation buffer, covers what is invested. */
  predicate Solvent(s: AllocState, buffer: real) {
    s.available * (1.0 - buffer) >= s.invested
  }

  /** Every step keeps the allocator solvent. */
  lemma {:induction false} AllocateKeepsSolvent(s0: AllocState, rows: seq<ValuedRow>, inventory: map<Token, real>, buffer: real)
    requires Solvent(s0, buffer)
    ensures Solvent(Allocate(s0, rows, inventory, buffer).1, buffer)
  {
    if rows != [] {
      AllocateKeepsSolvent(s0, rows[..|rows| - 1], inventory, buffer);
    }
  }

  /** A column of a valued row. */
  datatype Column = CollateralValueUsd | PotentialGainUsd | CollateralNeededUsd

  function Col(r: ValuedRow, c: Column): real {
    match c
    case CollateralValueUsd => r.collateralValueUsd
    case PotentialGainUsd => r.potentialGainUsd
    case CollateralNeededUsd => r.collateralNeededUsd
  }

  /** The sum of column `c` over the rows tagged `a`. */
  function SumWhere(rows: seq<ValuedRow>, actions: seq<Action>, a: Action, c: Column): real
    requires |rows| == |actions|
  {
    if rows == [] then 0.0
    else
      var n := |rows| - 1;
      SumWhere(rows[..n], actions[..n], a, c) + (if actions[n] == a then Col(rows[n], c) else 0.0)
  }

  lemma {:induction false} SumWhereNonNegative(rows: seq<ValuedRow>, actions: seq<Action>, a: Action, c: Column)
    requires |rows| == |actions|
    requires forall k :: 0 <= k < |rows| ==> NonNegativeColumns(rows[k])
    ensures SumWhere(rows, actions, a, c) >= 0.0
  {
    if rows != [] {
      SumWhereNonNegative(rows[..|rows| - 1], actions[..|rows| - 1], a, c);
    }
  }

  /** The collateral value of the held rows: the day's starting available
      collateral. */
  function OwnedCollateral(rows: seq<ValuedRow>, inventory: map<Token, real>): real {
    if rows == [] then 0.0
    else
      var n := |rows| - 1;
      OwnedCollateral(rows[..n], inventory) + (if rows[n].token in inventory then rows[n].collateralValueUsd else 0.0)
  }

  /** The state a day starts from. */
  function InitialState(rows: seq<ValuedRow>, inventory: map<Token, real>): AllocState {
    AllocState(OwnedCollateral(rows, inventory), 0.0, 0.0)
  }

  lemma {:induction false} OwnedCollateralNonNegative(rows: seq<ValuedRow>, inventory: map<Token, real>)
    requires forall k :: 0 <= k < |rows| ==> NonNegativeColumns(rows[k])
    ensures OwnedCollateral(rows, inventory) >= 0.0
  {
    if rows != [] {
      OwnedCollateralNonNegative(rows[..|rows| - 1], inventory);
    }
  }

  /** A day starts solvent: nothing is invested and the available collateral
      is not negative. */
  lemma InitialStateSolvent(rows: seq<ValuedRow>, inventory: map<Token, real>, buffer: real)
    requires 0.0 <= buffer < 1.0
    requires forall k :: 0 <= k < |rows| ==> NonNegativeColumns(rows[k])
    ensures Solvent(InitialState(rows, inventory), buffer)
  {
    OwnedCollateralNonNegative(rows, inventory);
    MulNonNegative(OwnedCollateral(rows, inventory), 1.0 - buffer);
  }

  /** What the allocator's state accounts for: an unheld token is exactly a
      NOT OWNED row; the available collateral drops by the INVESTED rows'
      collateral value; the invested amount grows by their need; the posted
      collateral grows by the POSTED rows' collateral value. */
  lemma {:induction false} AllocateAccounts(s0: AllocState, rows: seq<ValuedRow>, inventory: map<Token, real>, buffer: real)
    ensures var r := Allocate(s0, rows, inventory, buffer);
            && (forall k :: 0 <= k < |rows| ==> (r.0[k] == NotOwned <==> rows[k].token !in inventory))
            && r.1.available == s0.available - SumWhere(rows, r.0, Invested, CollateralValueUsd)
            && r.1.invested == s0.invested + SumWhere(rows, r.0, Invested, CollateralNeededUsd)
            && r.1.posted == s0.posted + SumWhere(rows, r.0, Posted, CollateralValueUsd)
  {
    if rows != [] {
      var n := |rows| - 1;
      AllocateAccounts(s0, rows[..n], inventory, buffer);
      var r := Allocate(s0, rows, inventory, buffer);
      var before := Allocate(s0, rows[..n], inventory, buffer);
      assert r.0[..n] == before.0;
      assert rows[..n][..n] == rows[..n];
      forall k | 0 <= k < n ensures r.0[k] == before.0[k] && rows[k] == rows[..n][k] {
      }
    }
  }

  /** Every held row is either POSTED or INVESTED: their collateral values
      add up to the held collateral. */
  lemma {:induction false} HeldRowsPartition(rows: seq<ValuedRow>, actions: seq<Action>, inventory: map<Token, real>)
    requires |rows| == |actions|
    requires forall k :: 0 <= k < |rows| ==> (actions[k] == NotOwned <==> rows[k].token !in inventory)
    ensures SumWhere(rows, actions, Invested, CollateralValueUsd) + SumWhere(rows, actions, Posted, CollateralValueUsd)
            == OwnedCollateral(rows, inventory)
  {
    if rows != [] {
      var n := |rows| - 1;
      HeldRowsPartition(rows[..n], actions[..n], inventory);
    }
  }

  /** At the end of a day the collateral still available is exactly the
      collateral posted. */
  lemma DayEndsWithAvailableEqualToPosted(rows: seq<ValuedRow>, inventory: map<Token, real>, buffer: real)
    ensures var r := Allocate(InitialState(rows, inventory), rows, inventory, buffer);
            r.1.available == r.1.posted
  {
    var s0 := InitialState(rows, inventory);
    AllocateAccounts(s0, rows, inventory, buffer);
    HeldRowsPartition(rows, Allocate(s0, rows, inventory, buffer).0, inventory);
  }

  // ---------------------------------------------------------------------
  // The day's fee and verdict

  /** The day's fee: a round trip of the spot fee on the POSTED collateral,
      the taker fee on the INVESTED gain, and a round trip of the spot-perp
      fee on the INVESTED need. */
  function DayFee(rows: seq<ValuedRow>, actions: seq<Action>, fees: Fees): real
    requires |rows| == |actions|
  {
    2.0 * (SumWhere(rows, actions, Posted, CollateralValueUsd) * fees.spot)
    + SumWhere(rows, actions, Invested, PotentialGainUsd) * fees.taker
    + 2.0 * (SumWhere(rows, actions, Invested, CollateralNeededUsd) * fees.spotPerp)
  }

  /** The day is profitable when the INVESTED gain strictly exceeds the fee. */
  predicate DayProfitable(rows: seq<ValuedRow>, actions: seq<Action>, fees: Fees)
    requires |rows| == |actions|
  {
    SumWhere(rows, actions, Invested, PotentialGainUsd) > DayFee(rows, actions, fees)
  }

  lemma MulMonotone(x: real, a: real, b: real)
    requires x >= 0.0 && a <= b
    ensures x * a <= x * b
  {
  }

  lemma WeightedSumMonotone(a: real, b: real, c: real, a': real, b': real, c': real)
    requires a <= a' && b <= b' && c <= c'
    ensures 2.0 * a + b + 2.0 * c <= 2.0 * a' + b' + 2.0 * c'
  {
  }

  /** With the allocation fixed, raising fee rates never lowers the fee and
      never turns an unprofitable day into a profitable one. */
  lemma FeeMonotone(rows: seq<ValuedRow>, actions: seq<Action>, f: Fees, g: Fees)
    requires |rows| == |actions|
    requires forall k :: 0 <= k < |rows| ==> NonNegativeColumns(rows[k])
    requires FeesAtMost(f, g)
    ensures DayFee(rows, actions, f) <= DayFee(rows, actions, g)
    ensures DayProfitable(rows, actions, g) ==> DayProfitable(rows, actions, f)
  {
    SumWhereNonNegative(rows, actions, Posted, CollateralValueUsd);
    SumWhereNonNegative(rows, actions, Invested, PotentialGainUsd);
    SumWhereNonNegative(rows, actions, Invested, CollateralNeededUsd);
    var posted := SumWhere(rows, actions, Posted, CollateralValueUsd);
    var gain := SumWhere(rows, actions, Invested, PotentialGainUsd);
    var needed := SumWhere(rows, actions, Invested, CollateralNeededUsd);
    MulMonotone(posted, f.spot, g.spot);
    MulMonotone(gain, f.taker, g.taker);
    MulMonotone(needed, f.spotPerp, g.spotPerp);
    assert DayFee(rows, actions, f) == 2.0 * (posted * f.spot) + gain * f.taker + 2.0 * (needed * f.spotPerp);
    assert DayFee(rows, actions, g) == 2.0 * (posted * g.spot) + gain * g.taker + 2.0 * (needed * g.spotPerp);
    WeightedSumMonotone(posted * f.spot, gain * f.taker, needed * f.spotPerp,
                        posted * g.spot, gain * g.taker, needed * g.spotPerp);
  }

  /** The day's rows tagged, with the day's verdict and fee on every one. */
  function Broadcast(rows: seq<ValuedRow>, actions: seq<Action>, fees: Fees): (out: seq<ResultRow>)
    requires |rows| == |actions|
    ensures |out| == |rows|
    ensures forall k :: 0 <= k < |rows| ==>
              out[k] == ResultRow(rows[k], actions[k], DayProfitable(rows, actions, fees), DayFee(rows, actions, fees))
  {
    var verdict := DayProfitable(rows, actions, fees);
    var fee := DayFee(rows, actions, fees);
    seq(|rows|, k requires 0 <= k < |rows| => ResultRow(rows[k], actions[k], verdict, fee))
  }

  // ---------------------------------------------------------------------
  // The run over all days

  /** The parameters of a run. */
  datatype Setup = Setup(inventory: map<Token, real>, initUsdt: real, haircuts: map<Token, real>,
                         config: Config, fees: Fees)

  predicate ValidSetup(p: Setup) {
    ValidConfig(p.config) && p.initUsdt >= 0.0 && HaircutsNonNegative(p.haircuts)
  }

  /** One day's outcome, from that day's observations only and from a fresh
      allocator state. */
  function DayResult(day: seq<Observation>, p: Setup): (out: seq<ResultRow>)
    requires |day| > 0 && p.config.requiredCollateral != 0.0
    requires forall k :: 0 <= k < |day| ==> day[k].close != 0.0
  {
    var ranked := Ranked(day, p.inventory, p.initUsdt, p.haircuts, p.config);
    var actions := Allocate(InitialState(ranked, p.inventory), ranked, p.inventory, p.config.bufferLiquidation).0;
    Broadcast(ranked, actions, p.fees)
  }

  function Timestamps(obs: seq<Observation>): (ts: seq<int>)
    ensures |ts| == |obs| && forall k :: 0 <= k < |obs| ==> ts[k] == obs[k].timestamp
  {
    seq(|obs|, k requires 0 <= k < |obs| => obs[k].timestamp)
  }

  /** The days' outcomes concatenated in the order of `dates`. */
  function RunDays(obs: seq<Observation>, dates: seq<int>, p: Setup): seq<ResultRow>
    requires p.config.requiredCollateral != 0.0
    requires forall k :: 0 <= k < |obs| ==> obs[k].close != 0.0
    requires forall d :: d in dates ==> d in Timestamps(obs)
  {
    if dates == [] then []
    else
      var d := dates[|dates| - 1];
      assert d in Timestamps(obs);
      RowsOnNonEmpty(obs, d);
      RunDays(obs, dates[..|dates| - 1], p) + DayResult(RowsOn(obs, d), p)
  }

  /** The allocator's totals at the end of `date`: that day's rows ranked
      and allocated from a fresh state. The collateral still available is
      then the collateral posted. */
  function DayEnd(obs: seq<Observation>, date: int, p: Setup): (s: AllocState)
    requires p.config.requiredCollateral != 0.0
    requires forall k :: 0 <= k < |obs| ==> obs[k].close != 0.0
    requires date in Timestamps(obs)
    ensures s.available == s.posted
  {
    RowsOnNonEmpty(obs, date);
    var ranked := Ranked(RowsOn(obs, date), p.inventory, p.initUsdt, p.haircuts, p.config);
    DayEndsWithAvailableEqualToPosted(ranked, p.inventory, p.config.bufferLiquidation);
    Allocate(InitialState(ranked, p.inventory), ranked, p.inventory, p.config.bufferLiquidation).1
  }

  /** A timestamp of the table has at least one row. */
  lemma RowsOnNonEmpty(obs: seq<Observation>, date: int)
    requires date in Timestamps(obs)
    ensures |RowsOn(obs, date)| > 0
  {
    var k :| 0 <= k < |obs| && obs[k].timestamp == date;
    assert obs[k] in RowsOn(obs, date);
  }

  /** Running one more day appends that day's outcome. */
  lemma RunDaysSnoc(obs: seq<Observation>, dates: seq<int>, d: int, p: Setup)
    requires p.config.requiredCollateral != 0.0
    requires forall k :: 0 <= k < |obs| ==> obs[k].close != 0.0
    requires forall e :: e in dates ==> e in Timestamps(obs)
    requires d in Timestamps(obs)
    ensures |RowsOn(obs, d)| > 0
    ensures RunDays(obs, dates + [d], p) == RunDays(obs, dates, p) + DayResult(RowsOn(obs, d), p)
  {
    assert (dates + [d])[..|dates|] == dates;
    RowsOnNonEmpty(obs, d);
  }

  /** The rows of held tokens, in order. */
  function KeepOwned(rows: seq<ResultRow>, inventory: map<Token, real>): (out: seq<ResultRow>)
    ensures forall r :: r in out <==> r in rows && r.row.token in inventory
  {
    if rows == [] then []
    else
      var prefix := KeepOwned(rows[..|rows| - 1], inventory);
      var last := rows[|rows| - 1];
      assert forall r :: r in rows <==> r in rows[..|rows| - 1] || r == last;
      if last.row.token in inventory then prefix + [last] else prefix
  }

  /** `KeepOwned` keeps every row of an owned token as often as it occurs
      and no other row. */
  lemma {:induction false} KeepOwnedCount(rows: seq<ResultRow>, inventory: map<Token, real>)
    ensures forall r :: multiset(KeepOwned(rows, inventory))[r] ==
                        if r.row.token in inventory then multiset(rows)[r] else 0
  {
    if rows != [] {
      var n := |rows| - 1;
      KeepOwnedCount(rows[..n], inventory);
      assert rows == rows[..n] + [rows[n]];
    }
  }

  /** The result of a run: every day in order of first appearance, each from
      its own rows, with the NOT OWNED rows dropped. */
  function Run(obs: seq<Observation>, p: Setup): seq<ResultRow>
    requires p.config.requiredCollateral != 0.0
    requires forall k :: 0 <= k < |obs| ==> obs[k].close != 0.0
  {
    KeepOwned(RunDays(obs, Distinct(Timestamps(obs)), p), p.inventory)
  }
}
