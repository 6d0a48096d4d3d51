/** The best-gain strategy object (strategy/best_gain.py): it walks the days
    of the merged table, and for each day ranks the rows, runs the allocator
    whose running totals are fields of the object, and tags every row with the
    day's verdict and fee; then it rolls the result up into a recap. */
module BestGain {
  import opened Common
  import opened BestGainSpec
  import opened BestGainStats

  class BestGain {
    /** The merged table: funding rows joined with the spot closes. */
    const df: seq<Observation>
    const config: Config
    const fees: Fees
    const inventory: map<Token, real>
    const initQuantity: map<Token, real>
    const haircuts: map<Token, real>

    var result: seq<ResultRow>
    var recap: Option<Recap>

    /** The allocator's running totals. */
    var collateralAvailable: real
    var investedAmount: real
    var collateralPosted: real

    /** The divisors of the valuation are not zero: the collateral ratio and
        every close. */
    ghost predicate NonZeroDivisors() {
      config.requiredCollateral != 0.0 && forall k :: 0 <= k < |df| ==> df[k].close != 0.0
    }

    /** Inputs under which every summed column is non-negative, which is what
        keeps the allocator solvent. */
    ghost predicate NonNegativeInputs() {
      && ValidConfig(config)
      && (USDT in initQuantity ==> initQuantity[USDT] >= 0.0)
      && HaircutsNonNegative(haircuts)
      && forall k :: 0 <= k < |df| ==> WellFormed(df[k])
    }

    /** The parameters of the run as the specification functions take them. */
    function Params(): Setup
      requires USDT in initQuantity
    {
      Setup(inventory, initQuantity[USDT], haircuts, config, fees)
    }

    /** The allocator's running totals as one value. */
    function State(): AllocState
      reads this
    {
      AllocState(collateralAvailable, investedAmount, collateralPosted)
    }

    constructor(df: seq<Observation>, config: Config, fees: Fees, inventory: map<Token, real>,
                initQuantity: map<Token, real>, haircuts: map<Token, real>)
      ensures this.df == df && this.config == config && this.fees == fees
      ensures this.inventory == inventory && this.initQuantity == initQuantity && this.haircuts == haircuts
      ensures result == [] && recap == None
    {
      this.df := df;
      this.config := config;
      this.fees := fees;
      this.inventory := inventory;
      this.initQuantity := initQuantity;
      this.haircuts := haircuts;
      result := [];
      recap := None;
    }

    /** Tags one row and updates the running totals, as the allocation step
        says. */
    method ApplyBestAllocation(row: ValuedRow) returns (action: Action)
      modifies this`collateralAvailable, this`investedAmount, this`collateralPosted
      ensures (action, State()) == Step(old(State()), row, inventory, config.bufferLiquidation)
    {
      if row.token !in inventory {
        return NotOwned;
      }
      var temp := (collateralAvailable - row.collateralValueUsd) * (1.0 - config.bufferLiquidation);
      if temp < investedAmount + row.collateralNeededUsd {
        collateralPosted := collateralPosted + row.collateralValueUsd;
        action := Posted;
      } else {
        collateralAvailable := collateralAvailable - row.collateralValueUsd;
        investedAmount := investedAmount + row.collateralNeededUsd;
        action := Invested;
      }
    }

    /** Runs the allocator over one day's ranked rows, then tags every row
        with the day's verdict and fee. A solvent allocator stays solvent. */
    method ComputeStrategy(ranked: seq<ValuedRow>) returns (day: seq<ResultRow>)
      modifies this`collateralAvailable, this`investedAmount, this`collateralPosted
      ensures var outcome := Allocate(old(State()), ranked, inventory, config.bufferLiquidation);
              State() == outcome.1 && day == Broadcast(ranked, outcome.0, fees)
      ensures Solvent(old(State()), config.bufferLiquidation) ==> Solvent(State(), config.bufferLiquidation)
    {
      ghost var s0 := State();
      var actions: seq<Action> := [];
      var i := 0;
      while i < |ranked|
        invariant 0 <= i <= |ranked|
        invariant (actions, State()) == Allocate(s0, ranked[..i], inventory, config.bufferLiquidation)
        invariant Solvent(s0, config.bufferLiquidation) ==> Solvent(State(), config.bufferLiquidation)
      {
        var action := ApplyBestAllocation(ranked[i]);
        assert ranked[..i + 1][..i] == ranked[..i];
        actions := actions + [action];
        i := i + 1;
        if Solvent(s0, config.bufferLiquidation) {
          AllocateKeepsSolvent(s0, ranked[..i], inventory, config.bufferLiquidation);
        }
      }
      assert ranked[..i] == ranked;
      day := Broadcast(ranked, actions, fees);
    }

    /** Processes one day: values and ranks its rows, resets the allocator
        (nothing posted or invested, the held rows' collateral available),
        and runs it. The allocator ends the day with the day's totals, the
        collateral available equal to the collateral posted, and solvent. */
    method ProcessDay(date: int) returns (day: seq<ResultRow>)
      requires NonZeroDivisors() && USDT in initQuantity && date in Timestamps(df)
      modifies this`collateralAvailable, this`investedAmount, this`collateralPosted
      ensures var dayRows := RowsOn(df, date);
              |dayRows| > 0 && day == DayResult(dayRows, Params())
      ensures State() == DayEnd(df, date, Params())
      ensures collateralAvailable == collateralPosted
      ensures NonNegativeInputs() ==> Solvent(State(), config.bufferLiquidation)
    {
      collateralPosted := 0.0;
      var dayRows := RowsOn(df, date);
      RowsOnNonEmpty(df, date);
      var ranked := Ranked(dayRows, inventory, initQuantity[USDT], haircuts, config);
      collateralAvailable := OwnedCollateral(ranked, inventory);
      investedAmount := 0.0;
      assert State() == InitialState(ranked, inventory);
      if NonNegativeInputs() {
        DayWellFormed(dayRows);
        RankedColumns(dayRows, Params());
        InitialStateSolvent(ranked, inventory, config.bufferLiquidation);
      }
      day := ComputeStrategy(ranked);
      assert ranked == Ranked(dayRows, Params().inventory, Params().initUsdt, Params().haircuts, Params().config);
    }

    /** Processes the given days in order, each on its own; the allocator
        keeps the last day's totals. */
    method ProcessDays(dates: seq<int>) returns (all: seq<ResultRow>)
      requires NonZeroDivisors() && USDT in initQuantity
      requires forall e :: e in dates ==> e in Timestamps(df)
      modifies this`collateralAvailable, this`investedAmount, this`collateralPosted
      ensures all == RunDays(df, dates, Params())
      ensures dates == [] ==> State() == old(State())
      ensures dates != [] ==> State() == DayEnd(df, dates[|dates| - 1], Params())
      ensures dates != [] ==> collateralAvailable == collateralPosted
      ensures dates != [] && NonNegativeInputs() ==> Solvent(State(), config.bufferLiquidation)
    {
      all := [];
      if dates == [] {
        return;
      }
      var i := 0;
      while i < |dates|
        invariant 0 <= i <= |dates|
        invariant all == RunDays(df, dates[..i], Params())
        invariant i > 0 ==> State() == DayEnd(df, dates[i - 1], Params())
        invariant i > 0 && NonNegativeInputs() ==> Solvent(State(), config.bufferLiquidation)
      {
        PrefixSnoc(dates, i);
        RunDaysSnoc(df, dates[..i], dates[i], Params());
        var date := dates[i];
        var day := ProcessDay(date);
        all := all + day;
        i := i + 1;
      }
      assert dates[..i] == dates;
    }

    /** Processes every day in order of first appearance and keeps the rows
        of held tokens. An empty table has no day to concatenate, and the
        first day needs the USDT budget; either stops the run before the
        result is written. */
    method Apply() returns (err: Option<Error>)
      requires NonZeroDivisors()
      modifies this`result, this`collateralAvailable, this`investedAmount, this`collateralPosted
      ensures df == [] ==> err == Some(EmptyInput)
      ensures df != [] && USDT !in initQuantity ==> err == Some(MissingKey(USDT))
      ensures err.None? <==> df != [] && USDT in initQuantity
      ensures err.Some? ==> result == old(result)
      ensures df == [] ==> State() == old(State())
      ensures df != [] && USDT !in initQuantity ==>
                State() == AllocState(old(collateralAvailable), old(investedAmount), 0.0)
      ensures err.None? ==> result == Run(df, Params())
      ensures err.None? ==> State() == DayEnd(df, LastDistinct(Timestamps(df)), Params())
      ensures err.None? ==> collateralAvailable == collateralPosted
      ensures err.None? && NonNegativeInputs() ==> Solvent(State(), config.bufferLiquidation)
    {
      if df == [] {
        return Some(EmptyInput);
      }
      if USDT !in initQuantity {
        collateralPosted := 0.0;
        return Some(MissingKey(USDT));
      }
      var dates := Distinct(Timestamps(df));
      var all := ProcessDays(dates);
      assert Timestamps(df)[0] in dates;
      result := KeepOwned(all, inventory);
      err := None;
    }

    /** Rows drawn from the table are well formed. */
    lemma DayWellFormed(dayRows: seq<Observation>)
      requires NonNegativeInputs()
      requires forall j :: 0 <= j < |dayRows| ==> dayRows[j] in df
      ensures forall j :: 0 <= j < |dayRows| ==> WellFormed(dayRows[j])
    {
      forall j | 0 <= j < |dayRows| ensures WellFormed(dayRows[j]) {
        var m :| 0 <= m < |df| && df[m] == dayRows[j];
      }
    }

    /** Rolls the result up and stores the recap when it can be computed. */
    method ApplyStats() returns (r: Result<Recap>)
      modifies this`recap
      ensures r == Stats(result, inventory)
      ensures recap == (if r.Ok? then Some(r.value) else old(recap))
    {
      r := Stats(result, inventory);
      if r.Ok? {
        recap := Some(r.value);
      }
    }
  }

  /** Every column of every ranked row is non-negative for well-formed
      observations and a valid setup. */
  lemma RankedColumns(day: seq<Observation>, p: Setup)
    requires |day| > 0 && ValidSetup(p)
    requires forall k :: 0 <= k < |day| ==> WellFormed(day[k]) && day[k].close != 0.0
    ensures var ranked := Ranked(day, p.inventory, p.initUsdt, p.haircuts, p.config);
            forall k :: 0 <= k < |ranked| ==> NonNegativeColumns(ranked[k])
  {
    var ranked := Ranked(day, p.inventory, p.initUsdt, p.haircuts, p.config);
    var valued := ValueAll(day, p.inventory, p.haircuts, p.config);
    forall k | 1 <= k < |ranked| ensures NonNegativeColumns(ranked[k]) && ranked[k].close > 0.0 {
      assert ranked[k] == ranked[1..][k - 1];
      assert ranked[k] in multiset(valued);
      var j :| 0 <= j < |valued| && valued[j] == ranked[k];
      ValueColumns(day[j], p.inventory, p.haircuts, p.config);
    }
    UsdtRowColumns(ranked[1], p.initUsdt);
  }
}
