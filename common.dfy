/** Shared vocabulary of the backtester: tokens, error results, the run
    configuration and a few sequence helpers used by every strategy. */
module Common {

  /** Token symbols as they appear in the tables ("BTCUSDT", "USDT", ...). */
  type Token = string

  /** The base currency; its inventory entry is the USD budget. */
  const USDT: Token := "USDT"

  datatype Option<T> = None | Some(value: T)

  /** The ways a run can stop instead of producing a value. */
  datatype Error =
    | ZeroDivision             // a divisor that is zero (or a division producing NaN/inf)
    | MissingKey(key: Token)   // a dictionary lookup that finds nothing
    | EmptyInput               // indexing the first/last element of an empty table
    | ReinvestNotImplemented   // the reinvest mode is refused

  datatype Result<T> = Ok(value: T) | Err(error: Error)

  /** The numeric part of the run configuration. */
  datatype Config = Config(bufferLiquidation: real, requiredCollateral: real, isReinvest: bool)

  /** The defaults of the configuration record: 5% liquidation buffer,
      30% required collateral, no reinvestment. */
  const DefaultConfig: Config := Config(0.05, 0.3, false)

  /** A configuration the allocator can work with: the buffer leaves some
      room and the collateral ratio can be divided by. */
  predicate ValidConfig(c: Config) {
    0.0 <= c.bufferLiquidation < 1.0 && 0.0 < c.requiredCollateral
  }

  /** The defaults are a configuration the allocator can work with. */
  lemma DefaultConfigValid()
    ensures ValidConfig(DefaultConfig) && !DefaultConfig.isReinvest
  {
  }

  /** Trading fee rates; they are not fields of the configuration record, so
      the model takes them explicitly. */
  datatype Fees = Fees(spot: real, taker: real, spotPerp: real)

  /** Componentwise order on fee schedules. */
  predicate FeesAtMost(f: Fees, g: Fees) {
    f.spot <= g.spot && f.taker <= g.taker && f.spotPerp <= g.spotPerp
  }

  function Max(a: real, b: real): (m: real)
    ensures m >= a && m >= b && (m == a || m == b)
  {
    if a >= b then a else b
  }

  predicate NoDuplicates<T(==)>(s: seq<T>) {
    forall i, j :: 0 <= i < j < |s| ==> s[i] != s[j]
  }

  /** A prefix one element longer is the shorter prefix and that element. */
  lemma PrefixSnoc<T>(s: seq<T>, i: int)
    requires 0 <= i < |s|
    ensures s[..i + 1] == s[..i] + [s[i]]
    ensures forall e :: e in s[..i] ==> e in s
  {
  }

  /** The distinct elements of `s` in order of first appearance, as pandas'
      `unique()` returns them. */
  function Distinct<T(==,!new)>(s: seq<T>): (d: seq<T>)
    ensures NoDuplicates(d)
    ensures forall x :: x in d <==> x in s
    ensures |d| <= |s|
  {
    if s == [] then []
    else
      var prefix := Distinct(s[..|s| - 1]);
      if s[|s| - 1] in prefix then prefix else prefix + [s[|s| - 1]]
  }

  /** `a` occurs in `s` before `b` first does. */
  ghost predicate FirstBefore<T>(s: seq<T>, a: T, b: T)
  {
    exists k :: 0 <= k < |s| && s[k] == a && b !in s[..k + 1]
  }

  /** The last element of a non-empty sequence. */
  function Last<T>(s: seq<T>): T
    requires |s| > 0
  {
    s[|s| - 1]
  }

  /** `Distinct` keeps the order of first appearance: of two of its
      elements, the earlier one occurs in `s` before the later one first
      does. */
  lemma {:induction false} DistinctFirstAppearance<T(!new)>(s: seq<T>)
    ensures forall i, j :: 0 <= i < j < |Distinct(s)| ==> FirstBefore(s, Distinct(s)[i], Distinct(s)[j])
  {
    if s != [] {
      var n := |s| - 1;
      var t := s[..n];
      var prefix := Distinct(t);
      var d := Distinct(s);
      DistinctFirstAppearance(t);
      forall i, j | 0 <= i < j < |d|
        ensures FirstBefore(s, d[i], d[j])
      {
        var a, b := prefix[i], d[j];
        assert d[i] == a;
        if j < |prefix| {
          assert b == prefix[j];
          assert FirstBefore(t, a, b);
          var k :| 0 <= k < |t| && t[k] == a && b !in t[..k + 1];
          assert t[..k + 1] == s[..k + 1];
        } else {
          assert b == s[n] && b !in t;
          assert a in prefix;
          var k :| 0 <= k < |t| && t[k] == a;
          assert s[..k + 1] == t[..k + 1];
        }
      }
    }
  }

  /** `x` first occurs in `s` at position `k`, and every value of `s` has
      occurred by then. */
  ghost predicate LastNewAt<T>(s: seq<T>, x: T, k: int)
  {
    0 <= k < |s| && s[k] == x && x !in s[..k] && forall y :: y in s ==> y in s[..k + 1]
  }

  /** Appending a value already seen keeps `LastNewAt`. */
  lemma LastNewAtSnoc<T>(t: seq<T>, v: T, x: T, k: int)
    requires LastNewAt(t, x, k) && v in t
    ensures LastNewAt(t + [v], x, k)
  {
    var s := t + [v];
    assert s[..k] == t[..k] && s[..k + 1] == t[..k + 1];
    forall y | y in s
      ensures y in s[..k + 1]
    {
      assert y in t || y == v;
    }
  }

  /** The last element of `Distinct(s)` is the last value of `s` to appear
      for the first time. */
  lemma {:induction false} DistinctLast<T(!new)>(s: seq<T>)
    requires |s| > 0
    ensures |Distinct(s)| > 0
    ensures exists k :: LastNewAt(s, Last(Distinct(s)), k)
  {
    var n := |s| - 1;
    var t := s[..n];
    assert s == t + [s[n]];
    var prefix := Distinct(t);
    if s[n] in prefix {
      assert Distinct(s) == prefix;
      DistinctLast(t);
      var x := Last(prefix);
      var k :| LastNewAt(t, x, k);
      LastNewAtSnoc(t, s[n], x, k);
    } else {
      assert Distinct(s) == prefix + [s[n]];
      assert Last(Distinct(s)) == s[n];
      assert s[n] !in t;
      assert s[..n + 1] == s && s[..n] == t;
      assert LastNewAt(s, s[n], n);
    }
  }

  /** The last element of `Distinct(s)`: pandas' `unique().tolist()[-1]`,
      the last value of `s` to appear for the first time. */
  function LastDistinct<T(==,!new)>(s: seq<T>): (x: T)
    requires |s| > 0
    ensures exists k :: LastNewAt(s, x, k)
  {
    DistinctLast(s);
    Last(Distinct(s))
  }
}
