/**
 * `estimate_future`: extend a series by repeating its last first difference,
 * scaled by the growth rate each day. The program computes in floating point;
 * the model computes exactly, over `real`.
 */
module Forecast {
  import opened Wrappers

  /** The value that follows `prev`: `prev` plus the difference from `prevprev` times `rate`. */
  function Next(prevprev: real, prev: real, rate: real): real
  {
    prev + (prev - prevprev) * rate
  }

  /** The value appended after `s`. */
  function NextValue(s: seq<real>, rate: real): real
    requires |s| >= 2
  {
    Next(s[|s| - 2], s[|s| - 1], rate)
  }

  /** `data` with `k` extrapolated values appended. */
  function Extended(data: seq<real>, k: nat, rate: real): (r: seq<real>)
    requires k == 0 || |data| >= 2
    ensures |r| == |data| + k
    ensures r[..|data|] == data
  {
    if k == 0 then data
    else
      var before := Extended(data, k - 1, rate);
      before + [NextValue(before, rate)]
  }

  /**
   * The result of `estimate_future(data, k, rate)`: None when the first
   * iteration's `new_data[-1]` or `new_data[-2]` raises IndexError, which is
   * when at least one value is asked for and `data` has fewer than two.
   */
  function Forecast(data: seq<real>, k: nat, rate: real): Option<seq<real>>
  {
    if k > 0 && |data| < 2 then None else Some(Extended(data, k, rate))
  }

  /** The loop of `estimate_future`, appending to a copy of the input. */
  method EstimateFuture(data: seq<real>, k: nat, rate: real) returns (r: Option<seq<real>>)
    ensures r == Forecast(data, k, rate)
  {
    var newData := data;
    var i := 0;
    while i < k
      invariant 0 <= i <= k
      invariant i > 0 ==> |data| >= 2
      invariant newData == Extended(data, i, rate)
    {
      if |newData| < 2 {
        return None;
      }
      ghost var before := newData;
      newData := newData + [newData[|newData| - 1] + (newData[|newData| - 1] - newData[|newData| - 2]) * rate];
      assert NextValue(before, rate) == before[|before| - 1] + (before[|before| - 1] - before[|before| - 2]) * rate;
      assert newData == before + [NextValue(before, rate)];
      i := i + 1;
    }
    return Some(newData);
  }

  /**
   * What a forecast is: the input followed by `k` values, each of which is the
   * previous value plus the previous difference times `rate`; asking for no
   * values gives the input back.
   */
  lemma {:induction false} ForecastShape(data: seq<real>, k: nat, rate: real)
    requires |data| >= 2 || k == 0
    ensures Forecast(data, k, rate).Some?
    ensures var r := Forecast(data, k, rate).value;
      |r| == |data| + k && r[..|data|] == data &&
      (forall i :: |data| <= i < |r| ==> r[i] == Next(r[i - 2], r[i - 1], rate)) &&
      (k == 0 ==> r == data)
  {
    if k > 0 {
      ForecastShape(data, k - 1, rate);
      var before := Extended(data, k - 1, rate);
      var r := Extended(data, k, rate);
      assert r[..|before|] == before;
      forall i | |data| <= i < |r|
        ensures r[i] == Next(r[i - 2], r[i - 1], rate)
      {
        if i < |before| {
          assert r[i] == before[i] && r[i - 1] == before[i - 1] && r[i - 2] == before[i - 2];
        }
      }
    }
  }

  function Pow(x: real, n: nat): real
  {
    if n == 0 then 1.0 else x * Pow(x, n - 1)
  }

  /**
   * The increments grow geometrically: the t-th appended value exceeds the one
   * before it by the input's last difference times rate^t.
   */
  lemma {:induction false} ForecastIncrements(data: seq<real>, k: nat, rate: real, t: nat)
    requires |data| >= 2 && 1 <= t <= k
    ensures var r := Extended(data, k, rate);
      r[|data| - 1 + t] - r[|data| - 2 + t] == (data[|data| - 1] - data[|data| - 2]) * Pow(rate, t)
  {
    var r := Extended(data, k, rate);
    var n := |data|;
    ForecastShape(data, k, rate);
    if t == 1 {
      assert r[n - 1] == data[n - 1] && r[n - 2] == data[n - 2];
    } else {
      ForecastIncrements(data, k, rate, t - 1);
      var step := r[n - 2 + t] - r[n - 3 + t];
      var d, p := data[n - 1] - data[n - 2], Pow(rate, t - 1);
      assert step == d * p;
      calc {
        r[n - 1 + t] - r[n - 2 + t];
        { assert r[n - 1 + t] == Next(r[n - 3 + t], r[n - 2 + t], rate); }
        step * rate;
        (d * p) * rate;
        d * (rate * p);
        d * Pow(rate, t);
      }
    }
  }

  /** The last increment of an extension by k values: the input's last difference times rate^k. */
  lemma LastIncrement(data: seq<real>, k: nat, rate: real)
    requires |data| >= 2 && k >= 1
    ensures var r := Extended(data, k, rate);
      r[|r| - 1] - r[|r| - 2] == (data[|data| - 1] - data[|data| - 2]) * Pow(rate, k)
  {
    ForecastIncrements(data, k, rate, k);
  }

  /** With rate 1 the forecast continues the last difference as a straight line. */
  lemma {:induction false} ForecastLinear(data: seq<real>, k: nat, t: nat)
    requires |data| >= 2 && t <= k
    ensures var r := Extended(data, k, 1.0);
      r[|data| - 1 + t] == data[|data| - 1] + (t as real) * (data[|data| - 1] - data[|data| - 2])
  {
    var r := Extended(data, k, 1.0);
    var n := |data|;
    ForecastShape(data, k, 1.0);
    if t == 0 {
      assert r[n - 1] == data[n - 1];
    } else {
      ForecastLinear(data, k, t - 1);
      assert r[n - 1 + t] == Next(r[n - 3 + t], r[n - 2 + t], 1.0);
      if t == 1 {
        assert r[n - 2] == data[n - 2];
      } else {
        ForecastLinear(data, k, t - 2);
      }
    }
  }

  /** The worked examples: [100, 150] two days ahead, at rate 1 and at rate 2. */
  lemma ForecastExamples()
    ensures Forecast([100.0, 150.0], 2, 1.0) == Some([100.0, 150.0, 200.0, 250.0])
    ensures Forecast([100.0, 150.0], 2, 2.0) == Some([100.0, 150.0, 250.0, 450.0])
  {
    var one := Extended([100.0, 150.0], 1, 1.0);
    assert one == [100.0, 150.0] + [200.0];
    assert Extended([100.0, 150.0], 2, 1.0) == one + [250.0];
    assert one + [250.0] == [100.0, 150.0, 200.0, 250.0];
    assert Forecast([100.0, 150.0], 2, 1.0) == Some(Extended([100.0, 150.0], 2, 1.0));
    var two := Extended([100.0, 150.0], 1, 2.0);
    assert two == [100.0, 150.0] + [250.0];
    assert Extended([100.0, 150.0], 2, 2.0) == two + [450.0];
    assert two + [450.0] == [100.0, 150.0, 250.0, 450.0];
    assert Forecast([100.0, 150.0], 2, 2.0) == Some(Extended([100.0, 150.0], 2, 2.0));
  }
}
