/**
 * The arithmetic of `draw_graph` and `update_window`: which days a chart shows
 * after the rewind slider and the "display days" setting, the "up" figure and
 * the peak in its title, the date range above the grid, and which chosen
 * location goes into which of the rows * cols chart slots. The drawing itself
 * is not modelled; a chart is described by the numbers it shows.
 */
module Display {
  import opened Wrappers
  import Aggregate
  import Forecast

  // ---------------------------------------------------------------------------
  // Rewind and window

  /** `values[:-s]` when `s` is non-zero: the last `s` days dropped (all of them when s >= |values|). */
  function Rewind<T>(values: seq<T>, s: nat): seq<T>
  {
    if s == 0 then values else if s < |values| then values[..|values| - s] else []
  }

  function RewoundLength(n: nat, s: nat): nat
  {
    if s < n then n - s else 0
  }

  /** `draw_graph`'s `start`: n - w, or 0 when that is negative or the setting is 0 (show all). */
  function WindowStart(n: nat, w: int): int
  {
    if n - w < 0 || w == 0 then 0 else n - w
  }

  /** How many of `n` values the window keeps. */
  function WindowLength(n: nat, w: int): nat
  {
    if w == 0 || w >= n then n else if w < 0 then 0 else w
  }

  /** `values[start:]`, which is empty when `start` lies past the end (a negative setting). */
  function Visible<T>(values: seq<T>, w: int): seq<T>
  {
    var start := WindowStart(|values|, w);
    if start <= |values| then values[start..] else []
  }

  /** Rewinding keeps a prefix: every day but the last `s`. */
  lemma RewindShape<T>(values: seq<T>, s: nat)
    ensures |Rewind(values, s)| == RewoundLength(|values|, s)
    ensures Rewind(values, s) == values[..RewoundLength(|values|, s)]
  {
  }

  /**
   * The window keeps a suffix: the last `w` values, all of them when `w` is 0
   * or at least the length, none when `w` is negative.
   */
  lemma VisibleShape<T>(values: seq<T>, w: int)
    ensures |Visible(values, w)| == WindowLength(|values|, w)
    ensures Visible(values, w) == values[|values| - WindowLength(|values|, w)..]
  {
  }

  /** The first index of the values a chart shows after rewind `s` and window `w`. */
  function VisibleFrom(n: nat, s: nat, w: int): nat
  {
    RewoundLength(n, s) - WindowLength(RewoundLength(n, s), w)
  }

  /**
   * Rewind then window keeps one contiguous run of days, the same run for any
   * series of the same length: it ends `s` days before the last day and holds
   * at most `w` days (all remaining days when `w` is 0).
   */
  lemma WindowIndices<T>(values: seq<T>, s: nat, w: int)
    ensures Visible(Rewind(values, s), w) == values[VisibleFrom(|values|, s, w)..RewoundLength(|values|, s)]
    ensures s == 0 && w == 0 ==> Visible(Rewind(values, s), w) == values
  {
    RewindShape(values, s);
    VisibleShape(Rewind(values, s), w);
  }

  // ---------------------------------------------------------------------------
  // The chart title

  /**
   * "up": the last value minus the one before, or 0 when the subtraction or
   * the percentage computed with it fails (fewer than two values, or a zero
   * divisor). It is taken before the window is applied.
   */
  function Up(values: seq<real>): real
  {
    if |values| < 2 || values[|values| - 2] == 0.0 then 0.0
    else values[|values| - 1] - values[|values| - 2]
  }

  /** Python's `max(values)`: None where it raises ValueError on an empty sequence. */
  function Peak(values: seq<real>): (m: Option<real>)
    ensures m.Some? <==> |values| > 0
  {
    if values == [] then None
    else match Peak(values[1..])
      case None => Some(values[0])
      case Some(rest) => Some(if values[0] >= rest then values[0] else rest)
  }

  /** The peak is one of the values and no value exceeds it. */
  lemma {:induction false} PeakIsMax(values: seq<real>)
    requires |values| > 0
    ensures Peak(values).value in values
    ensures forall i :: 0 <= i < |values| ==> values[i] <= Peak(values).value
  {
    if |values| > 1 {
      PeakIsMax(values[1..]);
      forall i | 1 <= i < |values|
        ensures values[i] <= Peak(values).value
      {
        assert values[i] == values[1..][i - 1];
      }
    }
  }

  datatype Summary = Summary(up: real, peak: real, bars: seq<real>)

  datatype DisplayError =
    | MissingHeader           // no ("Header", "") entry
    | DateOutOfRange          // a date label index outside the header
    | NoTotal(location: string) // no (location, "Total") series
    | EmptyGraph              // max() of an empty window
    | NothingChosen           // `starting_graph = i+1` with `i` never bound
    | ForecastTooShort        // estimate_future on fewer than two values

  /** What `draw_graph` shows for `values`: the title's figures and the bars of the window. */
  function DrawGraph(values: seq<real>, w: int): Result<Summary, DisplayError>
  {
    var bars := Visible(values, w);
    match Peak(bars)
    case None => Failure(EmptyGraph)
    case Some(top) => Success(Summary(Up(values), top, bars))
  }

  /**
   * A chart is drawn exactly when its window is not empty; its bars are the
   * last `w` values (all of them for 0), its peak is the largest bar, and its
   * "up" is the last difference of the whole series, which is also the last
   * difference of the bars whenever two bars are shown.
   */
  lemma GraphSummary(values: seq<real>, w: int)
    ensures DrawGraph(values, w).Success? <==> |values| > 0 && w >= 0
    ensures DrawGraph(values, w).Success? ==>
      var g := DrawGraph(values, w).value;
      g.bars == values[|values| - WindowLength(|values|, w)..] &&
      g.peak in g.bars && (forall i :: 0 <= i < |g.bars| ==> g.bars[i] <= g.peak) &&
      (|values| >= 2 && values[|values| - 2] != 0.0 ==> g.up == values[|values| - 1] - values[|values| - 2]) &&
      (|values| < 2 || values[|values| - 2] == 0.0 ==> g.up == 0.0) &&
      (|g.bars| >= 2 ==> g.up == Up(g.bars))
  {
    var bars := Visible(values, w);
    VisibleShape(values, w);
    if |bars| > 0 {
      PeakIsMax(bars);
    }
    if |bars| >= 2 {
      var n, m := |values|, |bars|;
      assert bars[m - 1] == values[n - 1] && bars[m - 2] == values[n - 2];
      assert Up(bars) == Up(values);
    }
  }

  // ---------------------------------------------------------------------------
  // The date range above the grid

  /**
   * `update_window`'s date label as written: the end label is header[-(s+1)] and the start
   * label header[n - w - (s+1)] (or header[0]); None where an index raises.
   */
  function DateLabelsAsWritten(header: seq<string>, s: nat, w: int): Option<(string, string)>
  {
    var n := |header|;
    if s + 1 > n then None
    else
      var start := if n - w - (s + 1) < 0 || w == 0 then 0 else n - w - (s + 1);
      if start >= n then None else Some((header[start], header[n - (s + 1)]))
  }

  /** The date range of the days the charts show: the labels of the first and last visible day. */
  function DateLabels(header: seq<string>, s: nat, w: int): Option<(string, string)>
  {
    var days := Visible(Rewind(header, s), w);
    if days == [] then None else Some((days[0], days[|days| - 1]))
  }

  /** The date range names the first and the last day that every chart of the same length shows. */
  lemma DateLabelsMatchBars(header: seq<string>, s: nat, w: int)
    ensures var lo, hi := VisibleFrom(|header|, s, w), RewoundLength(|header|, s);
      DateLabels(header, s, w) == if lo < hi then Some((header[lo], header[hi - 1])) else None
  {
    WindowIndices(header, s, w);
  }

  /**
   * As written, the start label is one day before the first shown day whenever
   * the window is shorter than the rewound series.
   */
  lemma DateLabelsAsWrittenOffByOne(header: seq<string>, s: nat, w: int)
    requires 0 < w && s + w < |header|
    ensures var lo, hi := VisibleFrom(|header|, s, w), RewoundLength(|header|, s);
      lo >= 1 && DateLabelsAsWritten(header, s, w) == Some((header[lo - 1], header[hi - 1]))
  {
  }

  /** The smallest case: three days, no rewind, a two-day window. */
  lemma DateLabelsCounterexample()
    ensures DateLabelsAsWritten(["1/22/20", "1/23/20", "1/24/20"], 0, 2) == Some(("1/22/20", "1/24/20"))
    ensures DateLabels(["1/22/20", "1/23/20", "1/24/20"], 0, 2) == Some(("1/23/20", "1/24/20"))
  {
    var header := ["1/22/20", "1/23/20", "1/24/20"];
    VisibleShape(header, 2);
    assert Visible(Rewind(header, 0), 2) == header[1..];
  }

  // ---------------------------------------------------------------------------
  // The grid of charts

  datatype Panel = Panel(slot: int, location: string, futureDays: nat, summary: Summary)

  datatype Screen = Screen(firstDate: string, lastDate: string, panels: seq<Panel>)

  function AsReals(s: seq<int>): (r: seq<real>)
    ensures |r| == |s| && forall i :: 0 <= i < |s| ==> r[i] == s[i] as real
  {
    if s == [] then [] else [s[0] as real] + AsReals(s[1..])
  }

  /** `loc_data_dict[(loc, 'Total')]`, or the KeyError. */
  function TotalsOf(table: map<Aggregate.Key, Aggregate.Entry>, loc: string): Result<seq<real>, DisplayError>
  {
    var k := Aggregate.Key(loc, Aggregate.TotalRegion);
    if k in table && table[k].Counts? then Success(AsReals(table[k].counts)) else Failure(NoTotal(loc))
  }

  /** The chart `update_window`'s first loop draws for one chosen location. */
  function ActualChart(table: map<Aggregate.Key, Aggregate.Entry>, loc: string, s: nat, w: int)
    : Result<Summary, DisplayError>
  {
    var totals :- TotalsOf(table, loc);
    DrawGraph(Rewind(totals, s), w)
  }

  /** The chart `update_window`'s forecast loop draws for one chosen location; it ignores the rewind. */
  function ForecastChart(table: map<Aggregate.Key, Aggregate.Entry>, loc: string, days: nat, rate: real, w: int)
    : Result<Summary, DisplayError>
  {
    var totals :- TotalsOf(table, loc);
    match Forecast.Forecast(totals, days, rate)
    case None => Failure(ForecastTooShort)
    case Some(estimate) => DrawGraph(estimate, w)
  }

  /** How many chosen locations get a chart: the loop stops at the first index that is >= rows * cols. */
  function ShownCount(n: nat, capacity: int): nat
  {
    if capacity <= 0 then 0 else if n < capacity then n else capacity
  }

  /** `starting_graph = i + 1` after the first loop, for a non-empty choice. */
  function NextSlot(n: nat, capacity: int): nat
    requires n > 0
  {
    if n > ShownCount(n, capacity) then ShownCount(n, capacity) + 1 else n
  }

  /** How many forecast charts fit from slot `start` on. */
  function ForecastCount(n: nat, start: nat, capacity: int): nat
  {
    if start >= capacity then 0 else if n < capacity - start then n else capacity - start
  }

  /** What is drawn for one location, or the error raised drawing it. */
  type Chart = string -> Result<Summary, DisplayError>

  /** The chart of each location's totals after the rewind. */
  function ActualCharts(table: map<Aggregate.Key, Aggregate.Entry>, s: nat, w: int): Chart
  {
    loc => ActualChart(table, loc, s, w)
  }

  /** The chart of each location's forecast. */
  function ForecastCharts(table: map<Aggregate.Key, Aggregate.Entry>, days: nat, rate: real, w: int): Chart
  {
    loc => ForecastChart(table, loc, days, rate, w)
  }

  /** The first `count` actual charts, or the first error met drawing them. */
  function ActualPanels(chart: Chart, chosen: seq<string>, count: nat): (r: Result<seq<Panel>, DisplayError>)
    requires count <= |chosen|
    ensures r.Success? ==> |r.value| == count
  {
    if count == 0 then Success([])
    else
      var before :- ActualPanels(chart, chosen, count - 1);
      var summary :- chart(chosen[count - 1]);
      Success(before + [Panel(count - 1, chosen[count - 1], 0, summary)])
  }

  /** The first `count` forecast charts, in slots `start`, `start + 1`, ... */
  function ForecastPanels(chart: Chart, chosen: seq<string>, start: nat, count: nat, days: nat)
    : (r: Result<seq<Panel>, DisplayError>)
    requires count <= |chosen|
    ensures r.Success? ==> |r.value| == count
  {
    if count == 0 then Success([])
    else
      var before :- ForecastPanels(chart, chosen, start, count - 1, days);
      var summary :- chart(chosen[count - 1]);
      Success(before + [Panel(start + count - 1, chosen[count - 1], days, summary)])
  }

  /**
   * The first loop succeeds exactly when every chart it draws does; panel i
   * then shows location i's chart, and otherwise the error is that of the
   * first chart that fails.
   */
  lemma {:induction false} ActualPanelsShow(chart: Chart, chosen: seq<string>, count: nat)
    requires count <= |chosen|
    ensures var r := ActualPanels(chart, chosen, count);
      (r.Success? <==> forall i :: 0 <= i < count ==> chart(chosen[i]).Success?) &&
      (r.Success? ==> forall i :: 0 <= i < count ==>
        r.value[i] == Panel(i, chosen[i], 0, chart(chosen[i]).value)) &&
      (r.Failure? ==>
        exists i :: 0 <= i < count && chart(chosen[i]).Failure? &&
          r.error == chart(chosen[i]).error && forall j :: 0 <= j < i ==> chart(chosen[j]).Success?)
  {
    if count > 0 {
      ActualPanelsShow(chart, chosen, count - 1);
      var last := count - 1;
      if ActualPanels(chart, chosen, last).Success? && chart(chosen[last]).Failure? {
        assert forall j :: 0 <= j < last ==> chart(chosen[j]).Success?;
      }
    }
  }

  /** One more successful chart adds its panel at the end. */
  lemma ActualPanelsStep(chart: Chart, chosen: seq<string>, i: nat, before: seq<Panel>)
    requires i < |chosen| && ActualPanels(chart, chosen, i) == Success(before)
    requires chart(chosen[i]).Success?
    ensures ActualPanels(chart, chosen, i + 1) == Success(before + [Panel(i, chosen[i], 0, chart(chosen[i]).value)])
  {
  }

  /** Drawing stops at the first error: once a prefix fails, every longer run fails the same way. */
  lemma {:induction false} ActualPanelsFailFirst(chart: Chart, chosen: seq<string>, k: nat, m: nat)
    requires k <= m <= |chosen| && ActualPanels(chart, chosen, k).Failure?
    ensures ActualPanels(chart, chosen, m) == ActualPanels(chart, chosen, k)
  {
    if m > k {
      ActualPanelsFailFirst(chart, chosen, k, m - 1);
    }
  }

  /**
   * The second loop succeeds exactly when every chart it draws does; its
   * t-th panel then shows location t's chart in slot start + t, and otherwise
   * the error is that of the first chart that fails.
   */
  lemma {:induction false} ForecastPanelsShow(chart: Chart, chosen: seq<string>, start: nat, count: nat, days: nat)
    requires count <= |chosen|
    ensures var r := ForecastPanels(chart, chosen, start, count, days);
      (r.Success? <==> forall t :: 0 <= t < count ==> chart(chosen[t]).Success?) &&
      (r.Success? ==> forall t :: 0 <= t < count ==>
        r.value[t] == Panel(start + t, chosen[t], days, chart(chosen[t]).value)) &&
      (r.Failure? ==>
        exists t :: 0 <= t < count && chart(chosen[t]).Failure? &&
          r.error == chart(chosen[t]).error && forall u :: 0 <= u < t ==> chart(chosen[u]).Success?)
  {
    if count > 0 {
      ForecastPanelsShow(chart, chosen, start, count - 1, days);
      var last := count - 1;
      if ForecastPanels(chart, chosen, start, last, days).Success? && chart(chosen[last]).Failure? {
        assert forall u :: 0 <= u < last ==> chart(chosen[u]).Success?;
      }
    }
  }

  /** One more successful chart adds its panel at the end. */
  lemma ForecastPanelsStep(chart: Chart, chosen: seq<string>, start: nat, t: nat, days: nat, before: seq<Panel>)
    requires t < |chosen| && ForecastPanels(chart, chosen, start, t, days) == Success(before)
    requires chart(chosen[t]).Success?
    ensures ForecastPanels(chart, chosen, start, t + 1, days) ==
      Success(before + [Panel(start + t, chosen[t], days, chart(chosen[t]).value)])
  {
  }

  /** The same for the forecast charts. */
  lemma {:induction false} ForecastPanelsFailFirst(chart: Chart, chosen: seq<string>, start: nat, days: nat,
                                                   k: nat, m: nat)
    requires k <= m <= |chosen| && ForecastPanels(chart, chosen, start, k, days).Failure?
    ensures ForecastPanels(chart, chosen, start, m, days) == ForecastPanels(chart, chosen, start, k, days)
  {
    if m > k {
      ForecastPanelsFailFirst(chart, chosen, start, days, k, m - 1);
    }
  }

  /**
   * The charts of both loops of `update_window` on a grid of `capacity` slots:
   * the actual charts, then (when forecasting) the forecast charts.
   */
  function Layout(actual: Chart, forecast: Chart, chosen: seq<string>, capacity: int, futureDays: nat)
    : Result<seq<Panel>, DisplayError>
  {
    var shown :- ActualPanels(actual, chosen, ShownCount(|chosen|, capacity));
    if |chosen| == 0 then Failure(NothingChosen)
    else if futureDays == 0 then Success(shown)
    else
      var start := NextSlot(|chosen|, capacity);
      var forecasts :- ForecastPanels(forecast, chosen, start, ForecastCount(|chosen|, start, capacity), futureDays);
      Success(shown + forecasts)
  }

  /** What `update_window` puts on the screen, or the exception it raises. */
  function Redraw(table: map<Aggregate.Key, Aggregate.Entry>, chosen: seq<string>, rows: int, cols: int,
                  s: nat, w: int, futureDays: nat, rate: real): Result<Screen, DisplayError>
  {
    if Aggregate.HeaderKey !in table || !table[Aggregate.HeaderKey].Cells? then Failure(MissingHeader)
    else match DateLabels(table[Aggregate.HeaderKey].cells, s, w)
      case None => Failure(DateOutOfRange)
      case Some(labels) =>
        var panels :- Layout(ActualCharts(table, s, w), ForecastCharts(table, futureDays, rate, w),
                             chosen, rows * cols, futureDays);
        Success(Screen(labels.0, labels.1, panels))
  }

  /**
   * The first loop of `update_window`: one chart per chosen location until the
   * grid is full. `next` is `starting_graph`, the slot after the last index
   * the loop bound.
   */
  method DrawActualCharts(chart: Chart, chosen: seq<string>, capacity: int)
    returns (r: Result<seq<Panel>, DisplayError>, next: nat)
    ensures r == ActualPanels(chart, chosen, ShownCount(|chosen|, capacity))
    ensures r.Success? && |chosen| > 0 ==> next == NextSlot(|chosen|, capacity)
  {
    var panels: seq<Panel> := [];
    var i := 0;
    while i < |chosen| && i < capacity
      invariant 0 <= i <= ShownCount(|chosen|, capacity)
      invariant ActualPanels(chart, chosen, i) == Success(panels)
    {
      var summary := chart(chosen[i]);
      if summary.Failure? {
        ActualPanelsFailFirst(chart, chosen, i + 1, ShownCount(|chosen|, capacity));
        return Failure(summary.error), 0;
      }
      ActualPanelsStep(chart, chosen, i, panels);
      panels := panels + [Panel(i, chosen[i], 0, summary.value)];
      i := i + 1;
    }
    assert i == ShownCount(|chosen|, capacity);
    // the loop broke at index i when it stopped short of the last location
    return Success(panels), if i < |chosen| then i + 1 else i;
  }

  /** "up" of a chart whose series ends with a step of `d`. */
  lemma GraphUp(values: seq<real>, w: int, d: real)
    requires |values| >= 2 && values[|values| - 1] - values[|values| - 2] == d
    ensures DrawGraph(values, w).Success? ==>
      (values[|values| - 2] != 0.0 ==> DrawGraph(values, w).value.up == d) &&
      (values[|values| - 2] == 0.0 ==> DrawGraph(values, w).value.up == 0.0)
  {
  }

  /** "up" of the chart of an estimate: the series' last difference grown by rate^days. */
  lemma ForecastUp(t: seq<real>, days: nat, rate: real, w: int)
    requires |t| >= 2 && days >= 1
    ensures var e := Forecast.Extended(t, days, rate);
      DrawGraph(e, w).Success? ==>
        (e[|e| - 2] != 0.0 ==> DrawGraph(e, w).value.up == (t[|t| - 1] - t[|t| - 2]) * Forecast.Pow(rate, days)) &&
        (e[|e| - 2] == 0.0 ==> DrawGraph(e, w).value.up == 0.0)
  {
    Forecast.LastIncrement(t, days, rate);
    GraphUp(Forecast.Extended(t, days, rate), w, (t[|t| - 1] - t[|t| - 2]) * Forecast.Pow(rate, days));
  }

  /** Which days the chart of an estimate shows, in terms of the series it extends. */
  lemma ForecastGraph(t: seq<real>, days: nat, rate: real, w: int)
    requires days == 0 || |t| >= 2
    ensures var e := Forecast.Extended(t, days, rate);
      |e| == |t| + days &&
      (DrawGraph(e, w).Success? <==> |t| + days > 0 && w >= 0) &&
      (DrawGraph(e, w).Success? ==> DrawGraph(e, w).value.bars == e[|e| - WindowLength(|e|, w)..])
  {
    VisibleShape(Forecast.Extended(t, days, rate), w);
  }

  /**
   * What a forecast chart shows, in terms of the location's totals `t`: a
   * series too short to extend is an error, and so is an empty window.
   * Otherwise the bars are the last `w` values of `t` extended by `days`
   * estimates, and "up" is the last difference of `t` grown by rate^days (or
   * 0 when the divisor of the percentage is 0).
   */
  lemma ForecastChartShows(table: map<Aggregate.Key, Aggregate.Entry>, loc: string, t: seq<real>, days: nat,
                           rate: real, w: int)
    requires TotalsOf(table, loc) == Success(t)
    ensures var r := ForecastChart(table, loc, days, rate, w);
      (days > 0 && |t| < 2 ==> r == Failure(ForecastTooShort)) &&
      (r.Success? <==> (days == 0 || |t| >= 2) && |t| + days > 0 && w >= 0) &&
      (r.Success? ==>
        var e := Forecast.Extended(t, days, rate);
        |e| == |t| + days &&
        r.value.bars == e[|e| - WindowLength(|e|, w)..] &&
        (days >= 1 && e[|e| - 2] != 0.0 ==>
          r.value.up == (t[|t| - 1] - t[|t| - 2]) * Forecast.Pow(rate, days)) &&
        (days >= 1 && e[|e| - 2] == 0.0 ==> r.value.up == 0.0))
  {
    if days == 0 || |t| >= 2 {
      ForecastGraph(t, days, rate, w);
      if days >= 1 {
        ForecastUp(t, days, rate, w);
      }
    }
  }

  /**
   * One pass of the second loop: the totals, their estimate, and its chart,
   * which is what the chart function the loop below is given computes.
   */
  method DrawForecastChart(table: map<Aggregate.Key, Aggregate.Entry>, loc: string, futureDays: nat, rate: real,
                           w: int) returns (r: Result<Summary, DisplayError>)
    ensures r == ForecastCharts(table, futureDays, rate, w)(loc)
    ensures r == ForecastChart(table, loc, futureDays, rate, w)
    ensures TotalsOf(table, loc).Failure? ==> r == Failure(NoTotal(loc))
  {
    var totals := TotalsOf(table, loc);
    if totals.Failure? {
      return Failure(totals.error);
    }
    var estimate := Forecast.EstimateFuture(totals.value, futureDays, rate);
    if estimate.None? {
      return Failure(ForecastTooShort);
    }
    r := DrawGraph(estimate.value, w);
  }

  /**
   * The second loop of `update_window`: one forecast chart per chosen location,
   * from slot `start` on, until the grid is full.
   */
  method DrawForecastCharts(chart: Chart, chosen: seq<string>, start: nat, capacity: int, futureDays: nat)
    returns (r: Result<seq<Panel>, DisplayError>)
    ensures r == ForecastPanels(chart, chosen, start, ForecastCount(|chosen|, start, capacity), futureDays)
  {
    var forecasts: seq<Panel> := [];
    var t := 0;
    while t < |chosen|
      invariant 0 <= t <= ForecastCount(|chosen|, start, capacity)
      invariant ForecastPanels(chart, chosen, start, t, futureDays) == Success(forecasts)
    {
      if start + t >= capacity {
        break;
      }
      var summary := chart(chosen[t]);
      if summary.Failure? {
        ForecastPanelsFailFirst(chart, chosen, start, futureDays, t + 1, ForecastCount(|chosen|, start, capacity));
        return Failure(summary.error);
      }
      ForecastPanelsStep(chart, chosen, start, t, futureDays, forecasts);
      forecasts := forecasts + [Panel(start + t, chosen[t], futureDays, summary.value)];
      t := t + 1;
    }
    assert t == ForecastCount(|chosen|, start, capacity);
    return Success(forecasts);
  }

  /**
   * `update_window`: the date range, one chart per chosen location while slots
   * remain, then (when forecasting) one forecast chart per chosen location in
   * the slots that are left.
   */
  method UpdateWindow(table: map<Aggregate.Key, Aggregate.Entry>, chosen: seq<string>, rows: int, cols: int,
                      s: nat, w: int, futureDays: nat, rate: real) returns (r: Result<Screen, DisplayError>)
    ensures r == Redraw(table, chosen, rows, cols, s, w, futureDays, rate)
  {
    var capacity := rows * cols;
    if Aggregate.HeaderKey !in table || !table[Aggregate.HeaderKey].Cells? {
      return Failure(MissingHeader);
    }
    var labels := DateLabels(table[Aggregate.HeaderKey].cells, s, w);
    if labels.None? {
      return Failure(DateOutOfRange);
    }
    var panels, next := DrawActualCharts(ActualCharts(table, s, w), chosen, capacity);
    if panels.Failure? {
      return Failure(panels.error);
    }
    if |chosen| == 0 {
      return Failure(NothingChosen);
    }
    if futureDays == 0 {
      return Success(Screen(labels.value.0, labels.value.1, panels.value));
    }
    var forecasts := DrawForecastCharts(ForecastCharts(table, futureDays, rate, w), chosen, next, capacity, futureDays);
    if forecasts.Failure? {
      return Failure(forecasts.error);
    }
    return Success(Screen(labels.value.0, labels.value.1, panels.value + forecasts.value));
  }

  /**
   * Where the charts go, whatever each chart shows: the i-th chart sits in
   * slot i, the first ones show the chosen locations in order, no chart lies
   * outside the grid, a chosen location past the grid's capacity gets no
   * chart, and without forecasting there is exactly one chart per chosen
   * location that fits.
   */
  lemma PanelPlacement(actual: Chart, forecast: Chart, chosen: seq<string>, capacity: int, futureDays: nat)
    requires Layout(actual, forecast, chosen, capacity, futureDays).Success?
    ensures var panels := Layout(actual, forecast, chosen, capacity, futureDays).value;
      var shown := ShownCount(|chosen|, capacity);
      (forall i :: 0 <= i < |panels| ==> panels[i].slot == i && i < capacity) &&
      (forall i :: 0 <= i < shown ==> panels[i].location == chosen[i] && panels[i].futureDays == 0) &&
      (forall i :: shown <= i < |panels| ==>
        panels[i].location == chosen[i - shown] && panels[i].futureDays == futureDays) &&
      (forall i :: 0 <= i < |panels| && panels[i].futureDays == 0 ==> i < shown) &&
      (futureDays == 0 ==> |panels| == shown)
  {
    var shown := ShownCount(|chosen|, capacity);
    var actualPanels := ActualPanels(actual, chosen, shown).value;
    ActualPanelsShow(actual, chosen, shown);
    if futureDays > 0 {
      var start := NextSlot(|chosen|, capacity);
      var count := ForecastCount(|chosen|, start, capacity);
      var forecasts := ForecastPanels(forecast, chosen, start, count, futureDays).value;
      ForecastPanelsShow(forecast, chosen, start, count, futureDays);
      var panels := actualPanels + forecasts;
      assert Layout(actual, forecast, chosen, capacity, futureDays).value == panels;
      assert count > 0 ==> start == shown && shown + count <= capacity;
      forall i | shown <= i < |panels|
        ensures panels[i] == forecasts[i - shown]
        ensures panels[i].slot == i
      {
      }
    } else {
      assert Layout(actual, forecast, chosen, capacity, futureDays).value == actualPanels;
    }
  }

  /**
   * What each panel shows: the first `shown` panels hold the actual charts of
   * the chosen locations in order, the rest their forecast charts.
   */
  lemma PanelCharts(actual: Chart, forecast: Chart, chosen: seq<string>, capacity: int, futureDays: nat)
    requires Layout(actual, forecast, chosen, capacity, futureDays).Success?
    ensures var panels := Layout(actual, forecast, chosen, capacity, futureDays).value;
      var shown := ShownCount(|chosen|, capacity);
      shown <= |panels| && shown <= |chosen| &&
      (forall i :: 0 <= i < shown ==> actual(chosen[i]) == Success(panels[i].summary)) &&
      (forall i :: shown <= i < |panels| ==>
        i - shown < |chosen| && forecast(chosen[i - shown]) == Success(panels[i].summary))
  {
    var shown := ShownCount(|chosen|, capacity);
    var actualPanels := ActualPanels(actual, chosen, shown).value;
    ActualPanelsShow(actual, chosen, shown);
    var panels := Layout(actual, forecast, chosen, capacity, futureDays).value;
    if futureDays > 0 {
      var start := NextSlot(|chosen|, capacity);
      var count := ForecastCount(|chosen|, start, capacity);
      var forecasts := ForecastPanels(forecast, chosen, start, count, futureDays).value;
      ForecastPanelsShow(forecast, chosen, start, count, futureDays);
      assert panels == actualPanels + forecasts;
    } else {
      assert panels == actualPanels;
    }
  }

  /** The placement of the charts `update_window` draws on a rows * cols grid. */
  lemma ScreenPlacement(table: map<Aggregate.Key, Aggregate.Entry>, chosen: seq<string>, rows: int, cols: int,
                        s: nat, w: int, futureDays: nat, rate: real)
    requires Redraw(table, chosen, rows, cols, s, w, futureDays, rate).Success?
    ensures var panels := Redraw(table, chosen, rows, cols, s, w, futureDays, rate).value.panels;
      |chosen| > 0 &&
      (forall i :: 0 <= i < |panels| ==> panels[i].slot == i && i < rows * cols) &&
      (futureDays == 0 ==> |panels| == ShownCount(|chosen|, rows * cols))
  {
    PanelPlacement(ActualCharts(table, s, w), ForecastCharts(table, futureDays, rate, w), chosen, rows * cols, futureDays);
  }

  /**
   * On the screen `update_window` draws, a panel that is not a forecast shows
   * the actual chart of its location, and a forecast panel its forecast chart.
   */
  lemma ScreenCharts(table: map<Aggregate.Key, Aggregate.Entry>, chosen: seq<string>, rows: int, cols: int,
                     s: nat, w: int, futureDays: nat, rate: real)
    requires Redraw(table, chosen, rows, cols, s, w, futureDays, rate).Success?
    ensures var panels := Redraw(table, chosen, rows, cols, s, w, futureDays, rate).value.panels;
      (forall i :: 0 <= i < |panels| && panels[i].futureDays == 0 ==>
        ActualChart(table, panels[i].location, s, w) == Success(panels[i].summary)) &&
      (forall i :: 0 <= i < |panels| && panels[i].futureDays != 0 ==>
        ForecastChart(table, panels[i].location, futureDays, rate, w) == Success(panels[i].summary))
  {
    var actual, forecast := ActualCharts(table, s, w), ForecastCharts(table, futureDays, rate, w);
    var panels := Layout(actual, forecast, chosen, rows * cols, futureDays).value;
    assert Redraw(table, chosen, rows, cols, s, w, futureDays, rate).value.panels == panels;
    PanelPlacement(actual, forecast, chosen, rows * cols, futureDays);
    PanelCharts(actual, forecast, chosen, rows * cols, futureDays);
    var shown := ShownCount(|chosen|, rows * cols);
    forall i | 0 <= i < |panels| && panels[i].futureDays == 0
      ensures ActualChart(table, panels[i].location, s, w) == Success(panels[i].summary)
    {
      assert i < shown && panels[i].location == chosen[i];
    }
    forall i | 0 <= i < |panels| && panels[i].futureDays != 0
      ensures ForecastChart(table, panels[i].location, futureDays, rate, w) == Success(panels[i].summary)
    {
      assert shown <= i && panels[i].location == chosen[i - shown];
    }
  }

}
