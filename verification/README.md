# COVID-19 dashboard core, modelled in Dafny

The program downloads the Johns Hopkins time-series CSV of confirmed cases
(or deaths) and builds a table from it. The table maps a
`(country, province)` key to that row's daily cells. It maps
`(country, "Total")` to the day-wise sum over the country's rows, and
`("Worldwide", "Total")` to the sum over every row. It shows a grid of bar
charts, one per chosen country. Each chart can be rewound by a number of
days and cut to the last "display days" days. An optional forecast
continues each series by its last difference times a growth rate.

The model covers the part of `app.py` that computes. The GUI, the network
and the settings file are not modelled.

- `wrappers.dfy`: `Option` and `Result`, used for the exceptions the program
  raises.
- `int_parse.dfy`: Python's `int()` on a string, as used on every CSV cell.
- `download.dfy`: the in-place rewrite of the downloaded lines. A line
  starting with a comma gets a leading space. Also a comma splitter that
  shows the rewrite keeps the columns.
- `aggregate.dfy`: `prepare_data`. `Validate` gives the exceptions in the
  order the program meets them. `Lookup` is a key-by-key reference
  definition of the table. The imperative `PrepareData` visits the locations
  in an arbitrary order, and is proved to produce exactly `Lookup`'s table
  for every order.
- `forecast.dfy`: `estimate_future`, computed exactly over `real`.
- `display.dfy`: the rewind and window arithmetic of `draw_graph` and
  `update_window`, the "up" figure and the peak in each chart title, the
  date range above the grid, and which location goes into which chart slot.
  Each chart is a function value (`Chart`), so where charts go is proved
  independently of what they show.

Where the program's own description and its code differ, the model follows
the code:
- The header is `data[0][4:]`: columns 4 on, not 5 on.
- "up" is taken from the rewound series before the display-days window is
  applied, not from the visible slice.
- The loop for "Worldwide" also stores every row under
  `("Worldwide", province)`.
- The sentinel keys collide as written. A province named "Total" is
  overwritten by the country's sum. A `("Header", "")` location is
  overwritten by the header.
- When two rows share a key, the later row wins.

## Model

| member | source | states |
|---|---|---|
| Download.NormaliseLines | app.py:165-166 | The lines before the first empty line get a leading space exactly when they start with a comma. The empty line and those after it are untouched. `ok` is false exactly when some line is empty (`row[0]` raises IndexError). |
| Download.NormaliseFields | app.py:164-166 | The rewrite keeps the number of comma-separated columns. A line with an empty first column gets first column " " and keeps every other column. The first column is never empty afterwards. |
| Download.FieldsJoin | app.py:168-169 | Joining the fields of a quote-free line with commas gives the line back. |
| Download.FieldsCommaFree | app.py:168-169 | No field of a split line contains a comma. |
| IntParse.ParseDecimalString | app.py:286 | `int(str(n)) == n` for every integer: the decimal form of `n` parses back to `n`. |
| Aggregate.ParseCells | app.py:286 | A row converts exactly when every cell is empty or an integer literal. The result has one number per cell: 0 for an empty cell, the literal's value otherwise. |
| Aggregate.ParseGraphValues | app.py:284-286 | Returns a value exactly when every row converts. Row `i` of the result is the conversion of row `i`'s date cells. |
| Aggregate.AddRow | app.py:301-302 | Succeeds exactly when the row has no more date cells than `totals` has slots. On success each slot has grown by that day's count, and slots past the row's cells are unchanged. |
| Aggregate.Visit | app.py:296-303 | One location visit. Succeeds exactly when every matching row fits the width. The result is the earlier table plus each matching row's cells under `(c, province)`, later rows winning, plus `(c, "Total")` set to the day-wise column sums. |
| Aggregate.VisitAgrees | app.py:295-303 | A visit extends a table that agrees with `Located` on the visited countries to one that agrees on those countries plus `c`. So the visiting order does not matter. |
| Aggregate.VisitCountries | app.py:288-303 | Visiting every `(country, province)` location in any order gives a table that agrees with `Located` on every country of the data. It fails exactly when some row has more date cells than the first data row. |
| Aggregate.PrepareData | app.py:281-307 | Fails exactly when `Validate` reports an error, with that error. Otherwise the result holds exactly the keys `Lookup` defines, each with `Lookup`'s entry. |
| Aggregate.TabulatesFrom | app.py:289-305 | The visits' table plus the header entry is exactly `Lookup`'s table. |
| Aggregate.TableShape | app.py:282-305 | `("Header", "")` holds the header's date cells. Every sum holds one count per date cell of the first data row. |
| Aggregate.CountryTotal | app.py:297-303 | For a country other than "Worldwide", `(c, "Total")` exists and, day by day, is the sum of that country's rows. This holds even when one of its provinces is named "Total". |
| Aggregate.ColumnSumOfCountry | app.py:298-302 | For a real country, the loop's running sum equals the sum over the rows whose column 1 is that country. |
| Aggregate.Countries | app.py:288 | The distinct countries of the rows: no repeats, and a name is listed exactly when some row has it as its country. |
| Aggregate.WorldwideIsSumOfCountries | app.py:289-302 | The "Worldwide" loop adds every row, which is the sum over the distinct countries of each country's sum. |
| Aggregate.WorldwideTotal | app.py:289-303 | `("Worldwide", "Total")` exists with one entry per day, each the sum of the per-country sums. When no country is itself named "Worldwide", this is the sum of the table's `(c, "Total")` entries. |
| Aggregate.SumTotalsOfCountries | app.py:303 | When each country's Total entry equals its reference sum, adding up the Total entries adds up the reference sums. |
| Aggregate.ProvinceEntry | app.py:298-300 | A row's cells are stored under `(c, province)` when no later row of the same location has the same province, the province is not "Total", and the key is not `("Header", "")`. `c` is the row's country or "Worldwide". The two excluded keys are overwritten by the sum (app.py:303) or the header (app.py:305). |
| Aggregate.LastRowIs | app.py:298-300 | The last matching row with a given province is the one that no later matching row shares a province with. |
| Forecast.EstimateFuture | app.py:175-180 | The loop's result is `Forecast`. It fails (IndexError) exactly when at least one day is asked for and there are fewer than two values. |
| Forecast.ForecastShape | app.py:175-180 | A forecast is the input followed by `k` values. Each appended value is the previous value plus the previous difference times `rate`. `k = 0` gives the input back. |
| Forecast.ForecastIncrements | app.py:179 | The t-th appended value exceeds the one before it by the input's last difference times `rate^t`. |
| Forecast.LastIncrement | app.py:179 | The last step of an extension by `k` values is the input's last difference times `rate^k`. |
| Forecast.ForecastLinear | app.py:179 | With rate 1 the forecast continues the last difference as a straight line. |
| Forecast.ForecastExamples | app.py:175-180 | [100, 150] two days ahead is [.., 200, 250] at rate 1 and [.., 250, 450] at rate 2. |
| Display.RewindShape | app.py:245-246 | `values[:-s]` keeps the first `len - s` values, or none when `s >= len`. |
| Display.VisibleShape | app.py:191-194 | The window keeps the last `w` values: all of them when `w` is 0 or at least the length, none when `w` is negative. |
| Display.WindowIndices | app.py:241-248 | Rewind then window is one contiguous run of days, ending `s` days before the last. With no rewind and no limit it is the whole series. |
| Display.Peak | app.py:196 | `max()` has a value exactly when the bars are non-empty. |
| Display.PeakIsMax | app.py:196 | The peak is one of the bars, and no bar exceeds it. |
| Display.GraphSummary | app.py:185-198 | A chart is drawn exactly when the series is non-empty and the window is not negative. Its bars are the window's suffix, and its peak is their maximum. Its "up" is the last difference of the whole series, or 0 when there are fewer than two values or the second-to-last is 0. It equals the bars' last difference whenever two bars show. |
| Display.DateLabelsMatchBars | app.py:233-238 | The corrected date range names the first and last day a chart shows after rewind and window. It is absent when no day shows. |
| Display.DateLabelsAsWrittenOffByOne | app.py:234-238 | As written, when the window is shorter than the rewound series, the start label is the day before the first shown day. The end label is right. |
| Display.DateLabelsCounterexample | app.py:234-238 | For 3 days, no rewind and a 2-day window, the code labels 1/22/20 - 1/24/20, but the bars show 1/23/20 and 1/24/20. |
| Display.ActualPanelsShow | app.py:241-248 | The first loop succeeds exactly when every chart it draws succeeds. Chart `i` is then in slot `i`, shows `chosen[i]` with that location's chart, and is not a forecast. Otherwise the error is that of the first chart that fails. |
| Display.ForecastPanelsShow | app.py:252-260 | The second loop succeeds exactly when every chart it draws succeeds. Forecast chart `t` is then in slot `start + t`, shows `chosen[t]` with that location's forecast chart, and carries the forecast's day count. Otherwise the error is that of the first chart that fails. |
| Display.ActualPanelsFailFirst | app.py:241-248 | Drawing stops at the first location whose chart raises. Every longer run raises the same error. |
| Display.ForecastPanelsFailFirst | app.py:252-260 | The same for the forecast charts. |
| Display.DrawActualCharts | app.py:241-250 | The first loop draws `ActualPanels` over `min(n, rows*cols)` locations, or 0 when `rows*cols <= 0`. Its `i + 1` is `NextSlot`: the index it broke at plus one, or the number of locations. |
| Display.DrawForecastChart | app.py:256-260 | One pass of the second loop: totals, `estimate_future`, then `draw_graph`. It computes exactly the forecast chart function, and a location without totals gives KeyError (`NoTotal`). |
| Display.ForecastChartShows | app.py:256-260 | For a location with totals `t`, the forecast chart fails (IndexError) when days are asked for and `t` has fewer than two values. It is drawn exactly when the estimate is non-empty and the window is not negative. Its bars are the last `w` values of `t` extended by the estimate, and its "up" is `t`'s last difference times `rate^days`, or 0 when the estimate's second-to-last value is 0. |
| Display.ForecastGraph | app.py:175-198 | The chart of a series extended by `days` estimates is drawn exactly when the extension is non-empty and the window is not negative. Its bars are the last `w` values of the extension. |
| Display.ForecastUp | app.py:179-189 | The "up" of a forecast chart is the input's last difference grown by `rate^days`, or 0 when the percentage's divisor is 0. |
| Display.DrawForecastCharts | app.py:252-260 | The second loop draws `ForecastPanels` over the slots left from `starting_graph` on. |
| Display.UpdateWindow | app.py:225-260 | `update_window`'s outcome is `Redraw`: a missing header, a date out of range, the first chart error, UnboundLocalError for an empty choice, or the screen. |
| Display.PanelPlacement | app.py:241-260 | For any chart functions, chart `i` is in slot `i` and inside the grid. The first `min(n, capacity)` charts show the chosen locations in order and are not forecasts. The rest show `chosen[0..]` as forecasts. Without forecasting there is exactly one chart per location that fits. |
| Display.PanelCharts | app.py:241-260 | Each of the first `min(n, capacity)` panels holds the actual chart of its location. Each later panel holds the forecast chart of `chosen[i - shown]`. |
| Display.ScreenPlacement | app.py:225-260 | On the screen `update_window` draws, some location was chosen, every chart sits in its own slot inside the rows × cols grid, and without forecasting the chart count is `min(n, rows*cols)`, or 0 when `rows*cols <= 0`. |
| Display.ScreenCharts | app.py:241-260 | On that screen, a panel that is not a forecast shows `ActualChart` of its location, and a forecast panel shows `ForecastChart` of its location. |

## Findings

| source | as written | input that shows it | evidently intended | confidence | as-written member | corrected member |
|---|---|---|---|---|---|---|
| app.py:235-238 | The start label is `header[len(header) - display_days - (subtract_days + 1)]`. That is one day before the first bar `draw_graph` shows, which starts at `(len - subtract_days) - display_days`. | header ["1/22/20", "1/23/20", "1/24/20"], rewind 0, display days 2: the label reads "1/22/20 - 1/24/20" but the bars are 1/23/20 and 1/24/20. | The label names the first and last shown day. | not executed | Display.DateLabelsCounterexample | Display.DateLabelsMatchBars |

`Display.Redraw`, which `UpdateWindow` implements, uses the corrected labels
(`DateLabels`). `DateLabelsAsWritten` keeps the code's formula for the
finding.

## Left out

- Downloading over HTTP and decoding UTF-8 (`request.urlopen`). The model
  starts from the lines or the tokenised rows.
- The CSV tokeniser (`csv.reader`). `Download.Fields` splits on every comma,
  which matches it only for lines with no quotes and no line terminator.
  Quoted fields are not modelled.
- Python's `int()` on non-ASCII digits and non-ASCII whitespace.
  `IntParse.ParseInt` accepts ASCII only.
- `Aggregate.AddRow`: a cell that does not convert counts as 0 instead of
  raising ValueError as app.py:302 would. `prepare_data` has already raised
  for such a cell at app.py:286, before any visit, so this never arises.
- Floating point. Forecasts are computed exactly over `real`, and the
  counts are converted to `real` without rounding.
- `Display.GraphSummary`: the "Δ" percentage, the `int()` truncation and the
  thousands formatting of the title are not modelled. Only "up", the peak
  and the bars are stated.
- Bar geometry, colours, autoscale and `graphmax`, graph erasing, and every
  other PySimpleGUI call, including the grid erase loop at app.py:228-231.
- The settings JSON file and the event loop. Rows, columns, display days,
  rewind, forecast days and growth rate are parameters.
- The clock: the "Updated ..." timestamp line at app.py:263 is not modelled.
- `Display.UpdateWindow`: the date labels follow the corrected definition.
  The code's labels are modelled only by `DateLabelsAsWritten` (see
  Findings). A rewind of at least the header's length raises IndexError
  at the label in both. A negative display-days setting is different: the
  model reports `DateOutOfRange` straight away, whatever follows. The code
  raises IndexError at the label when the negative setting outweighs the
  rewind. Otherwise it shows a label and goes on. With no location chosen
  it then raises UnboundLocalError at app.py:250. With `rows * cols <= 0`
  it breaks out of both loops before drawing anything and returns
  normally. Otherwise its first chart raises KeyError for a missing total,
  or ValueError from `max()` on the empty window.
- `Display.UpdateWindow`: the chart-building steps of the first loop are
  passed in as a `Chart` function (`ActualCharts`) rather than inlined. The
  forecast steps are modelled by `DrawForecastChart`, which is proved equal
  to the chart function the second loop is given.
