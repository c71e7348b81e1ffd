# COVID-19 regional tracker: a Dafny model

This project models the computational core of a small set of Python scripts that
follow the Italian civil-protection COVID-19 data for one region.

- **Tracker script.** It builds the list of day keys (`YYYYMMDD`) from 2020-02-25
  through an end date. For each day it reads the national daily table from a
  local `daily-data` folder, or downloads it and saves a copy there. It keeps the
  row of the requested region, collects nine fields per day into a time series
  and writes that series to `data_time_series.csv`. From the written series it
  then derives the daily number of new tests and the sum of new positives over
  the last seven days.
- **Forecasting scripts.** There are two: Gaussian-process regression and
  support-vector regression. They share the same array bookkeeping: training
  inputs `0..n-1`; 7-day and 31-day centred moving averages built by edge
  padding and a valid convolution; fourteen forecast inputs and dates; and, for
  the Gaussian process, a confidence band over the observed and forecast dates.

Modules:

- `Wrappers`: `Option` and `Result`.
- `Calendar`: the Gregorian calendar.
  - The daily range the tracker obtains from the data library becomes an
    explicit successor function `NextDay` (2020 is a leap year).
  - `Days` and `DateRange` enumerate days.
  - Day numbers relate dates to integers.
- `DateKeys`: the key and file-name helpers.
  - `formatted_date` is `ZFill`, with Python's `str.zfill` sign handling, applied
    to Python's `str(int)`.
  - `url_string`, and the cache name as the last 36 characters of the URL.
  - `get_date_iterators` is a method whose loop appends the key of each day.
- `Tracker`: one day and the whole run.
  - Region extraction with the pandas failure cases.
  - Resolving one day against the folder and the download oracle.
  - `Accumulate`, the whole run as a function of the starting folder.
  - The class `TrackerState`, whose fields are the folder and the output file,
    and whose methods run the loop.
- `Derived`: the new-tests array, filled in place, and the seven-day sum.
- `Forecast`: `arange`, edge padding, valid convolution, `[:-k]`, the moving
  averages, the forecast inputs and dates, and the band.

The folder is a map from file name to an opaque table. A download is an oracle
given as a map from URL to table; a URL absent from it is a download that fails.
A failure ends the run before the output file is written, so the output keeps
its previous contents.

## Model

| member | source | states |
|---|---|---|
| Calendar.NextDay | covid19-regional-tracker.py:63 | The day after a real calendar day is a real calendar day, and it comes later. |
| Calendar.NextDayIsSuccessor | covid19-regional-tracker.py:63 | No day lies strictly between a day and its successor: a date is after `d` exactly when it is not before `NextDay(d)`. |
| Calendar.NextDayNumber | covid19-regional-tracker.py:63 | Each successor step advances the day number by exactly one, across month and year ends and leap days. |
| Calendar.DayNumberOrder | covid19-regional-tracker.py:63 | Day numbers order dates exactly as the calendar does: `Before` iff smaller, equal iff same date. |
| Calendar.AddDays | ML-GPR.py:58 | `date + i days` is a real calendar day. |
| Calendar.AddDaysNumber | ML-GPR.py:58 | `date + k days` is exactly k day numbers later. |
| Calendar.Days | covid19-regional-tracker.py:63 | `count` consecutive days: element i is the first day plus i days. |
| Calendar.DateRangeLength | covid19-regional-tracker.py:63 | The daily range is empty iff the end precedes the start; otherwise its length is the day difference plus one. |
| Calendar.DateRangeEnds | covid19-regional-tracker.py:63 | A non-empty range starts at the first day and ends at the end date, both included. |
| Calendar.DateRangeConsecutive | covid19-regional-tracker.py:63 | Every day of the range is followed by its calendar successor: no gaps. |
| Calendar.DateRangeIncreasing | covid19-regional-tracker.py:63 | The range is strictly increasing, so no day appears twice. |
| Calendar.DateRangeMembers | covid19-regional-tracker.py:63 | A valid date is in the range iff it lies between the two ends. |
| DateKeys.NatToDigits | covid19-regional-tracker.py:32-34 | `str(n)` of a natural number is a non-empty string of decimal digits. |
| DateKeys.NatToDigitsValue | covid19-regional-tracker.py:32-34 | The digits of `str(n)` read back to n. |
| DateKeys.ZFill | covid19-regional-tracker.py:36-38 | `zfill(width)` pads to length max(len, width) and never truncates. An unsigned string becomes its suffix, with zeros in front. A signed string keeps its sign first and gets the zeros after it. |
| DateKeys.PaddedValue | covid19-regional-tracker.py:36-38 | Zero-padding the digits of n keeps them all digits and keeps the value n. |
| DateKeys.PaddedField | covid19-regional-tracker.py:36-38 | A field below 10^width pads to exactly `width` digits with value n. |
| DateKeys.FormattedDateRoundTrip | covid19-regional-tracker.py:30-40 | For year 0..9999 and month, day 0..99 the key is exactly 8 digits and parses back to the same year, month and day. |
| DateKeys.KeyRoundTrip | covid19-regional-tracker.py:30-40 | The key of a real date of years 1..9999 is 8 digits and parses back to that date. |
| DateKeys.KeyInjective | covid19-regional-tracker.py:30-40 | Distinct dates of years 1..9999 have distinct keys. |
| DateKeys.CacheName | covid19-regional-tracker.py:91 | `s[-36:]` has length min(36, len) and is the suffix of the URL. |
| DateKeys.CacheNameOfKey | covid19-regional-tracker.py:44-51 | For an 8-character key the cache name is the upstream file name `dpc-covid19-ita-regioni-` + key + `.csv`, and the URL is the upstream folder followed by that name. The key can be read back from the name. |
| DateKeys.CacheNameInjective | covid19-regional-tracker.py:91 | Two 8-character keys with the same cache name are equal. |
| DateKeys.FormatDays | covid19-regional-tracker.py:65-68 | The append loop produces the key of every day of the range, in order. |
| DateKeys.GetDateIterators | covid19-regional-tracker.py:55-70 | Returns the keys of every day from 2020-02-25 through the end date. Returns None when the end date is not a real day of years 1..9999. |
| DateKeys.IteratorKeysDistinct | covid19-regional-tracker.py:55-70 | Every listed key is 8 digits naming the day at its position of the range. The keys are pairwise distinct, and so are their cache names. |
| DateKeys.FirstKey | covid19-regional-tracker.py:60 | The first day's key is `"20200225"`. |
| DateKeys.IteratorKeysEmpty | covid19-regional-tracker.py:55-70 | The list is empty iff the end date is before 2020-02-25. |
| DateKeys.LeapDayListed | covid19-regional-tracker.py:63 | The range through 2020-03-01 lists 02-25, 02-26, 02-27, 02-28, 02-29, 03-01. |
| Tracker.MatchesSpec | covid19-regional-tracker.py:112 | The mask keeps exactly the rows whose region name equals the argument, in table order, each once. |
| Tracker.SelectedAtMatches | covid19-regional-tracker.py:112 | The filtered table is the rows at the matching positions. |
| Tracker.ExtractRegionUnique | covid19-regional-tracker.py:112-121 | Extraction succeeds iff exactly one row has the region's name, and then yields that row's fields, including the row's own `data`. No matching row fails, and so do several. |
| Tracker.HeaderOrder | covid19-regional-tracker.py:126-129 | Each output line has one cell per header column, and the cell under a column name is the record field of that name. |
| Tracker.ResolveStep | covid19-regional-tracker.py:90-109 | A cached day is a hit with the folder unchanged. A missing day is downloaded, adding exactly that one name; a failed download leaves the folder as it was. Existing files never change. |
| Tracker.FailureIsFinal | covid19-regional-tracker.py:103-105 | Once a day fails, the later days change nothing: the run has quit. |
| Tracker.AccumulateFolder | covid19-regional-tracker.py:88-109 | The folder only grows, and each added file holds the upstream table for its name. A name is downloaded only when missing, at most once. Every added file was downloaded, and after a successful run every download is in the folder. |
| Tracker.AccumulateSeries | covid19-regional-tracker.py:88-121 | A successful run yields exactly one record per key, in key order. Each record is extracted from the table used for that day, and every key's file is in the folder. |
| Tracker.AccumulateDownloads | covid19-regional-tracker.py:95-102 | In a successful run, a key's file is downloaded iff it was missing at the start. |
| Tracker.RerunDownloadsNothing | covid19-regional-tracker.py:88-109 | Re-running with the folder a successful run left downloads nothing, whatever the remote side answers. The folder stays as it is and the series is the same. |
| Tracker.CachedRun | covid19-regional-tracker.py:107-109 | When every day's file is cached, the run is all hits and yields the cached records. |
| Tracker.TrackerState.ReadOrDownload | covid19-regional-tracker.py:90-109 | Updates the folder and returns the table exactly as one resolve step does. |
| Tracker.TrackerState.ProcessDay | covid19-regional-tracker.py:90-121 | Folder, series and download list after one day are those of one step of the run. |
| Tracker.TrackerState.Collect | covid19-regional-tracker.py:88-130 | After the loop, folder, outcome and downloads equal the run over the keys. The output file is written with the series only on success and is otherwise left as it was. |
| Tracker.TrackerState.Run | covid19-regional-tracker.py:88-130 | A rejected end date fails with nothing changed. Otherwise the state is that of the run over the date keys. |
| Derived.LastWeekWindow | covid19-regional-tracker.py:137 | `sum(s[-7:])` is the whole sum up to seven days, and the sum of exactly the last seven values from then on. |
| Derived.LastWeekSlides | covid19-regional-tracker.py:137 | Adding a day adds its count and removes the count from seven days earlier. |
| Derived.LastWeekBounds | covid19-regional-tracker.py:137 | Daily counts in 0..hi give a seven-day figure in 0..7·hi. |
| Derived.IncrementsTelescope | covid19-regional-tracker.py:142-145 | First value plus the increments through day k gives the cumulative count of day k. |
| Derived.IncrementsDetermine | covid19-regional-tracker.py:142-145 | The first value and the increments determine the cumulative series. |
| Derived.NewTests | covid19-regional-tracker.py:142-145 | The array has the series' length. Element 0 is 0 and element i is tamponi[i] − tamponi[i−1]. An empty series fails at the final assignment. |
| Forecast.Arange | ML-GPR.py:29 | `arange(lo, hi)` has max(hi−lo, 0) elements and element i is lo + i; applied to 0..n it gives the training inputs (also ML-SVR.py line 28). |
| Forecast.PadEdge | ML-GPR.py:44 | Edge padding by k has length n + 2k and position i holds y[clamp(i−k, 0, n−1)]. |
| Forecast.ConvolveValid | ML-GPR.py:44 | Valid convolution has |a| − |w| + 1 outputs. |
| Forecast.ConvolveSymmetric | ML-GPR.py:44 | For a symmetric window, convolution equals correlation: the flip is irrelevant. |
| Forecast.DropLast | ML-GPR.py:43-44 | `s[:-k]` keeps max(n−k, 0) elements, the leading ones unchanged. |
| Forecast.PaddedConvolution | ML-GPR.py:44 | Convolving the edge-padded series with ones sums the clamped window of the series. |
| Forecast.MovingSumSpec | ML-GPR.py:43-50 | The window sum has max(n−k, 0) entries, and entry i sums y over days i−k..i+k clamped to the series (k = 3 and k = 15). |
| Forecast.MovingAverage | ML-SVR.py:40-47 | One average per window sum. |
| Forecast.MovingAverageConstant | ML-SVR.py:40-47 | A constant series averages to itself at every point. |
| Forecast.AverageCurveAligned | ML-GPR.py:43-50 | The curve fails iff the series is empty. Otherwise `dates[:-k]` and the averages have the same length and the average plotted at date i is centred on day i. |
| Forecast.WeekAndMonthCurves | ML-SVR.py:40-47 | The plotted windows are 7 and 31 days wide, and their curves have n−3 and n−15 points (none when n is smaller). |
| Forecast.ForecastInputsSpec | ML-GPR.py:56 | From inputs 0..n−1 the forecast inputs are n−1..n+12, 14 values, the first equal to the last training input. With n = 0, `x[-1]` fails. |
| Forecast.ForecastDatesSpec | ML-SVR.py:52 | 14 forecast dates. The first is the last observed date, date i is i days after it, and each is the successor of the one before. No dates at all fails. |
| Forecast.ForecastAligned | ML-GPR.py:55-58 | Forecast input i and forecast date i are the same number of steps after the last observation. |
| Forecast.ConfidenceBandShape | ML-GPR.py:60-63 | Axis and both bounds have n + 14 entries. With non-negative deviations the lower bound ≤ model ≤ upper bound, and the bounds are centred on the model curve. |

## Left out

- **Command-line parsing, folder creation and the global SSL setting** (tracker lines 21-26, 76-80): these are process set-up. The end date enters as three integers.
- **Network, file and CSV I/O.** The download, `read_csv` and `to_csv` are an oracle (a map from URL to table) and a map from file name to table.
  - The index column `to_csv` adds, and any difference between a downloaded table and its re-read copy, are not modelled: a cached table is taken to be the table that was saved. In the code the two are not byte-identical, since the saved copy gains that column.
  - A download that succeeds once is taken to succeed the same way again.
- **Progress messages and the final prints** (lines 98-104, 132, 138-140): these are console output. `quit()` is modelled as the end of the run without writing the output.
- **Pandas date handling.** It is replaced by the explicit Gregorian successor.
  - The end date is accepted for real days of years 1..9999.
  - The pandas timestamp range (years 1677-2262) is not modelled.
  - The time of day in the `data` column, and the parsing of that column into dates in the forecasting scripts, are not modelled: dates there are calendar days.
- **Field types.** Record fields are integers, so the failure of `int()` on a non-numeric cell is not modelled.
- **Plotting and its derived floating-point series.** All matplotlib calls, the `/5.5` incidence figure, the decibel ratios with `log10`, and `np.gradient` (tracker lines 140-236 and the plotting lines of both forecasting scripts) are left out.
- **The regression models.** Fitting and prediction with scikit-learn are external. Their outputs (fitted values, predictions, standard deviations) are parameters of `Forecast.ConfidenceBand`; only the shapes and the band built from them are modelled.
- Derived.NewTests, Derived.LastWeekSum: the tracker stores the new-tests differences in a float64 array (`np.zeros` makes one) and computes the differences and the seven-day `np.sum` in int64, which wraps on overflow; the model uses unbounded integers and an integer array. The two agree exactly while every difference stays below 2^53 in magnitude (every such integer is a float64) and every sum below 2^63 (no int64 wrap-around), far above any count of tests or cases.
- **Floating-point arithmetic.** Moving averages and the band are exact reals, not binary floating point; the window sums are exact integers.
- **A one-row series.** `squeeze()` turns it into a zero-dimensional array, which numpy then pads and convolves differently; the model treats it as a one-element series.
- **Convolution with a window longer than the array.** numpy would swap the operands; the case cannot arise, since padding always makes the array at least as long as the window.
- **Timing prints** (`datetime.now()`) and `os.system("open ./")` are left out.
