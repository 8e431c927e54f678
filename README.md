# High-Performance Time-Series Data Processor — a Dafny model of its core

The processor reads daily OHLCV bars from a delimited text file. It annotates each bar with
rolling indicators, derives a position signal in {-1, 0, +1} from one of four trading rules,
and writes the result back out as CSV. This project models that core in Dafny and proves what
it promises:

- the bar record and the column lookup (`numeric.dfy`, `record.dfy`);
- the series container (`timeseries.dfy`);
- the six indicator passes (`indicators.dfy`; properties in `indicator_facts.dfy`);
- the four signal rules (`signals.dfy`; properties in `signal_facts.dfy`);
- the CSV reader's trimming, splitting, parsing and line loop (`csv_reader.dfy`);
- the CSV writer's escaping, indicator-name collection and field layout (`io.dfy`).

Numbers are `Num = NaN | Val(real)`: a double that is either a real or not-a-number.
- Arithmetic propagates NaN, and every ordered comparison with NaN is false, as in IEEE 754.
- A NaN entering a running sum therefore poisons every later value of that sum.
- `std::sqrt`, `std::stod` and the stream's rendering of a double are parameters of the model.

The series is a class whose `rows` field the passes update in place. Each pass is a method
with the loop of the source. It is proved equal to a function of the old rows, such as
`SmaEffect` or `CrossoverEffect`. The lemma files prove the source's promises about those
functions:
- which keys a pass writes and that it touches nothing else;
- warm-up NaNs;
- the window mean and the population standard deviation;
- bounds and idempotence;
- the transition tables of the signal rules;
- the error paths.

An unknown column name is the `InvalidColumn` error of the source's `std::invalid_argument`.
The bars written before the throw stay written.

Where the project's written description and its code differ, the model follows the code:
- A rolling standard deviation is `variance > 0 ? sqrt(variance) : 0.0`, so a window holding NaN gets 0.0, not NaN (`IndicatorFacts.Poisoned`).
- In the crossover rule, a bar whose own averages are defined but whose previous bar's are not gets signal 0, and that 0 becomes the held signal.
- In the crossover rule, the previous bar's averages are read after the rule wrote its output column on that bar. If the output column is one of the two SMA keys, the rule reads its own output (`Signals.CrossRun`).
- Without drop_na, a data line with fewer than seven fields is kept with the zero prices of a default `Record`, not NaN. Its date is the trimmed first field (`CsvReader.LineRecordFacts`).
- `write` does not escape the header's indicator names.

## Model

| member | source | states |
|---|---|---|
| Records.GetColumnValue | src/indicators.cpp:9-17 | the lookup succeeds exactly for the six column names; any other name is the InvalidColumn error carrying that name |
| Records.GetColumnValueFields | src/indicators.cpp:10-15 | each of "open", "high", "low", "close", "adj_close", "volume" selects its own numeric field |
| Records.AnnotateOnlyWrites | src/indicators.cpp:39-41 | writing one indicator key on every bar changes only that key and leaves the given value readable on each bar |
| Records.AnnotateTwice | src/indicators.cpp:39-41 | writing the same values under the same key a second time changes nothing |
| Records.ReadSameFields | src/indicators.cpp:27 | bars whose price fields agree give the same column reading |
| Numeric.NaiveVarianceIsPopulationVariance | src/indicators.cpp:69-71 | the running-sums formula sumsq/n − mean² equals the mean squared deviation from the mean |
| Numeric.PopVarianceFacts | src/indicators.cpp:69-72 | the population variance is never negative and is zero on a constant window |
| Series.TimeSeries.Push | src/timeseries.cpp:7-9 | the bar is appended at the end and every earlier bar is unchanged |
| Series.TimeSeries.Size | src/timeseries.cpp:11-13 | the size is the number of bars held |
| Series.TimeSeries.Empty | src/timeseries.cpp:15-17 | empty exactly when the size is zero |
| Series.TimeSeries.At | src/timeseries.cpp:19-31 | an index below the size gives that bar; any other index is the IndexOutOfRange error |
| Series.TimeSeries.GetCloseSeries | src/timeseries.cpp:49-56 | one close per bar, in bar order |
| Series.TimeSeries.GetColumn | src/timeseries.cpp:58-81 | the chosen column of every bar in order; an unknown column fails with InvalidColumn unless the series is empty, because the throw sits inside the loop |
| Series.TimeSeries.Clear | src/timeseries.cpp:87-89 | afterwards the series holds no bar, its size is 0 and it is empty |
| Indicators.NatToStringInjective | src/indicators.cpp:24 | distinct windows print as distinct decimal strings |
| Indicators.NamesAreKeys | src/indicators.cpp:87-95 | indicator names of one kind are equal only for equal windows, and names of different kinds never collide |
| Indicators.AddSma | src/indicators.cpp:19-44 | the new rows and outcome are SmaEffect of the old rows: the moving average under SMA_w on every bar |
| Indicators.AddRollMeanStd | src/indicators.cpp:46-81 | the new rows and outcome are RollMeanStdEffect of the old rows: ROLL_MEAN_w and ROLL_STD_w on every bar |
| Indicators.AddZscore | src/indicators.cpp:83-117 | the new rows and outcome are ZscoreEffect of the old rows: the rolling statistics computed if missing on bar 0, then Z_w on every bar |
| Indicators.AddEma | src/indicators.cpp:119-140 | the new rows and outcome are EmaEffect of the old rows: the exponential average under EMA_w, seeded by the first value |
| Indicators.AddRollSum | src/indicators.cpp:142-166 | the new rows and outcome are RollSumEffect of the old rows: the window sum under ROLL_SUM_w |
| Indicators.AddVolatility | src/indicators.cpp:168-196 | the new rows and outcome are VolatilityEffect of the old rows: ROLL_STD_w computed if missing on bar 0, then VOL_w = std · sqrt(periods) |
| IndicatorFacts.NoOpOnDegenerate | src/indicators.cpp:20 | on an empty series or a zero window every indicator pass leaves the rows unchanged and succeeds |
| IndicatorFacts.InvalidColumnFails | src/indicators.cpp:26-27 | on a non-empty series with a positive window, an unknown column makes SMA, rolling sum, mean/std and EMA fail with InvalidColumn before any bar is written |
| IndicatorFacts.SingleKeyFrames | src/indicators.cpp:39-41 | SMA, rolling sum and EMA write only their own key and change no field or signal |
| IndicatorFacts.RollMeanStdFrame | src/indicators.cpp:74-78 | the mean/std pass writes only ROLL_MEAN_w and ROLL_STD_w |
| IndicatorFacts.WindowedBars | src/indicators.cpp:26-43 | on a valid column each bar's SMA, rolling sum, rolling mean and rolling std are the window values of the bar's column |
| IndicatorFacts.WarmUp | src/indicators.cpp:37-42 | before w values have been seen the SMA, rolling sum and rolling std are NaN |
| IndicatorFacts.Poisoned | src/indicators.cpp:29-35 | once a NaN value has entered the running sum, every later SMA and rolling sum is NaN and every later full-window std is 0.0 |
| IndicatorFacts.SmaIsRollSumOverWindow | src/indicators.cpp:37-39 | the SMA is the rolling sum divided by the window |
| IndicatorFacts.SmaWithinWindow | src/indicators.cpp:37-39 | with no NaN so far, the SMA lies between the least and the greatest value of its window |
| IndicatorFacts.RollStdIsPopulationStd | src/indicators.cpp:69-72 | with no NaN so far, the rolling std is the square root of the window's population variance |
| IndicatorFacts.RollStdNonNegative | src/indicators.cpp:72 | the rolling std is never negative |
| IndicatorFacts.RollStdOfConstantWindow | src/indicators.cpp:69-72 | a constant window has rolling std exactly 0 |
| IndicatorFacts.AlphaInUnitInterval | src/indicators.cpp:122 | the smoothing factor 2/(w+1) lies in (0, 1] for w ≥ 1 |
| IndicatorFacts.EmaBars | src/indicators.cpp:128-139 | on a valid column every bar's EMA_w is the exponential average up to that bar |
| IndicatorFacts.EmaWithinBounds | src/indicators.cpp:131-136 | the EMA stays within any bounds that hold all values seen so far |
| IndicatorFacts.EmaPoisoned | src/indicators.cpp:135 | after a NaN value the EMA is NaN for good |
| IndicatorFacts.ZBarFails | src/indicators.cpp:100-115 | a bar's z-score step fails exactly when both rolling keys are present and the column is unknown |
| IndicatorFacts.ZFromClosed | src/indicators.cpp:97-116 | when no bar fails, the z pass writes every bar's z value and succeeds |
| IndicatorFacts.ZFromFails | src/indicators.cpp:105 | a failing bar makes the pass fail with InvalidColumn |
| IndicatorFacts.ZscoreFrame | src/indicators.cpp:83-117 | the z-score pass writes only the two rolling keys and Z_w |
| IndicatorFacts.ZscoreLazy | src/indicators.cpp:91-93 | when bar 0 already holds ROLL_MEAN_w the rolling statistics are not recomputed |
| IndicatorFacts.ZscoreFresh | src/indicators.cpp:91-116 | when they are missing, each bar's Z_w is (value − mean)/std of its window, or NaN when undefined or std ≤ 1e-10 |
| IndicatorFacts.ZscoreOfWarmBar | src/indicators.cpp:107-109 | with no NaN so far, the z-score is (x − window mean)/population std when that std exceeds 1e-10, else NaN |
| IndicatorFacts.ZscoreWarmUp | src/indicators.cpp:110-115 | before the window is full the z-score is NaN |
| IndicatorFacts.VolatilityFrame | src/indicators.cpp:168-196 | the volatility pass writes only the two rolling keys and VOL_w |
| IndicatorFacts.VolatilityFresh | src/indicators.cpp:175-195 | when ROLL_STD_w is missing on bar 0, a bar's VOL_w is NaN during warm-up and otherwise its rolling std times sqrt(periods per year) |
| IndicatorFacts.SingleKeyIdempotent | src/indicators.cpp:39-41 | running SMA, rolling sum or EMA twice gives the same rows and outcome as once |
| IndicatorFacts.RollMeanStdIdempotent | src/indicators.cpp:74-75 | running the mean/std pass twice equals running it once |
| IndicatorFacts.ZscoreIdempotent | src/indicators.cpp:91-115 | after a successful z-score pass, a second pass changes nothing |
| IndicatorFacts.VolatilityIdempotent | src/indicators.cpp:175-195 | after a successful volatility pass, a second pass changes nothing |
| Signals.SmaCrossover | src/signals.cpp:9-76 | the new rows are CrossoverEffect of the old rows: SMAs computed if missing, then the crossover pass |
| Signals.PrepareCrossover | src/signals.cpp:16-22 | the rows after the two lazy SMA computations are CrossoverPrepared of the old rows |
| Signals.CrossBar | src/signals.cpp:35-70 | one bar's crossover signal and held signal are one step of the crossover run |
| Signals.RunCrossover | src/signals.cpp:24-75 | the pass tags every bar with the signals of CrossRun, reading the previous bar as already tagged |
| Signals.ZscoreMeanReversion | src/signals.cpp:78-123 | the new rows are MeanReversionEffect of the old rows: z-scores computed if missing, then the reversion pass |
| Signals.RunReversion | src/signals.cpp:89-122 | the pass tags every bar with the positions of ReversionRun |
| Signals.MomentumStrategy | src/signals.cpp:125-157 | the new rows and outcome are MomentumEffect: unchanged when the series is no longer than the window, else bars before the window are 0 and later bars carry the momentum signal, or InvalidColumn after the warm-up bars are written |
| Signals.BollingerBreakout | src/signals.cpp:159-209 | the new rows and outcome are BollingerEffect of the old rows: rolling statistics computed if missing, then the band pass |
| Signals.BandBar | src/signals.cpp:181-203 | with both bands defined the signal and new position are the breakout decision; otherwise the signal is 0 and the position is kept |
| Signals.RunBands | src/signals.cpp:171-208 | the pass tags bars with the positions of BandRun, failing with InvalidColumn at the first bar holding both rolling keys when the column is unknown |
| SignalFacts.TaggedMarks | src/signals.cpp:64-73 | a tagged bar holds its signal both in the output column and as its position, and nothing else changes |
| SignalFacts.CrossRunPositions | src/signals.cpp:36-66 | every crossover signal and the held signal are in {-1, 0, 1} |
| SignalFacts.CrossRunPrefix | src/signals.cpp:26-75 | a bar's crossover signal depends only on that bar and the bars before it |
| SignalFacts.ReversionRunPositions | src/signals.cpp:99-113 | every reversion position is in {-1, 0, 1} |
| SignalFacts.ReversionRunPrefix | src/signals.cpp:91-122 | a bar's reversion position depends only on bars up to it |
| SignalFacts.BandRunPositions | src/signals.cpp:186-199 | every band position is in {-1, 0, 1} |
| SignalFacts.BandRunPrefix | src/signals.cpp:173-208 | a bar's band position depends only on bars up to it |
| SignalFacts.SmaIfMissingFacts | src/signals.cpp:17-22 | the lazy SMA step writes only SMA_w, keeps the closes, and when it runs every bar's SMA_w is the close average |
| SignalFacts.CrossoverPreparedFrame | src/signals.cpp:16-22 | preparation writes only the two SMA keys |
| SignalFacts.CrossoverPreparation | src/signals.cpp:16-22 | a missing SMA is computed on the closes; when both are present the rows are untouched |
| SignalFacts.CrossoverMarks | src/signals.cpp:9-76 | no-op on an empty series or fast ≥ slow; otherwise every bar is tagged with a position, and only the SMA keys, the output column and the signals change |
| SignalFacts.CrossoverTable | src/signals.cpp:35-70 | signal 0 without a defined current and previous pair; +1 on a golden cross, −1 on a death cross, else the previous bar's signal |
| SignalFacts.ZscoreOnCloseSucceeds | src/signals.cpp:84-87 | the lazy z-score on "close" never fails |
| SignalFacts.ReversionPreparedFrame | src/signals.cpp:84-87 | preparation writes only the rolling keys and Z_w, and nothing when bar 0 already holds Z_w |
| SignalFacts.MeanReversionMarks | src/signals.cpp:91-122 | every bar is tagged with a position; only the rolling keys, Z_w, the output column and the signals change |
| SignalFacts.ReversionTable | src/signals.cpp:94-121 | the position starts flat; a NaN or missing z gives 0 for that bar only and keeps the carried position; z < −entry is long, z > entry is short, abs(z) < exit flattens an open position, else the position holds |
| SignalFacts.MomentumBars | src/signals.cpp:125-157 | per bar: the warm-up bars are 0; a past price ≤ 1e-10 or a NaN price gives 0; momentum above upper is long, below lower is short, else flat; an unknown column fails with only the warm-up bars written |
| SignalFacts.BollingerOutcome | src/signals.cpp:159-209 | a known column always succeeds; an unknown one fails with InvalidColumn exactly when some bar holds both rolling keys after preparation; only the rolling keys, the output column and the signals change |
| SignalFacts.BollingerBars | src/signals.cpp:173-208 | per bar: undefined bands give 0 and keep the position; above the upper band is long, below the lower band is short, inside the bands is flat, a NaN price keeps the position |
| CsvReader.Trim | src/csv_reader.cpp:35-40 | the result is empty exactly for all-whitespace input, and otherwise neither of its ends is whitespace |
| CsvReader.TrimParts | src/csv_reader.cpp:35-40 | the result is a substring of the input, and only whitespace is cut on either side |
| CsvReader.TrimOfPadded | src/csv_reader.cpp:36-39 | a string with non-whitespace ends, padded by whitespace on both sides, trims back to itself |
| CsvReader.TrimIdempotent | src/csv_reader.cpp:35-40 | trimming twice equals trimming once |
| CsvReader.SplitLineFast | src/csv_reader.cpp:20-33 | the loop returns the fields SplitFields gives for the line |
| CsvReader.SplitFacts | src/csv_reader.cpp:25-30 | there is one field more than there are delimiters, no field holds the delimiter, and joining the fields with the delimiter restores the line |
| CsvReader.SplitOfJoin | src/csv_reader.cpp:25-30 | splitting the join of delimiter-free fields gives those fields back |
| CsvReader.SafeStodFacts | src/csv_reader.cpp:42-50 | a blank field or one the converter rejects is NaN; otherwise it is the converter's value on the trimmed text, unaffected by surrounding whitespace |
| CsvReader.ParseRecord | src/csv_reader.cpp:52-72 | fewer than 7 columns fail and leave the record untouched; otherwise the date is the trimmed column 0, the six numbers are the converted columns 1 to 6, and the row is valid exactly when none is NaN |
| CsvReader.ReadLine | src/csv_reader.cpp:96-114 | a data line pushes nothing when blank or, under drop_na, invalid; otherwise it pushes its parsed bar, dated by its trimmed first field when invalid |
| CsvReader.ReadToTimeSeries | src/csv_reader.cpp:74-119 | the series holds ReadRows of the lines: the header is skipped, then the bars of the data lines in order |
| CsvReader.LineRecordFacts | src/csv_reader.cpp:101-112 | every bar read is dated by its trimmed first field; a line with fewer than six delimiters is invalid and keeps the zero prices of a default record; the valid ones have all six numbers |
| CsvReader.BlankLinesIgnored | src/csv_reader.cpp:96-99 | inserting a line that trims to empty anywhere among the data lines changes no bar |
| CsvReader.DropNaComplete | src/csv_reader.cpp:104-108 | with drop_na every bar read has six non-NaN numbers |
| CsvReader.KeepAllIsOnePerLine | src/csv_reader.cpp:104-114 | without drop_na there is exactly one bar per non-blank data line, in line order |
| CsvReader.DropNaIsValidLines | src/csv_reader.cpp:104-108 | with drop_na the bars are those of the valid non-blank lines, in line order |
| CsvWriter.Escape | src/io.cpp:18-30 | a field without comma, quote or line feed is unchanged; otherwise the result is wrapped in quotes |
| CsvWriter.EscapeFacts | src/io.cpp:18-30 | a quoted field has every inner quote doubled, length len + 2 + number of quotes, and unescaping recovers the field |
| CsvWriter.EscapeCsvField | src/io.cpp:16-31 | the loop produces the escaped form of the field |
| CsvWriter.SetInsert | src/io.cpp:38 | inserting into the ordered contents of a set keeps them strictly increasing and adds exactly the new name |
| CsvWriter.StrictlySortedDistinct | src/io.cpp:42 | the set's ordered contents hold no name twice |
| CsvWriter.CollectIndicatorNames | src/io.cpp:33-43 | the names come out strictly increasing in string order, and they are exactly the keys present on some bar |
| CsvWriter.ChosenIndicators | src/io.cpp:54-59 | a non-empty extra_cols replaces the collected names; otherwise the collected names are used |
| CsvWriter.Write | src/io.cpp:53-93 | the header is the eight fixed columns followed by the chosen indicators; there is one line per bar, each as wide as the header, holding the bar's fixed fields and one field per indicator |
| CsvWriter.WriteColumns | src/io.cpp:107-141 | the header is the given columns; each line holds one field per column for its bar |
| CsvWriter.WriteColumnsOfHeaderIsWriteRow | src/io.cpp:118-138 | given write's own header, write_columns lays a bar out exactly as write does when no indicator is named like a fixed column |
| CsvWriter.MissingIsNaN | src/io.cpp:84-89 | an indicator missing from a bar or holding NaN is written as the token NaN by both writers |
| CsvWriter.HeaderReadsBack | src/io.cpp:61-66 | a header of comma-free names splits back, on the reader's side, into those names |

## Left out

- File and stream I/O: opening, the "could not open" error returns, `getline` and `is_open`. The reader is given the file as its sequence of lines. The writer produces each line as its sequence of fields; joining them with commas and newlines into text is not modelled.
- `CSVReader::stream_to` (src/csv_reader.cpp:121-155): callback plumbing around the same line loop.
- `BinaryWriter` and `BinaryReader` (src/io.cpp:151-231): they copy the bytes of IEEE doubles, which depends on the machine's float layout and endianness.
- `std::stod` is the parameter `stod`. `None` stands for a conversion that throws; a value (possibly NaN) stands for one that succeeds. Its prefix parsing is not modelled.
- The stream's rendering of a double is the parameter `show`. An `int` is printed in decimal.
- IEEE 754 rounding, cancellation, infinities and overflow are not modelled: `Val` holds an exact real. The clamp at src/indicators.cpp:72 therefore matters only for NaN.
- Windows are unbounded naturals, so `size_t` wrap-around is not modelled.
- The threshold parameters are never NaN reals: entry, exit, upper, lower, the number of standard deviations and the periods per year.
- The square root is a parameter. The lemmas that need its behaviour assume only sqrt(0) = 0 and that it is non-negative on non-negative arguments.
- `include/indicators.hpp` calls the rolling-statistics loop a Welford-style algorithm. The code keeps a naive sum and sum of squares, and that code is what is modelled.
- `main.cpp` (argument parsing, console output, call sequencing) and `tools/gen_synthetic.py` are not part of this model.
- `reserve`, `begin`, `end`, `operator[]`'s reference return, and the constructors that only store a path are not modelled. The delimiter is a parameter of the reader functions.
- Test expectations that disagree with the source are not encoded:
  - the key `ZSCORE_3`, where the code writes `Z_3`;
  - calls to `threshold_signal` and `write_binary`, which do not exist;
  - an expected throw when writing an empty series, where the code returns true.
- The iteration order of a bar's `unordered_map` is irrelevant to `collect_indicator_names`: the inner loop picks the keys in an arbitrary order.
- String order compares characters by code point. For ASCII, and for UTF-8 bytes, this agrees with `std::string`'s comparison of unsigned chars.
- IndicatorFacts.ZscoreIdempotent: stated only when the first pass succeeds, because a failed pass leaves partly written bars.
- IndicatorFacts.VolatilityIdempotent: stated only when the first pass succeeds, for the same reason.
- SignalFacts.CrossoverTable: stated only when the output column differs from both SMA keys. When it aliases one of them, the rule reads its own output, which `Signals.CrossRun` models but no closed table describes.
- SignalFacts.CrossoverPreparation: stated for 0 < fast < slow. With a zero fast window the lazy SMA step is a no-op and writes nothing.
- SignalFacts.BollingerBars: stated for a known column; an unknown one is covered by SignalFacts.BollingerOutcome.
