# zemon dashboard core, modelled in Dafny

zemon is a terminal system monitor. Every refresh interval it samples CPU,
memory, swap, network and load figures and draws them as a dashboard with
two tabs: gauges and a CPU sparkline on the `perf` tab, and a large
seven-segment clock on the `clock` tab. This project models the two parts of
the program that hold its logic:

- `dashboard.dfy`, module `Dashboard` (src/main.rs). It holds the `App` state
  as a class. The CPU history is a `seq` field that refreshes prepend to and
  the terminal width truncates from the tail. Refreshes are gated by the
  elapsed time. The network byte deltas use saturating subtraction. The tab
  toggles. The clock-colour index wraps forward and clamps backward. The key
  dispatch of the main loop is modelled, and so is one whole loop iteration
  (`App.Step`). Also modelled as pure functions: the gauge colour thresholds,
  the tab functions and the sparkline floor of 10.
- `clock.dfy`, module `Clock` (src/clock.rs). It holds the segment shapes and
  the colon and digit tables. It models `Segment::fmt`, `Character::fmt` and
  the loops of `render_clock` that build five lines of spans from a time
  string. A span is its width and whether it is painted in the clock colour,
  because all the text the source renders is blank.
- `palette.dfy`, module `Palette`: the named colours of the drawing library.

Sensor readings are inputs to the methods: the CPU sample, already truncated
to an integer by `as u64`, and the cumulative network byte totals. Time is a
natural number of ticks that takes the place of `Instant`, and `elapsed()`
saturates at 0 as `Instant::elapsed` does. The time string of the clock is an
input too.

Facts about the source that the model keeps:
- `App::new` starts with 200 zero samples and a terminal width of 0, so the
  history can be longer than the width until the first resize or due
  refresh. `App.Step` ensures "history length ≤ terminal width" after every
  loop iteration, because drawing sets the width first.
- The memory and swap percentages do not guard against a zero total. Both
  are floating point and are left out.
- The digit lookup `NUMBERS[n * 5 + row]` is in bounds whenever
  `n * 5 + row < 50`. `Fmt` requires exactly that. Under the renderer's rows
  0 to 4 this is the same as `n <= 9` (`Clock.DigitIndexInBounds`).
- The `Center` and `Empty` arms of the digit `match` are never reached,
  because the table uses neither shape (`Clock.DigitTableShapes`). A `Center`
  digit row would be only five cells wide and an `Empty` one six.
- The network counters are read only on performance-tab refreshes, while
  the refresh time moves on both tabs (see "## Findings").

## Model

| member | source | states |
|---|---|---|
| `Dashboard.Tab.Next` | src/main.rs:66-71 | the result is the other tab |
| `Dashboard.NextInvolution` | src/main.rs:66-71 | next(next(t)) == t; Perf and Clock swap |
| `Dashboard.Tab.Name` | src/main.rs:59-64 | the label is non-empty and ends in ')' |
| `Dashboard.TabNamesDistinct` | src/main.rs:59-64 | the two tab labels differ |
| `Dashboard.GaugeColor` | src/main.rs:100-107 | Blue iff p < 25, Cyan iff 25 ≤ p < 50, Yellow iff 50 ≤ p < 75, Red iff p ≥ 75 (half-open buckets) |
| `Dashboard.GaugeColorMonotone` | src/main.rs:100-107 | a larger percentage never gets a less severe colour |
| `Dashboard.NextColorIndex` | src/main.rs:176-178 | the result is below 16; i+1 for i < 15, and 15 wraps to 0 |
| `Dashboard.PrevColorIndex` | src/main.rs:180-182 | the result is below 16; 0 stays 0 and i in 1..16 becomes i−1 (no wrap) |
| `Dashboard.ColorIndexSteps` | src/main.rs:176-182 | prev undoes next below 15 and next undoes prev above 0; at the ends next(15) = 0 and next(prev(0)) = 1 (the wrap/clamp asymmetry) |
| `Dashboard.Truncated` | src/main.rs:167-169 | the popped history is the prefix of length min(old length, n) |
| `Dashboard.TruncatedProperties` | src/main.rs:164-170 | truncation never grows the history, is the identity when it already fits, and is idempotent |
| `Dashboard.Sampled` | src/main.rs:224-234 | after a refresh: the length is min(old + 1, width) ≤ width, the head is the sample, and the rest is the old history shifted by one |
| `Dashboard.ReplayBounded` | src/main.rs:164-170 | after any non-empty run of resizes and refreshes (including a resize to 0), the history length is ≤ the last width |
| `Dashboard.SparklineData` | src/main.rs:327-331 | same length as the history; each element is max(x, 10) |
| `Dashboard.SparklineIdempotent` | src/main.rs:327-331 | applying the floor twice is applying it once |
| `Dashboard.SaturatingSub` | src/main.rs:209-211 | 0 when the total is below the previous counter, total − prev otherwise; never above the total |
| `Dashboard.DeltasAdd` | src/main.rs:209-217 | with counters that do not reset, the deltas of consecutive refreshes add up to the overall delta |
| `Dashboard.NetRefresh` | src/main.rs:189-236 | the network bookkeeping of one refresh as written: nothing changes before the interval; when due the refresh time becomes now; on the perf tab the delta saturates, the counter becomes the total and the rate divisor is the time since the last refresh of either tab; on the clock tab only the refresh time moves |
| `Dashboard.NetRefreshWindowSkew` | src/main.rs:194-236 | perf refresh at t1, clock refresh at t2, perf refresh at t3: the bytes counted are those since t1 but the divisor is t3 − t2 |
| `Dashboard.NetRefreshWindowSkewExample` | src/main.rs:194-236 | refreshes at 2 (perf), 100 (clock) and 102 (perf) with totals 1000 and 51000 give 50000 bytes over 2 ticks |
| `Dashboard.NetRefreshCorrected` | src/main.rs:189-236 | the corrected bookkeeping: nothing changes before the interval; when due the refresh time becomes now; on the perf tab the counter reading time becomes now, the counter becomes the total, the delta saturates and the rate divisor is the time since the previous counter reading; a clock refresh changes nothing but the refresh time |
| `Dashboard.ClockRun` | src/main.rs:189-236 | any run of clock-tab refreshes changes nothing but the refresh time, which ends at the start time or at one of the run's times |
| `Dashboard.NetRefreshCorrectedWindow` | src/main.rs:194-236 | corrected, a perf refresh at t1, any number of clock refreshes at times no later than t3 − interval, and a perf refresh at t3 count the bytes since t1 and divide by t3 − t1, the same window |
| `Dashboard.Dispatch` | src/main.rs:284-290 | quit iff q, Q or Esc; switch iff Tab; prev/next colour iff Left/Right on the clock tab; everything else is ignored |
| `Dashboard.App.constructor` | src/main.rs:110-157 | 200 zero samples, width 0, the perf tab, colour index 15, last update = now, previous counters = first totals |
| `Dashboard.App.ClockColor` | src/main.rs:184-186 | the clock colour is an entry of the 16-colour palette; index 0 is Black and the initial index 15 is Gray |
| `Dashboard.App.Due` | src/main.rs:189 | due iff at least the interval has passed since the last refresh; a clock reading before the last refresh counts as 0 elapsed, so only a zero interval is then due |
| `Dashboard.App.PopToWidth` | src/main.rs:231-234 | the pop loop leaves Truncated(old history, terminal width) |
| `Dashboard.App.SetTerminalWidth` | src/main.rs:164-170 | width == w; history == Truncated(old, w), never longer; unchanged when w ≥ old length |
| `Dashboard.App.SwitchTab` | src/main.rs:172-174 | the tab becomes old.Next(); only the tab field may change, so the history is untouched |
| `Dashboard.App.NextClockColor` | src/main.rs:176-178 | the index becomes NextColorIndex(old) and stays below 16; only the index changes |
| `Dashboard.App.PrevClockColor` | src/main.rs:180-182 | the index becomes PrevColorIndex(old) and stays below 16; only the index changes |
| `Dashboard.App.UpdateSystemStats` | src/main.rs:188-238 | before the interval has elapsed nothing changes; when due the history becomes Sampled(old, sample, width) and last update = now; on the perf tab the deltas saturate, the previous counters become the totals and the rate divisor is the time since the last refresh; on the clock tab the network fields keep their values; the received-bytes fields follow NetRefresh |
| `Dashboard.App.HandleKey` | src/main.rs:284-290 | returns quit as Dispatch says; the tab toggles only on Tab; the colour index moves only on Left/Right in the clock tab |
| `Dashboard.App.Step` | src/main.rs:277-296 | one loop iteration: afterwards width == the terminal width and the history is ≤ width long; the history is the truncated (possibly sampled) old history; the last update is now iff the refresh was due; the network fields follow NetRefresh on the tab before the key; the sparkline data is SparklineData(history); quits iff the key quits; the tab toggles only on Tab and the colour index moves only on Left/Right in the clock tab |
| `Clock.SegmentSpan` | src/clock.rs:20-31 | Full is a 6-cell styled span, Left/Center/Right/Sides are 2-cell styled spans, Empty is a 6-cell unstyled span; styled spans carry the colour |
| `Clock.DigitPatterns` | src/clock.rs:49-58 | digit 0 is Full, Sides, Sides, Sides, Full; digit 1 is five Rights; digit 8 is Full, Sides, Full, Sides, Full |
| `Clock.DigitTableShapes` | src/clock.rs:48-99 | every digit-table entry is Full, Left, Right or Sides |
| `Clock.DigitIndexInBounds` | src/clock.rs:104 | for rows 0..4, the index n*5 + row is in bounds exactly when n ≤ 9 |
| `Clock.DigitSpans` | src/clock.rs:105-119 | a digit row is one to four spans |
| `Clock.ColonSpans` | src/clock.rs:122-127 | a colon row is one to three spans |
| `Clock.Fmt` | src/clock.rs:101-131 | requires the table lookup to be in bounds; one to four spans; every styled span carries the colour |
| `Clock.DigitSpansWidth` | src/clock.rs:105-119 | Full, Left, Right and Sides rows pad to 7 cells (6+1, 2+5, 4+2+1, 2+2+2+1) |
| `Clock.ColonSpansWidth` | src/clock.rs:121-127 | every colon row is 6 cells |
| `Clock.FmtWidth` | src/clock.rs:101-131 | every digit row is 7 cells wide; every colon row and every blank character row is 6 |
| `Clock.DigitSpansCells` | src/clock.rs:105-119 | each digit-row shape lights exactly its cells: bar ######., left ##....., right ....##., sides ##..##., centre .##.. (5 cells), empty ...... (6 cells) |
| `Clock.DigitRowCells` | src/clock.rs:101-120 | every rendered digit row is 7 cells wide with the seventh cell unlit, so neighbouring digits never touch |
| `Clock.DigitGlyph` | src/clock.rs:48-120 | for every digit 0 to 9, rendered row r lights the cells of the table's r-th shape for that digit |
| `Clock.OneGlyph` | src/clock.rs:50-120 | the rendered one is ....##. on all five rows |
| `Clock.ColonAndBlankRows` | src/clock.rs:121-129 | colon rows 1 and 3 are 2 blank + 2 styled + 2 blank cells; rows 0, 2, 4 are one 6-cell blank; a blank character is one 6-cell blank on every row |
| `Clock.Classify` | src/clock.rs:142-148 | ':' becomes Colon, an ASCII digit becomes Num of its value (≤ 9), anything else becomes Empty |
| `Clock.RenderRow` | src/clock.rs:141-150 | line r is the in-order concatenation of fmt(c, r); its width is 6 × length + number of digits |
| `Clock.RenderRowAppend` | src/clock.rs:141-150 | rendering a concatenation of strings concatenates their renderings |
| `Clock.RenderClock` | src/clock.rs:139-152 | exactly 5 lines; line r is RenderRow(time, r), of width 6 × length + number of digits |
| `Clock.TimeLineWidth` | src/clock.rs:139-152 | for an "HH:MM:SS" string every line is 6·7 + 2·6 = 54 cells wide |

## Left out

- Sensor reads through sysinfo (`System::new_all`, `refresh_all`, `refresh_cpu_all`, `Networks::refresh`, `load_average`, `name`, `kernel_version`, `uptime`, src/main.rs:111-131 and 191-222) are foreign calls. The CPU sample and the network totals are method inputs. Load averages, OS name, kernel version and uptime are not modelled.
- Floating point is not modelled: the download and upload rates (`bytes / elapsed_secs / 1024`), the GB conversions, the memory and swap percentages, `cpu_usage`, and the `as u64` / `as u16` casts. The model keeps the byte deltas that are the numerators of the rates (`bytesReceived`, `bytesTransmitted`). Only `GaugeColor` is modelled, over `real`, with NaN out of scope.
- Overflow of the `u64` sum of per-interface totals (src/main.rs:122-125, 204-207) is not modelled: the totals arrive already summed.
- `Dashboard.App.UpdateSystemStats`: it takes one `now`. The source reads the clock three times: for the gate, for `elapsed_secs` and for the new `last_update`.
- Terminal plumbing is not modelled: raw mode, alternate screen, mouse capture, `event::poll` / `event::read`, teardown and error printing (src/main.rs:241-271, 281-282). Non-key events are treated as no key.
- Layout and widget drawing are not modelled: `Layout`, `Gauge`, `Paragraph`, `Sparkline`, `render_widget`, `render_perf_tab`, `render_clock_tab`, src/clock.rs:154-171, and the "{name} TAB" label text. Only the data they are given is modelled.
- `chrono` is not modelled: the time string is an input and the date line is not modelled. Argument parsing with clap is not modelled either: the refresh interval is a constructor parameter.
- The endless `run_app` loop is modelled as one iteration, `Dashboard.App.Step`.
- `Dashboard.Tab.Name`: the contract does not spell out the two label strings, only that they end in ')' and differ (`Dashboard.TabNamesDistinct`).
- `Clock.DigitSpans`: the contract states only the span count; the widths and lit cells of the shapes the table uses are in `Clock.DigitSpansWidth` and `Clock.DigitSpansCells`.
- `Clock.ColonSpans`: the contract states only the span count; the width is in `Clock.ColonSpansWidth` and the exact rows in `Clock.ColonAndBlankRows`.

## Findings

| source | as written | input that shows it | evidently intended | confidence | as-written member | corrected member |
|---|---|---|---|---|---|---|
| src/main.rs:194-236 | the rate divides the bytes since the last perf-tab counter reading by the time since the last refresh of either tab, because `last_update` also moves on clock-tab refreshes | interval 2; perf refresh at 2 (total 1000), clock refresh at 100, perf refresh at 102 (total 51000): 50000 bytes divided by 2 ticks instead of 100 | divide by the time since the counters were last read | not executed | `Dashboard.NetRefreshWindowSkewExample` | `Dashboard.NetRefreshCorrectedWindow` |
