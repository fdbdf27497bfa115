/** The dashboard state machine of the system monitor (src/main.rs): the two
    tabs, the gauge severity colours, the clock-colour selection, the CPU
    history that feeds the sparkline, the refresh gate, the saturating
    network byte deltas and the key dispatch of one loop iteration.

    Sensor reads are inputs: the CPU sample (already truncated to an integer,
    as `cpu_usage as u64` does) and the cumulative network byte totals.
    Time is a natural number of ticks in place of `Instant`. */
module Dashboard {
  import opened Palette

  const U16_LIMIT: nat := 0x1_0000
  const U64_LIMIT: nat := 0x1_0000_0000_0000_0000

  /** An input event that may or may not have arrived. */
  datatype Option<+T> = None | Some(value: T)

  /** Rust's `u16` and `u64`. */
  type uint16 = x: nat | x < U16_LIMIT
  type uint64 = x: nat | x < U64_LIMIT

  // ---------------------------------------------------------------------
  // Tabs
  // ---------------------------------------------------------------------

  datatype Tab = Perf | Clock {

    /** The label shown in the tab line. */
    function Name(): (s: string)
      ensures |s| > 0 && s[|s| - 1] == ')'
    {
      match this
      case Perf => "perf(1)"
      case Clock => "clock(2)"
    }

    /** The other tab: there are exactly two, so `Next` swaps them. */
    function Next(): (t: Tab)
      ensures t != this
    {
      match this
      case Perf => Clock
      case Clock => Perf
    }
  }

  /** Switching twice returns to the tab one started from. */
  lemma NextInvolution(t: Tab)
    ensures t.Next().Next() == t
    ensures t.Next() == (if t == Perf then Clock else Perf)
  {
  }

  /** The two labels differ, so the tab line tells the tabs apart. */
  lemma TabNamesDistinct()
    ensures Perf.Name() != Clock.Name()
  {
    assert Perf.Name()[0] != Clock.Name()[0];
  }

  // ---------------------------------------------------------------------
  // Gauge colours
  // ---------------------------------------------------------------------

  /** The gauge colour of a percentage: four half-open buckets of width 25. */
  function GaugeColor(percentage: real): (c: Color)
    ensures c == Blue <==> percentage < 25.0
    ensures c == Cyan <==> 25.0 <= percentage < 50.0
    ensures c == Yellow <==> 50.0 <= percentage < 75.0
    ensures c == Red <==> 75.0 <= percentage
  {
    if percentage < 25.0 then Blue
    else if percentage < 50.0 then Cyan
    else if percentage < 75.0 then Yellow
    else Red
  }

  /** The severity order of the four gauge colours. */
  function GaugeRank(c: Color): nat
  {
    match c
    case Blue => 0
    case Cyan => 1
    case Yellow => 2
    case _ => 3
  }

  /** A larger percentage never gets a less severe colour. */
  lemma GaugeColorMonotone(p: real, q: real)
    requires p <= q
    ensures GaugeRank(GaugeColor(p)) <= GaugeRank(GaugeColor(q))
  {
  }

  // ---------------------------------------------------------------------
  // Clock colour selection
  // ---------------------------------------------------------------------

  /** The palette the clock colour index selects from. */
  const CLOCK_COLORS: seq<Color> := [
    Black, Red, Green, Yellow, Blue, Magenta, Cyan, White,
    DarkGray, LightRed, LightGreen, LightYellow, LightBlue,
    LightMagenta, LightCyan, Gray
  ]

  /** `(i + 1) % 16`: steps forward and wraps from the last colour to the first. */
  function NextColorIndex(i: nat): (j: nat)
    ensures j < |CLOCK_COLORS|
    ensures i + 1 < |CLOCK_COLORS| ==> j == i + 1
    ensures i + 1 == |CLOCK_COLORS| ==> j == 0
  {
    (i + 1) % |CLOCK_COLORS|
  }

  /** `i.saturating_sub(1) % 16`: steps back and stays at the first colour. */
  function PrevColorIndex(i: nat): (j: nat)
    ensures j < |CLOCK_COLORS|
    ensures i == 0 ==> j == 0
    ensures 0 < i <= |CLOCK_COLORS| ==> j == i - 1
  {
    (if i == 0 then 0 else i - 1) % |CLOCK_COLORS|
  }

  /** The two directions are inverse except at the ends of the palette:
      forward wraps from the last index to 0, backward does not wrap from 0. */
  lemma ColorIndexSteps(i: nat)
    requires i < |CLOCK_COLORS|
    ensures i + 1 < |CLOCK_COLORS| ==> PrevColorIndex(NextColorIndex(i)) == i
    ensures 0 < i ==> NextColorIndex(PrevColorIndex(i)) == i
    ensures NextColorIndex(|CLOCK_COLORS| - 1) == 0
    ensures NextColorIndex(PrevColorIndex(0)) == 1
    ensures PrevColorIndex(NextColorIndex(|CLOCK_COLORS| - 1)) == 0
  {
  }

  // ---------------------------------------------------------------------
  // CPU history
  // ---------------------------------------------------------------------

  /** The history after popping from the tail until it is at most `n` long. */
  function Truncated(h: seq<uint64>, n: nat): (r: seq<uint64>)
    ensures |r| == if |h| <= n then |h| else n
    ensures r == h[..|r|]
  {
    if |h| <= n then h else h[..n]
  }

  /** The history after a refresh: the sample goes in at the head, then the
      tail is popped down to the terminal width. */
  function Sampled(h: seq<uint64>, sample: uint64, width: nat): (r: seq<uint64>)
    ensures |r| <= width
    ensures |r| == if |h| < width then |h| + 1 else width
    ensures |r| > 0 ==> r[0] == sample
    ensures forall i :: 0 < i < |r| ==> r[i] == h[i - 1]
  {
    Truncated([sample] + h, width)
  }

  /** Truncation never grows the history, leaves it alone when it already
      fits, and truncating twice to the same width is truncating once. */
  lemma TruncatedProperties(h: seq<uint64>, n: nat)
    ensures |Truncated(h, n)| <= |h| && |Truncated(h, n)| <= n
    ensures |h| <= n ==> Truncated(h, n) == h
    ensures Truncated(Truncated(h, n), n) == Truncated(h, n)
    ensures forall m: nat :: m <= n ==> Truncated(Truncated(h, n), m) == Truncated(h, m)
  {
  }

  /** One event that changes the history: a terminal resize or a refresh. */
  datatype HistoryEvent = Resize(width: uint16) | Sample(value: uint64)

  /** The history and the terminal width after a run of events. */
  function Replay(h: seq<uint64>, width: nat, events: seq<HistoryEvent>): (seq<uint64>, nat)
    decreases |events|
  {
    if events == [] then (h, width)
    else
      match events[0]
      case Resize(w) => Replay(Truncated(h, w), w, events[1..])
      case Sample(x) => Replay(Sampled(h, x, width), width, events[1..])
  }

  /** Once any resize or refresh has happened, the history never exceeds the
      last width set, whatever the sequence of events (a resize to 0 too). */
  lemma {:induction false} ReplayBounded(h: seq<uint64>, width: nat, events: seq<HistoryEvent>)
    requires events != [] || |h| <= width
    ensures |Replay(h, width, events).0| <= Replay(h, width, events).1
    decreases |events|
  {
    if events != [] {
      match events[0]
      case Resize(w) =>
        ReplayBounded(Truncated(h, w), w, events[1..]);
      case Sample(x) =>
        ReplayBounded(Sampled(h, x, width), width, events[1..]);
    }
  }

  /** The data handed to the sparkline: every sample raised to at least 10. */
  function SparklineData(h: seq<uint64>): (d: seq<uint64>)
    ensures |d| == |h|
    ensures forall i :: 0 <= i < |d| ==> 10 <= d[i] && h[i] <= d[i]
    ensures forall i :: 0 <= i < |d| ==> (h[i] < 10 ==> d[i] == 10) && (10 <= h[i] ==> d[i] == h[i])
  {
    seq(|h|, i requires 0 <= i < |h| => if h[i] < 10 then 10 else h[i])
  }

  /** Raising to the floor a second time changes nothing. */
  lemma SparklineIdempotent(h: seq<uint64>)
    ensures SparklineData(SparklineData(h)) == SparklineData(h)
  {
  }

  // ---------------------------------------------------------------------
  // Network deltas and the refresh gate
  // ---------------------------------------------------------------------

  /** Rust's `a.saturating_sub(b)` on `u64`. */
  function SaturatingSub(a: uint64, b: uint64): (d: uint64)
    ensures a < b ==> d == 0
    ensures b <= a ==> d + b == a
    ensures d <= a
  {
    if a < b then 0 else a - b
  }

  /** While a counter does not reset, the deltas of two consecutive refreshes
      add up to the delta across both. */
  lemma DeltasAdd(a: uint64, b: uint64, c: uint64)
    requires a <= b <= c
    ensures SaturatingSub(c, a) == SaturatingSub(c, b) + SaturatingSub(b, a)
  {
  }

  /** `Instant::elapsed`: time since `since`, and 0 if the clock reads earlier. */
  function Elapsed(since: nat, now: nat): nat
  {
    if since <= now then now - since else 0
  }

  // ---------------------------------------------------------------------
  // The window a network rate covers
  // ---------------------------------------------------------------------

  /** The network bookkeeping of the refreshes, for received bytes (sent
      bytes take the same path): the time of the last refresh, the counter
      read at the last performance-tab refresh, the bytes since that reading,
      and the elapsed time the download rate divides those bytes by. */
  datatype NetState = NetState(lastUpdate: nat, prevReceived: uint64, bytesReceived: uint64, rateElapsed: nat)

  /** One call of `update_system_stats` as far as the network rate goes. The
      elapsed time is measured from the last refresh of either tab, but the
      counter is read only on the performance tab. */
  function NetRefresh(s: NetState, interval: nat, tab: Tab, now: nat, total: uint64): (r: NetState)
    ensures Elapsed(s.lastUpdate, now) < interval ==> r == s
    ensures Elapsed(s.lastUpdate, now) >= interval ==> r.lastUpdate == now
    ensures Elapsed(s.lastUpdate, now) >= interval && tab == Perf ==>
      r.prevReceived == total && r.bytesReceived == SaturatingSub(total, s.prevReceived) &&
      r.rateElapsed == Elapsed(s.lastUpdate, now)
    ensures tab == Clock ==>
      r.prevReceived == s.prevReceived && r.bytesReceived == s.bytesReceived &&
      r.rateElapsed == s.rateElapsed
  {
    if Elapsed(s.lastUpdate, now) < interval then s
    else if tab == Perf then
      NetState(now, total, SaturatingSub(total, s.prevReceived), Elapsed(s.lastUpdate, now))
    else
      s.(lastUpdate := now)
  }

  /** A performance refresh at `t1`, a clock refresh at `t2` and a performance
      refresh at `t3`: the bytes counted are those since `t1`, but the rate
      divides them by `t3 - t2` only. */
  lemma {:induction false} NetRefreshWindowSkew(
    s: NetState, interval: nat, t1: nat, t2: nat, t3: nat, r1: uint64, r2: uint64, r3: uint64)
    requires s.lastUpdate + interval <= t1 && t1 + interval <= t2 && t2 + interval <= t3
    requires r1 <= r3
    ensures var s3 := NetRefresh(NetRefresh(NetRefresh(s, interval, Perf, t1, r1), interval, Clock, t2, r2), interval, Perf, t3, r3);
      s3.bytesReceived == r3 - r1 && s3.rateElapsed == t3 - t2
  {
    var s1 := NetRefresh(s, interval, Perf, t1, r1);
    assert s1.prevReceived == r1 && s1.lastUpdate == t1;
    var s2 := NetRefresh(s1, interval, Clock, t2, r2);
    assert s2.prevReceived == r1 && s2.lastUpdate == t2;
  }

  /** The concrete case: 50000 bytes received over 100 ticks are reported
      as received over 2 ticks. */
  lemma NetRefreshWindowSkewExample()
    ensures var s3 := NetRefresh(NetRefresh(NetRefresh(NetState(0, 0, 0, 0), 2, Perf, 2, 1000),
      2, Clock, 100, 30000), 2, Perf, 102, 51000);
      s3.bytesReceived == 50000 && s3.rateElapsed == 2 && s3.prevReceived == 51000
  {
    NetRefreshWindowSkew(NetState(0, 0, 0, 0), 2, 2, 100, 102, 1000, 30000, 51000);
  }

  /** The bookkeeping as evidently intended: the time of the counter reading
      is kept apart (`countedAt`), and the rate divides by the time since that
      reading. */
  datatype NetWindow = NetWindow(
    lastUpdate: nat, countedAt: nat, prevReceived: uint64, bytesReceived: uint64, rateElapsed: nat)

  function NetRefreshCorrected(w: NetWindow, interval: nat, tab: Tab, now: nat, total: uint64): (r: NetWindow)
    ensures Elapsed(w.lastUpdate, now) < interval ==> r == w
    ensures Elapsed(w.lastUpdate, now) >= interval ==> r.lastUpdate == now
    ensures Elapsed(w.lastUpdate, now) >= interval && tab == Perf ==>
      r.countedAt == now && r.prevReceived == total &&
      r.bytesReceived == SaturatingSub(total, w.prevReceived) &&
      r.rateElapsed == Elapsed(w.countedAt, now)
    ensures tab == Clock ==> r.(lastUpdate := w.lastUpdate) == w
  {
    if Elapsed(w.lastUpdate, now) < interval then w
    else if tab == Perf then
      NetWindow(now, now, total, SaturatingSub(total, w.prevReceived), Elapsed(w.countedAt, now))
    else
      w.(lastUpdate := now)
  }

  /** Clock-tab refreshes at the given times, in order. The clock tab reads
      no counter, so the total passed along is immaterial. Only the refresh
      time moves, and it ends at the start time or at one of the times. */
  function ClockRun(w: NetWindow, interval: nat, times: seq<nat>): (r: NetWindow)
    ensures r.(lastUpdate := w.lastUpdate) == w
    ensures r.lastUpdate == w.lastUpdate || r.lastUpdate in times
    decreases |times|
  {
    if times == [] then w
    else
      var r := ClockRun(NetRefreshCorrected(w, interval, Clock, times[0], 0), interval, times[1..]);
      assert r.lastUpdate in times[1..] ==> r.lastUpdate in times;
      r
  }

  /** Corrected, the bytes and the elapsed time of a performance refresh cover
      the same window, from the previous counter reading to now, however many
      clock-tab refreshes came in between and whenever they came. */
  lemma {:induction false} NetRefreshCorrectedWindow(
    w: NetWindow, interval: nat, t1: nat, times: seq<nat>, t3: nat, r1: uint64, r3: uint64)
    requires w.lastUpdate + interval <= t1 && t1 + interval <= t3
    requires forall t :: t in times ==> t + interval <= t3
    requires r1 <= r3
    ensures var w3 := NetRefreshCorrected(ClockRun(NetRefreshCorrected(w, interval, Perf, t1, r1),
      interval, times), interval, Perf, t3, r3);
      w3.bytesReceived == r3 - r1 && w3.rateElapsed == t3 - t1 && w3.countedAt == t3
  {
    var w1 := NetRefreshCorrected(w, interval, Perf, t1, r1);
    assert w1.prevReceived == r1 && w1.countedAt == t1 && w1.lastUpdate == t1;
    var w2 := ClockRun(w1, interval, times);
    assert w2.prevReceived == r1 && w2.countedAt == t1;
    assert w2.lastUpdate + interval <= t3;
  }

  // ---------------------------------------------------------------------
  // Key dispatch
  // ---------------------------------------------------------------------

  /** The key codes the dashboard tells apart; every other key is `OtherKey`. */
  datatype KeyCode = Char(c: char) | Esc | TabKey | LeftKey | RightKey | OtherKey

  /** What a key press does to the dashboard. */
  datatype Action = Quit | ToggleTab | PrevColor | NextColor | Ignore

  /** The key `match` of the main loop: the arrow keys act only on the clock tab. */
  function Dispatch(key: KeyCode, tab: Tab): (a: Action)
    ensures a == Quit <==> key == Char('q') || key == Char('Q') || key == Esc
    ensures a == ToggleTab <==> key == TabKey
    ensures a == PrevColor <==> key == LeftKey && tab == Clock
    ensures a == NextColor <==> key == RightKey && tab == Clock
  {
    match key
    case Char(c) => if c == 'q' || c == 'Q' then Quit else Ignore
    case Esc => Quit
    case TabKey => ToggleTab
    case LeftKey => if tab == Clock then PrevColor else Ignore
    case RightKey => if tab == Clock then NextColor else Ignore
    case OtherKey => Ignore
  }

  // ---------------------------------------------------------------------
  // The application state
  // ---------------------------------------------------------------------

  /** The number of zero samples the history starts with. */
  const INITIAL_HISTORY: nat := 200

  class App {
    /** CPU samples, newest first. */
    var cpuHistory: seq<uint64>
    var terminalWidth: uint16
    var currentTab: Tab
    var clockColorIndex: nat
    /** The time of the last refresh. */
    var lastUpdate: nat
    const refreshInterval: nat
    /** The cumulative byte totals seen at the last refresh. */
    var prevNetworkReceived: uint64
    var prevNetworkTransmitted: uint64
    /** The byte deltas of the last refresh: the numerators of the download
        and upload rates. */
    var bytesReceived: uint64
    var bytesTransmitted: uint64
    /** The elapsed time of the last performance-tab refresh: the divisor of
        the download and upload rates. */
    var rateElapsed: nat

    ghost predicate Valid()
      reads this
    {
      clockColorIndex < |CLOCK_COLORS|
    }

    /** `App::new`: the sensors' first totals seed the previous counters. */
    constructor (interval: nat, now: nat, totalReceived: uint64, totalTransmitted: uint64)
      ensures Valid()
      ensures cpuHistory == seq(INITIAL_HISTORY, _ => 0) && terminalWidth == 0
      ensures currentTab == Perf && clockColorIndex == |CLOCK_COLORS| - 1
      ensures lastUpdate == now && refreshInterval == interval
      ensures prevNetworkReceived == totalReceived && prevNetworkTransmitted == totalTransmitted
      ensures bytesReceived == 0 && bytesTransmitted == 0 && rateElapsed == 0
    {
      cpuHistory := seq(INITIAL_HISTORY, _ => 0);
      terminalWidth := 0;
      currentTab := Perf;
      clockColorIndex := 15;
      lastUpdate := now;
      refreshInterval := interval;
      prevNetworkReceived := totalReceived;
      prevNetworkTransmitted := totalTransmitted;
      bytesReceived := 0;
      bytesTransmitted := 0;
      rateElapsed := 0;
    }

    /** The colour the clock is drawn in: one of the palette's, and the
        initial index selects gray. */
    function ClockColor(): (c: Color)
      reads this
      requires Valid()
      ensures c in CLOCK_COLORS
      ensures clockColorIndex == |CLOCK_COLORS| - 1 ==> c == Gray
      ensures clockColorIndex == 0 ==> c == Black
    {
      CLOCK_COLORS[clockColorIndex]
    }

    /** Pops samples from the tail until the history fits the terminal width. */
    method PopToWidth()
      modifies this`cpuHistory
      ensures cpuHistory == Truncated(old(cpuHistory), terminalWidth)
    {
      while |cpuHistory| > terminalWidth
        invariant |cpuHistory| <= |old(cpuHistory)|
        invariant cpuHistory == old(cpuHistory)[..|cpuHistory|]
        invariant terminalWidth <= |cpuHistory| || cpuHistory == old(cpuHistory)
        decreases |cpuHistory|
      {
        cpuHistory := cpuHistory[..|cpuHistory| - 1];
      }
    }

    /** Records the terminal width and truncates the history to it. */
    method SetTerminalWidth(width: uint16)
      modifies this`terminalWidth, this`cpuHistory
      ensures terminalWidth == width
      ensures cpuHistory == Truncated(old(cpuHistory), width)
      ensures |cpuHistory| <= width && |cpuHistory| <= |old(cpuHistory)|
      ensures |old(cpuHistory)| <= width ==> cpuHistory == old(cpuHistory)
    {
      terminalWidth := width;
      PopToWidth();
    }

    /** Toggles between the two tabs; nothing else changes. */
    method SwitchTab()
      modifies this`currentTab
      ensures currentTab == old(currentTab).Next()
      ensures currentTab != old(currentTab)
      ensures cpuHistory == old(cpuHistory)
    {
      currentTab := currentTab.Next();
    }

    method NextClockColor()
      modifies this`clockColorIndex
      ensures Valid()
      ensures clockColorIndex == NextColorIndex(old(clockColorIndex))
    {
      clockColorIndex := (clockColorIndex + 1) % |CLOCK_COLORS|;
    }

    method PrevClockColor()
      modifies this`clockColorIndex
      ensures Valid()
      ensures clockColorIndex == PrevColorIndex(old(clockColorIndex))
    {
      var back := if clockColorIndex == 0 then 0 else clockColorIndex - 1;
      clockColorIndex := back % |CLOCK_COLORS|;
    }

    /** True when a refresh is due at time `now`: at least the interval has
        passed since the last refresh. A clock that reads earlier than the
        last refresh counts as no time passed, so then only a zero interval
        is due. */
    function Due(now: nat): (due: bool)
      reads this
      ensures refreshInterval == 0 ==> due
      ensures lastUpdate <= now ==> (due <==> lastUpdate + refreshInterval <= now)
      ensures now < lastUpdate ==> (due <==> refreshInterval == 0)
    {
      Elapsed(lastUpdate, now) >= refreshInterval
    }

    /** The received-bytes bookkeeping of the refreshes, as a value. */
    function NetView(): (v: NetState)
      reads this
      ensures v.lastUpdate == lastUpdate && v.prevReceived == prevNetworkReceived
      ensures v.bytesReceived == bytesReceived && v.rateElapsed == rateElapsed
    {
      NetState(lastUpdate, prevNetworkReceived, bytesReceived, rateElapsed)
    }

    /** `update_system_stats`: nothing at all happens before the interval has
        elapsed; when it has, the sample enters the history, the history is
        truncated to the terminal width and the refresh time is reset. On the
        performance tab the network deltas are also recomputed, and the rate
        divisor becomes the time since the last refresh of either tab. */
    method UpdateSystemStats(now: nat, cpuSample: uint64, totalReceived: uint64, totalTransmitted: uint64)
      modifies this`cpuHistory, this`lastUpdate, this`prevNetworkReceived,
        this`prevNetworkTransmitted, this`bytesReceived, this`bytesTransmitted, this`rateElapsed
      ensures !old(Due(now)) ==> unchanged(this)
      ensures old(Due(now)) ==> cpuHistory == Sampled(old(cpuHistory), cpuSample, terminalWidth)
      ensures old(Due(now)) ==> lastUpdate == now
      ensures old(Due(now)) && currentTab == Perf ==>
        bytesReceived == SaturatingSub(totalReceived, old(prevNetworkReceived)) &&
        bytesTransmitted == SaturatingSub(totalTransmitted, old(prevNetworkTransmitted)) &&
        prevNetworkReceived == totalReceived && prevNetworkTransmitted == totalTransmitted &&
        rateElapsed == Elapsed(old(lastUpdate), now)
      ensures currentTab == Clock ==>
        bytesReceived == old(bytesReceived) && bytesTransmitted == old(bytesTransmitted) &&
        prevNetworkReceived == old(prevNetworkReceived) &&
        prevNetworkTransmitted == old(prevNetworkTransmitted) && rateElapsed == old(rateElapsed)
      ensures NetView() == NetRefresh(old(NetView()), refreshInterval, currentTab, now, totalReceived)
    {
      if Elapsed(lastUpdate, now) >= refreshInterval {
        if currentTab == Perf {
          rateElapsed := Elapsed(lastUpdate, now);
          bytesReceived := SaturatingSub(totalReceived, prevNetworkReceived);
          bytesTransmitted := SaturatingSub(totalTransmitted, prevNetworkTransmitted);
          prevNetworkReceived := totalReceived;
          prevNetworkTransmitted := totalTransmitted;
          cpuHistory := [cpuSample] + cpuHistory;
        } else {
          cpuHistory := [cpuSample] + cpuHistory;
        }
        PopToWidth();
        lastUpdate := now;
      }
    }

    /** Applies one key press; returns true when the key quits. */
    method HandleKey(key: KeyCode) returns (quit: bool)
      modifies this`currentTab, this`clockColorIndex
      ensures quit <==> Dispatch(key, old(currentTab)) == Quit
      ensures currentTab == if Dispatch(key, old(currentTab)) == ToggleTab
        then old(currentTab).Next() else old(currentTab)
      ensures clockColorIndex == match Dispatch(key, old(currentTab))
        case PrevColor => PrevColorIndex(old(clockColorIndex))
        case NextColor => NextColorIndex(old(clockColorIndex))
        case _ => old(clockColorIndex)
    {
      quit := false;
      match Dispatch(key, currentTab)
      case Quit => quit := true;
      case ToggleTab => SwitchTab();
      case PrevColor => PrevClockColor();
      case NextColor => NextClockColor();
      case Ignore =>
    }

    /** One iteration of the main loop: refresh when due, draw (which first
        sets the terminal width and yields the sparkline data), then apply the
        key that arrived, if any. */
    method Step(now: nat, cpuSample: uint64, totalReceived: uint64, totalTransmitted: uint64,
                width: uint16, key: Option<KeyCode>)
      returns (quit: bool, sparkline: seq<uint64>)
      requires Valid()
      modifies this
      ensures Valid()
      ensures terminalWidth == width && |cpuHistory| <= width
      ensures cpuHistory == Truncated(
        if old(Due(now)) then Sampled(old(cpuHistory), cpuSample, old(terminalWidth)) else old(cpuHistory),
        width)
      ensures sparkline == SparklineData(cpuHistory)
      ensures lastUpdate == if old(Due(now)) then now else old(lastUpdate)
      ensures NetView() == NetRefresh(old(NetView()), refreshInterval, old(currentTab), now, totalReceived)
      ensures prevNetworkTransmitted == (if old(Due(now)) && old(currentTab) == Perf
        then totalTransmitted else old(prevNetworkTransmitted))
      ensures bytesTransmitted == (if old(Due(now)) && old(currentTab) == Perf
        then SaturatingSub(totalTransmitted, old(prevNetworkTransmitted)) else old(bytesTransmitted))
      ensures quit <==> key.Some? && Dispatch(key.value, old(currentTab)) == Quit
      ensures currentTab == if key.Some? && Dispatch(key.value, old(currentTab)) == ToggleTab
        then old(currentTab).Next() else old(currentTab)
      ensures clockColorIndex == if key.None? then old(clockColorIndex) else
        match Dispatch(key.value, old(currentTab))
        case PrevColor => PrevColorIndex(old(clockColorIndex))
        case NextColor => NextColorIndex(old(clockColorIndex))
        case _ => old(clockColorIndex)
    {
      UpdateSystemStats(now, cpuSample, totalReceived, totalTransmitted);
      SetTerminalWidth(width);
      sparkline := SparklineData(cpuHistory);
      quit := false;
      if key.Some? {
        quit := HandleKey(key.value);
      }
    }
  }
}
