/**
 * The animation builder: a "start/end" date range is cut into consecutive
 * windows of at most `period_time_break` days, each window is searched in
 * the catalog, every window with results is rendered into one frame
 * labelled with the window's end date, and the frames make one GIF.
 */
module AnimationCreator {
  import opened PyRuntime
  import opened PyDicts
  import opened Calendar
  import opened DateText

  /** The default window length, in days. */
  const DefaultPeriodDays := 90
  /** `timedelta(days=n)` overflows beyond this many days. */
  const MaxTimedeltaDays := 999999999

  /**
   * `__parse_date_string`: fields 0 and 1 of a split on '/', each parsed
   * with strptime.  Field 0 is parsed before field 1 is looked up, so a bad
   * first date is a ValueError even when there is no second field.
   */
  function ParseDateString(s: string): (r: Result<(Day, Day)>)
    ensures r.Ok? <==> |Split(s, '/')| >= 2 && ParseDay(Split(s, '/')[0]).Some? && ParseDay(Split(s, '/')[1]).Some?
    ensures r.Ok? ==> ParseDay(Split(s, '/')[0]) == Some(r.value.0) && ParseDay(Split(s, '/')[1]) == Some(r.value.1)
    ensures ParseDay(Split(s, '/')[0]).None? ==> r == Err(ValueError("time data does not match format '%Y-%m-%d'"))
    ensures ParseDay(Split(s, '/')[0]).Some? && |Split(s, '/')| < 2 ==> r == Err(IndexError)
  {
    var fields := Split(s, '/');
    match ParseDay(fields[0])
    case None => Err(ValueError("time data does not match format '%Y-%m-%d'"))
    case Some(a) =>
      if |fields| < 2 then Err(IndexError)
      else
        match ParseDay(fields[1])
        case None => Err(ValueError("time data does not match format '%Y-%m-%d'"))
        case Some(b) => Ok((a, b))
  }

  /** A range string built from two days parses back to those two days. */
  lemma ParseRangeString(a: Day, b: Day)
    ensures ParseDateString(RangeString(a, b)) == Ok((a, b))
  {
    ParseFormatDay(a);
    ParseFormatDay(b);
  }

  /** The last '/'-separated field of a range string is its end date. */
  lemma RangeStringEnd(a: Day, b: Day)
    ensures var f := Split(RangeString(a, b), '/'); f[|f| - 1] == FormatDay(b)
  {
  }

  function Min(a: int, b: int): int {
    if a <= b then a else b
  }

  /** Where the next window starts: `min(date_range_start + interval, end_date)`. */
  function NextStart(rangeStart: int, end: int, each: int): int {
    Min(rangeStart + each, end)
  }

  // ---------------------------------------------------------------------
  // Subdivision of a day range

  /**
   * The windows `__subidivide_time_range` walks through: each starts where
   * the previous one ended and ends at `min(start + each, end)`.
   */
  function Windows(start: int, end: int, each: int): (w: seq<(int, int)>)
    requires each > 0
    ensures |w| == 0 <==> start >= end
    ensures forall i :: 0 <= i < |w| ==> start <= w[i].0 < w[i].1 <= end
    ensures forall i :: 0 <= i < |w| ==> w[i].1 == Min(w[i].0 + each, end)
    decreases end - start
  {
    if start >= end then []
    else
      var e := NextStart(start, end, each);
      [(start, e)] + Windows(e, end, each)
  }

  /** Windows are contiguous and cover the whole range. */
  lemma {:induction false} WindowsContiguous(start: int, end: int, each: int)
    requires each > 0
    ensures var w := Windows(start, end, each);
      (|w| > 0 ==> w[0].0 == start && w[|w| - 1].1 == end) &&
      forall i :: 0 <= i < |w| - 1 ==> w[i].1 == w[i + 1].0
    decreases end - start
  {
    if start < end {
      var e := Min(start + each, end);
      WindowsContiguous(e, end, each);
    }
  }

  /** Windows come in increasing date order and do not overlap. */
  lemma {:induction false} WindowsIncreasing(start: int, end: int, each: int)
    requires each > 0
    ensures forall i, j :: 0 <= i < j < |Windows(start, end, each)| ==>
      Windows(start, end, each)[i].1 <= Windows(start, end, each)[j].0
    decreases end - start
  {
    if start < end {
      var e := Min(start + each, end);
      var w, rest := Windows(start, end, each), Windows(e, end, each);
      WindowsIncreasing(e, end, each);
      assert w == [(start, e)] + rest;
      assert w[0].1 == e;
      assert forall k :: 0 <= k < |rest| ==> e <= rest[k].0;
      forall i, j | 0 <= i < j < |w| ensures w[i].1 <= w[j].0 {
        assert w[j] == rest[j - 1];
        if i > 0 {
          assert w[i] == rest[i - 1];
          assert rest[i - 1].1 <= rest[j - 1].0;
        } else {
          assert e <= rest[j - 1].0;
        }
      }
    }
  }

  /** There are ceil((end - start) / each) windows. */
  lemma {:induction false} WindowsCount(start: int, end: int, each: int)
    requires each > 0 && start < end
    ensures var n := |Windows(start, end, each)|;
      (n - 1) * each < end - start <= n * each
    decreases end - start
  {
    var e := Min(start + each, end);
    if e < end {
      WindowsCount(e, end, each);
      var m := |Windows(e, end, each)|;
      assert |Windows(start, end, each)| == m + 1;
      assert (m + 1) * each == m * each + each;
      assert m * each == (m - 1) * each + each;
    }
  }

  /** `timedelta(days=v)` as a whole number of days. */
  function PeriodDays(v: Value): (r: Result<int>)
    ensures r.Ok? ==> -MaxTimedeltaDays <= r.value <= MaxTimedeltaDays
    ensures r.Ok? ==> v.Int? || v.Bool? || (v.Float? && v.f == r.value as real)
    ensures v.Int? && -MaxTimedeltaDays <= v.i <= MaxTimedeltaDays ==> r == Ok(v.i)
    ensures v.Int? && !(-MaxTimedeltaDays <= v.i <= MaxTimedeltaDays) ==> r == Err(OverflowError)
    ensures v.Bool? ==> r == Ok(if v.b then 1 else 0)
    ensures v.Str? || v.Null? || v.List? || v.Dict? ==> r == Err(TypeError)
  {
    match v
    case Int(n) => if -MaxTimedeltaDays <= n <= MaxTimedeltaDays then Ok(n) else Err(OverflowError)
    case Bool(b) => Ok(if b then 1 else 0)
    case Float(f) =>
      if f != f.Floor as real then Err(Unmodelled("fractional number of days"))
      else if -MaxTimedeltaDays <= f.Floor <= MaxTimedeltaDays then Ok(f.Floor)
      else Err(OverflowError)
    case _ => Err(TypeError)
  }

  /** A whole number of days given as a float is the same period as the integer. */
  lemma WholeFloatPeriod(n: int)
    ensures PeriodDays(Float(n as real)) == PeriodDays(Int(n))
  {
    assert (n as real).Floor == n;
  }

  /**
   * The inputs on which the Python loop terminates: all of them except a
   * period of 0 days on a range that parses with start before end, where
   * `date_range_start` never moves (see ZeroPeriodNeverEnds).
   */
  predicate Terminates(dateString: string, eachDays: Value) {
    match ParseDateString(dateString)
    case Err(_) => true
    case Ok((a, b)) => a < b ==> PeriodDays(eachDays) != Ok(0)
  }

  /** Some window's `start + each` lies past the last date `datetime` can hold. */
  predicate Overflows(w: seq<(int, int)>, each: int) {
    exists i :: 0 <= i < |w| && w[i].0 + each > MaxOrdinal
  }

  predicate InDayRange(w: seq<(int, int)>) {
    forall i :: 0 <= i < |w| ==> 1 <= w[i].0 <= MaxOrdinal && 1 <= w[i].1 <= MaxOrdinal
  }

  function WindowStrings(w: seq<(int, int)>): (r: seq<string>)
    requires InDayRange(w)
    ensures |r| == |w|
    ensures forall i :: 0 <= i < |w| ==> r[i] == RangeString(w[i].0 as Day, w[i].1 as Day)
  {
    seq(|w|, i requires 0 <= i < |w| => RangeString(w[i].0 as Day, w[i].1 as Day))
  }

  /**
   * The windows of `start..end` as range strings, or the OverflowError of
   * `start + each`.  An empty range has no window whatever the period; a
   * negative period walks back from `start` until it passes 0001-01-01.
   */
  function WindowRanges(start: Day, end: Day, each: int): Result<seq<string>>
    requires each != 0 || start >= end
  {
    if start >= end then Ok([])
    else if each < 0 then Err(OverflowError)
    else
      var w := Windows(start, end, each);
      if Overflows(w, each) then Err(OverflowError) else Ok(WindowStrings(w))
  }

  /** What `__subidivide_time_range(date_string, each_days)` returns or raises. */
  function Subdivision(dateString: string, eachDays: Value): Result<seq<string>>
    requires Terminates(dateString, eachDays)
  {
    match ParseDateString(dateString)
    case Err(e) => Err(e)
    case Ok((a, b)) =>
      match PeriodDays(eachDays)
      case Err(e) => Err(e)
      case Ok(each) => WindowRanges(a, b, each)
  }

  /** `__subidivide_time_range`: parse the range, then cut it into windows. */
  method SubdivideTimeRange(dateString: string, eachDays: Value) returns (r: Result<seq<string>>)
    requires Terminates(dateString, eachDays)
    ensures r == Subdivision(dateString, eachDays)
  {
    var parsed := ParseDateString(dateString);
    if parsed.Err? {
      return Err(parsed.error);
    }
    var period := PeriodDays(eachDays);
    if period.Err? {
      return Err(period.error);
    }
    r := CutWindows(parsed.value.0, parsed.value.1, period.value);
  }

  /** The while loop of `__subidivide_time_range`: one "start/end" string per window. */
  method CutWindows(start: Day, end: Day, each: int) returns (r: Result<seq<string>>)
    requires each != 0 || start >= end
    ensures r == WindowRanges(start, end, each)
  {
    ghost var done: seq<(int, int)> := [];
    var dateRanges: seq<string> := [];
    var rangeStart: int := start;
    while rangeStart < end
      invariant each > 0 ==> start <= rangeStart && (rangeStart <= end || rangeStart == start)
      invariant each > 0 ==> Windows(start, end, each) == done + Windows(rangeStart, end, each)
      invariant each > 0 ==> InDayRange(done) && !Overflows(done, each) && dateRanges == WindowStrings(done)
      invariant each <= 0 ==> 1 <= rangeStart <= start && (start >= end ==> rangeStart == start && dateRanges == [])
      decreases if each > 0 then end - rangeStart else rangeStart
    {
      if rangeStart + each > MaxOrdinal || rangeStart + each < 1 {
        if each > 0 {
          CutOverflow(start, end, each, done, rangeStart);
        }
        return Err(OverflowError);
      }
      var rangeEnd := NextStart(rangeStart, end, each);
      var piece := RangeString(rangeStart as Day, rangeEnd as Day);
      if each > 0 {
        CutStep(start, end, each, done, rangeStart);
      }
      dateRanges := dateRanges + [piece];
      done := done + [(rangeStart, rangeEnd)];
      rangeStart := rangeEnd;
    }
    if each > 0 {
      assert Windows(start, end, each) == done;
    }
    r := Ok(dateRanges);
  }

  /** One more window keeps the loop invariant of CutWindows. */
  lemma CutStep(start: int, end: int, each: int, done: seq<(int, int)>, rangeStart: int)
    requires each > 0 && 1 <= rangeStart < end && rangeStart + each <= MaxOrdinal
    requires Windows(start, end, each) == done + Windows(rangeStart, end, each)
    requires InDayRange(done) && !Overflows(done, each)
    ensures Windows(start, end, each) ==
      (done + [(rangeStart, NextStart(rangeStart, end, each))]) + Windows(NextStart(rangeStart, end, each), end, each)
    ensures InDayRange(done + [(rangeStart, NextStart(rangeStart, end, each))])
    ensures !Overflows(done + [(rangeStart, NextStart(rangeStart, end, each))], each)
    ensures WindowStrings(done + [(rangeStart, NextStart(rangeStart, end, each))]) ==
      WindowStrings(done) + [RangeString(rangeStart as Day, NextStart(rangeStart, end, each) as Day)]
  {
    var e := NextStart(rangeStart, end, each);
    assert Windows(rangeStart, end, each) == [(rangeStart, e)] + Windows(e, end, each);
    assert done + [(rangeStart, e)] + Windows(e, end, each) == done + ([(rangeStart, e)] + Windows(e, end, each));
    WindowStringsSnoc(done, (rangeStart, e));
    var d := done + [(rangeStart, e)];
    forall i | 0 <= i < |d| ensures d[i].0 + each <= MaxOrdinal {
      if i < |done| { assert d[i] == done[i]; }
    }
  }

  /** A window whose `start + each` is past the last date makes the whole subdivision overflow. */
  lemma CutOverflow(start: int, end: int, each: int, done: seq<(int, int)>, rangeStart: int)
    requires each > 0 && rangeStart < end && rangeStart + each > MaxOrdinal
    requires Windows(start, end, each) == done + Windows(rangeStart, end, each)
    ensures Overflows(Windows(start, end, each), each)
  {
    assert Windows(start, end, each)[|done|].0 == rangeStart;
  }

  lemma WindowStringsSnoc(w: seq<(int, int)>, x: (int, int))
    requires InDayRange(w) && 1 <= x.0 <= MaxOrdinal && 1 <= x.1 <= MaxOrdinal
    ensures InDayRange(w + [x])
    ensures WindowStrings(w + [x]) == WindowStrings(w) + [RangeString(x.0 as Day, x.1 as Day)]
  {
    assert InDayRange(w + [x]) by {
      forall i | 0 <= i < |w + [x]| ensures 1 <= (w + [x])[i].0 <= MaxOrdinal && 1 <= (w + [x])[i].1 <= MaxOrdinal {
        if i < |w| { assert (w + [x])[i] == w[i]; }
      }
    }
    var a, b := WindowStrings(w + [x]), WindowStrings(w) + [RangeString(x.0 as Day, x.1 as Day)];
    assert |a| == |b|;
    forall i | 0 <= i < |a| ensures a[i] == b[i] {
      if i < |w| { assert (w + [x])[i] == w[i]; }
    }
  }

  /** Every range string the subdivision returns parses back to its window. */
  lemma SubdivisionRoundTrip(dateString: string, eachDays: Value, i: int)
    requires Terminates(dateString, eachDays)
    requires Subdivision(dateString, eachDays).Ok?
    requires 0 <= i < |Subdivision(dateString, eachDays).value|
    ensures var (a, b) := ParseDateString(dateString).value;
      var w := Windows(a, b, PeriodDays(eachDays).value);
      ParseDateString(Subdivision(dateString, eachDays).value[i]) == Ok((w[i].0 as Day, w[i].1 as Day))
  {
    var (a, b) := ParseDateString(dateString).value;
    var w := Windows(a, b, PeriodDays(eachDays).value);
    ParseRangeString(w[i].0 as Day, w[i].1 as Day);
  }

  /**
   * Once the range has parsed and the period is a whole number of days: an
   * empty or reversed range has no window, and a negative period raises
   * OverflowError.
   */
  lemma SubdivisionEdgeCases(dateString: string, eachDays: Value)
    requires ParseDateString(dateString).Ok? && PeriodDays(eachDays).Ok?
    requires Terminates(dateString, eachDays)
    ensures var (a, b) := ParseDateString(dateString).value;
      a >= b ==> Subdivision(dateString, eachDays) == Ok([])
    ensures var (a, b) := ParseDateString(dateString).value;
      a < b && PeriodDays(eachDays).value < 0 ==> Subdivision(dateString, eachDays) == Err(OverflowError)
  {
  }

  /** A subdivision with at least one window had a positive period, and its strings are the windows'. */
  lemma SubdivisionWindows(dateString: string, eachDays: Value)
    requires Terminates(dateString, eachDays)
    requires Subdivision(dateString, eachDays).Ok? && |Subdivision(dateString, eachDays).value| > 0
    ensures ParseDateString(dateString).Ok? && PeriodDays(eachDays).Ok? && PeriodDays(eachDays).value > 0
    ensures var (a, b) := ParseDateString(dateString).value;
      var w := Windows(a, b, PeriodDays(eachDays).value);
      InDayRange(w) && Subdivision(dateString, eachDays).value == WindowStrings(w)
  {
  }

  /** Where `date_range_start` is after `n` turns of the loop, overflow aside. */
  function StartAfter(start: int, end: int, each: int, n: nat): int {
    if n == 0 then start else NextStart(StartAfter(start, end, each, n - 1), end, each)
  }

  /**
   * As written, a period of 0 days never moves `date_range_start`: after
   * any number of turns the loop condition still holds, so the loop never
   * ends on a non-empty range.
   */
  lemma {:induction false} ZeroPeriodNeverEnds(start: int, end: int, n: nat)
    requires start < end
    ensures StartAfter(start, end, 0, n) == start < end
  {
    if n > 0 {
      ZeroPeriodNeverEnds(start, end, n - 1);
    }
  }

  /**
   * The subdivision with the period checked first: a period of zero or
   * fewer days is refused with a ValueError, so every input gives a result.
   */
  function GuardedSubdivision(dateString: string, eachDays: Value): (r: Result<seq<string>>)
    ensures r.Ok? ==> PeriodDays(eachDays).Ok? && PeriodDays(eachDays).value > 0
    ensures ParseDateString(dateString).Ok? && PeriodDays(eachDays).Ok? && PeriodDays(eachDays).value <= 0 ==>
      r == Err(ValueError("each_days must be positive"))
  {
    match ParseDateString(dateString)
    case Err(e) => Err(e)
    case Ok((a, b)) =>
      match PeriodDays(eachDays)
      case Err(e) => Err(e)
      case Ok(each) => if each <= 0 then Err(ValueError("each_days must be positive")) else WindowRanges(a, b, each)
  }

  /** With a positive period the guarded subdivision is the one as written. */
  lemma GuardedAgrees(dateString: string, eachDays: Value)
    requires PeriodDays(eachDays).Ok? ==> PeriodDays(eachDays).value > 0
    ensures Terminates(dateString, eachDays)
    ensures GuardedSubdivision(dateString, eachDays) == Subdivision(dateString, eachDays)
  {
  }

  // ---------------------------------------------------------------------
  // The frame loop of create_gif

  /** What the image renderer hands back for one window (its "image", "projection_file", "bounds"). */
  datatype Rendered = Rendered(image: seq<bv8>, projectionFile: Option<Value>, bounds: Option<Value>)

  /** One GIF frame: the rendered image with the date burnt into it. */
  datatype Frame = Frame(image: seq<bv8>, caption: string)

  datatype Gif = Gif(frames: seq<Frame>, timePerImage: Value, projectionFile: Option<Value>, bounds: Option<Value>)

  /** The search parameters in force while window `range` is searched. */
  function SearchArgs(base: map<string, Value>, feature: Value, range: string): map<string, Value> {
    base["feature_geojson" := feature]["date_string" := Str(range)]
  }

  /** The render parameters in force while `items` are rendered. */
  function RenderArgs(base: map<string, Value>, feature: Value, items: seq<Item>): map<string, Value> {
    base["feature_geojson" := feature]["stac_list" := ItemsValue(items)]["image_format" := Str("PNG")]
  }

  function LastField(range: string): string {
    var f := Split(range, '/');
    f[|f| - 1]
  }

  /** The collaborators and parameters that stay fixed across the loop. */
  datatype Setting = Setting(
    searchBase: map<string, Value>,
    renderBase: map<string, Value>,
    feature: Value,
    search: map<string, Value> -> seq<Item>,
    render: map<string, Value> -> Rendered)

  function ItemsFor(st: Setting, range: string): seq<Item> {
    st.search(SearchArgs(st.searchBase, st.feature, range))
  }

  function RenderFor(st: Setting, range: string): Rendered {
    st.render(RenderArgs(st.renderBase, st.feature, ItemsFor(st, range)))
  }

  /** The positions of the windows whose search found something, in window order. */
  function KeptIndices(st: Setting, ranges: seq<string>): (idx: seq<nat>)
    ensures forall j :: 0 <= j < |idx| ==> idx[j] < |ranges| && |ItemsFor(st, ranges[idx[j]])| > 0
    ensures forall j, k :: 0 <= j < k < |idx| ==> idx[j] < idx[k]
    ensures forall i :: 0 <= i < |ranges| && |ItemsFor(st, ranges[i])| > 0 ==> i in idx
    decreases |ranges|
  {
    if |ranges| == 0 then []
    else
      var n := |ranges| - 1;
      var prev := KeptIndices(st, ranges[..n]);
      assert forall j :: 0 <= j < |prev| ==> ranges[..n][prev[j]] == ranges[prev[j]];
      if |ItemsFor(st, ranges[n])| > 0 then prev + [n] else prev
  }

  predicate ValidIndices(ranges: seq<string>, idx: seq<nat>) {
    forall j :: 0 <= j < |idx| ==> idx[j] < |ranges|
  }

  function FrameFor(st: Setting, range: string): Frame {
    Frame(RenderFor(st, range).image, LastField(range))
  }

  function FramesAt(st: Setting, ranges: seq<string>, idx: seq<nat>): (frames: seq<Frame>)
    requires ValidIndices(ranges, idx)
    ensures |frames| == |idx|
  {
    seq(|idx|, j requires 0 <= j < |idx| => FrameFor(st, ranges[idx[j]]))
  }

  /** The GIF built from the windows `ranges`, or the ValueError raised when no window had images. */
  function GifOf(st: Setting, ranges: seq<string>, timePerImage: Value): Result<Gif> {
    var idx := KeptIndices(st, ranges);
    if |idx| == 0 then Err(ValueError("No image found"))
    else
      var last := RenderFor(st, ranges[idx[|idx| - 1]]);
      Ok(Gif(FramesAt(st, ranges, idx), timePerImage, last.projectionFile, last.bounds))
  }

  /** The parameters `create_gif` reads from its `params` dict. */
  function DateStringParam(params: map<string, Value>): Value { Get(params, "date_string", Null) }
  function PeriodParam(params: map<string, Value>): Value { Get(params, "period_time_break", Int(DefaultPeriodDays)) }
  function FeatureParam(params: map<string, Value>): Value { Get(params, "feature_geojson", Dict(map[])) }
  function TimePerImageParam(params: map<string, Value>): Value { Get(params, "time_per_image", Int(1)) }

  /** Without `period_time_break` the windows are 90 days long. */
  lemma DefaultPeriod(params: map<string, Value>)
    requires "period_time_break" !in params
    ensures PeriodDays(PeriodParam(params)) == Ok(90)
  {
  }

  /** `create_gif` terminates on `params` (its subdivision does). */
  predicate ParamsTerminate(params: map<string, Value>) {
    DateStringParam(params).Str? ==> Terminates(DateStringParam(params).s, PeriodParam(params))
  }

  /** The ranges `create_gif` loops over, or the error raised while computing them. */
  function RangesOf(params: map<string, Value>): Result<seq<string>>
    requires ParamsTerminate(params)
  {
    var ds := DateStringParam(params);
    if !ds.Str? then Err(AttributeError) else Subdivision(ds.s, PeriodParam(params))
  }

  /** The search dict once the first `i` windows have been searched. */
  function SearchState(st: Setting, ranges: seq<string>, i: nat): map<string, Value>
    requires i <= |ranges|
  {
    if i == 0 then st.searchBase["feature_geojson" := st.feature]
    else SearchArgs(st.searchBase, st.feature, ranges[i - 1])
  }

  /** The render dict once the windows at `idx` have been rendered. */
  function RenderState(st: Setting, ranges: seq<string>, idx: seq<nat>): map<string, Value>
    requires ValidIndices(ranges, idx)
  {
    if |idx| == 0 then st.renderBase["feature_geojson" := st.feature]
    else RenderArgs(st.renderBase, st.feature, ItemsFor(st, ranges[idx[|idx| - 1]]))
  }

  /** Updating the search dict with a window's range gives that window's search parameters. */
  lemma SearchUpdate(st: Setting, ranges: seq<string>, i: nat, range: string)
    requires i <= |ranges|
    ensures SearchState(st, ranges, i) + map["date_string" := Str(range)] == SearchArgs(st.searchBase, st.feature, range)
  {
    var a, b := SearchState(st, ranges, i) + map["date_string" := Str(range)], SearchArgs(st.searchBase, st.feature, range);
    assert a.Keys == b.Keys;
    forall k | k in a ensures a[k] == b[k] {
    }
  }

  /** Updating the render dict with a window's items gives that window's render parameters. */
  lemma RenderUpdate(st: Setting, ranges: seq<string>, idx: seq<nat>, items: seq<Item>)
    requires ValidIndices(ranges, idx)
    ensures RenderState(st, ranges, idx) + map["stac_list" := ItemsValue(items), "image_format" := Str("PNG")]
         == RenderArgs(st.renderBase, st.feature, items)
  {
    var a := RenderState(st, ranges, idx) + map["stac_list" := ItemsValue(items), "image_format" := Str("PNG")];
    var b := RenderArgs(st.renderBase, st.feature, items);
    assert a.Keys == b.Keys;
    forall k | k in a ensures a[k] == b[k] {
    }
  }

  lemma KeptStep(st: Setting, ranges: seq<string>, i: nat)
    requires i < |ranges|
    ensures KeptIndices(st, ranges[..i + 1]) ==
      KeptIndices(st, ranges[..i]) + (if |ItemsFor(st, ranges[i])| > 0 then [i] else [])
  {
    assert ranges[..i + 1][..i] == ranges[..i];
  }

  lemma FramesAtSnoc(st: Setting, ranges: seq<string>, idx: seq<nat>, i: nat)
    requires ValidIndices(ranges, idx) && i < |ranges|
    ensures ValidIndices(ranges, idx + [i])
    ensures FramesAt(st, ranges, idx + [i]) == FramesAt(st, ranges, idx) + [FrameFor(st, ranges[i])]
  {
    assert ValidIndices(ranges, idx + [i]) by {
      forall j | 0 <= j < |idx + [i]| ensures (idx + [i])[j] < |ranges| {
        if j < |idx| { assert (idx + [i])[j] == idx[j]; }
      }
    }
    var a, b := FramesAt(st, ranges, idx + [i]), FramesAt(st, ranges, idx) + [FrameFor(st, ranges[i])];
    forall j | 0 <= j < |a| ensures a[j] == b[j] {
      if j < |idx| { assert (idx + [i])[j] == idx[j]; }
    }
  }

  /** The rendering of the last kept window, if any. */
  function LastRendered(st: Setting, ranges: seq<string>, idx: seq<nat>): Option<Rendered>
    requires ValidIndices(ranges, idx)
  {
    if |idx| == 0 then None else Some(RenderFor(st, ranges[idx[|idx| - 1]]))
  }

  /** A window whose search found items adds its frame and its render parameters. */
  lemma FrameStep(st: Setting, ranges: seq<string>, kept: seq<nat>, i: nat)
    requires i < |ranges| && |ItemsFor(st, ranges[i])| > 0
    requires kept == KeptIndices(st, ranges[..i]) && ValidIndices(ranges, kept)
    ensures kept + [i] == KeptIndices(st, ranges[..i + 1])
    ensures ValidIndices(ranges, kept + [i])
    ensures FramesAt(st, ranges, kept + [i]) == FramesAt(st, ranges, kept) + [FrameFor(st, ranges[i])]
    ensures RenderState(st, ranges, kept) + map["stac_list" := ItemsValue(ItemsFor(st, ranges[i])), "image_format" := Str("PNG")]
         == RenderState(st, ranges, kept + [i])
  {
    KeptStep(st, ranges, i);
    FramesAtSnoc(st, ranges, kept, i);
    RenderUpdate(st, ranges, kept, ItemsFor(st, ranges[i]));
  }

  /** The `for date_range in date_ranges` loop of `create_gif`. */
  method FrameLoop(st: Setting, dateRanges: seq<string>, imageSearch: PyDict, imageRender: PyDict)
    returns (images: seq<Frame>, last: Option<Rendered>)
    requires imageSearch != imageRender
    requires imageSearch.entries == SearchState(st, dateRanges, 0)
    requires imageRender.entries == RenderState(st, dateRanges, [])
    modifies imageSearch, imageRender
    ensures ValidIndices(dateRanges, KeptIndices(st, dateRanges))
    ensures images == FramesAt(st, dateRanges, KeptIndices(st, dateRanges))
    ensures last == LastRendered(st, dateRanges, KeptIndices(st, dateRanges))
    ensures imageSearch.entries == SearchState(st, dateRanges, |dateRanges|)
    ensures imageRender.entries == RenderState(st, dateRanges, KeptIndices(st, dateRanges))
  {
    images, last := [], None;
    ghost var kept: seq<nat> := [];
    for i := 0 to |dateRanges|
      invariant kept == KeptIndices(st, dateRanges[..i])
      invariant ValidIndices(dateRanges, kept)
      invariant images == FramesAt(st, dateRanges, kept)
      invariant last == LastRendered(st, dateRanges, kept)
      invariant imageSearch.entries == SearchState(st, dateRanges, i)
      invariant imageRender.entries == RenderState(st, dateRanges, kept)
    {
      var dateRange := dateRanges[i];
      var endDate := LastField(dateRange);
      SearchUpdate(st, dateRanges, i, dateRange);
      imageSearch.Update(map["date_string" := Str(dateRange)]);
      var stacItems := st.search(imageSearch.entries);
      if |stacItems| == 0 {
        KeptStep(st, dateRanges, i);
        continue;
      }
      FrameStep(st, dateRanges, kept, i);
      imageRender.Update(map["stac_list" := ItemsValue(stacItems), "image_format" := Str("PNG")]);
      var resultImage := st.render(imageRender.entries);
      images := images + [Frame(resultImage.image, endDate)];
      last := Some(resultImage);
      kept := kept + [i];
    }
    assert dateRanges[..|dateRanges|] == dateRanges;
  }

  /**
   * `create_gif`.  `params` is the request dict and `imageSearch` and
   * `imageRender` stand for the dicts it holds under "image_search" and
   * "image_render"; all three are updated in place as the Python code does.
   * The two are separate objects here, and their updates do not show
   * through the entries of `params`.
   * `search` stands for the catalog searcher and `render` for the image
   * renderer; resizing and drawing the date are left to the frame value.
   */
  method CreateGif(params: PyDict, imageSearch: PyDict, imageRender: PyDict,
                   search: map<string, Value> -> seq<Item>,
                   render: map<string, Value> -> Rendered)
    returns (r: Result<Gif>)
    requires params != imageSearch && params != imageRender && imageSearch != imageRender
    requires ParamsTerminate(params.entries)
    modifies params, imageSearch, imageRender
    ensures params.entries == old(params.entries) - {"feature_geojson"}
    ensures var st := Setting(old(imageSearch.entries), old(imageRender.entries),
                              FeatureParam(old(params.entries)), search, render);
      match RangesOf(old(params.entries))
      case Err(e) =>
        r == Err(e) && imageSearch.entries == old(imageSearch.entries) && imageRender.entries == old(imageRender.entries)
      case Ok(ranges) =>
        && r == GifOf(st, ranges, TimePerImageParam(old(params.entries)))
        && ValidIndices(ranges, KeptIndices(st, ranges))
        && imageSearch.entries == SearchState(st, ranges, |ranges|)
        && imageRender.entries == RenderState(st, ranges, KeptIndices(st, ranges))
  {
    ghost var oldParams := params.entries;
    var st := Setting(imageSearch.entries, imageRender.entries, FeatureParam(params.entries), search, render);
    var feature := params.Pop("feature_geojson", Dict(map[]));
    assert feature == st.feature;
    var dateString := Get(params.entries, "date_string", Null);
    var period := Get(params.entries, "period_time_break", Int(DefaultPeriodDays));
    var timePerImage := Get(params.entries, "time_per_image", Int(1));
    assert dateString == DateStringParam(oldParams) && period == PeriodParam(oldParams);
    assert timePerImage == TimePerImageParam(oldParams);
    if !dateString.Str? {
      return Err(AttributeError);
    }
    var subdivided := SubdivideTimeRange(dateString.s, period);
    if subdivided.Err? {
      return Err(subdivided.error);
    }
    r := Animate(st, subdivided.value, timePerImage, imageSearch, imageRender);
  }

  /** The part of `create_gif` after the subdivision: one frame per window with images, then the GIF. */
  method Animate(st: Setting, dateRanges: seq<string>, timePerImage: Value, imageSearch: PyDict, imageRender: PyDict)
    returns (r: Result<Gif>)
    requires imageSearch != imageRender
    requires imageSearch.entries == st.searchBase && imageRender.entries == st.renderBase
    modifies imageSearch, imageRender
    ensures r == GifOf(st, dateRanges, timePerImage)
    ensures ValidIndices(dateRanges, KeptIndices(st, dateRanges))
    ensures imageSearch.entries == SearchState(st, dateRanges, |dateRanges|)
    ensures imageRender.entries == RenderState(st, dateRanges, KeptIndices(st, dateRanges))
  {
    imageSearch.Update(map["feature_geojson" := st.feature]);
    imageRender.Update(map["feature_geojson" := st.feature]);
    var images, last := FrameLoop(st, dateRanges, imageSearch, imageRender);
    if |images| == 0 {
      return Err(ValueError("No image found"));
    }
    r := Ok(Gif(images, timePerImage, last.value.projectionFile, last.value.bounds));
  }

  // ---------------------------------------------------------------------
  // Properties of the frame loop

  /** No frame at all, and so the ValueError, exactly when every window's search came back empty. */
  lemma NoImageIffAllEmpty(st: Setting, ranges: seq<string>, timePerImage: Value)
    ensures GifOf(st, ranges, timePerImage) == Err(ValueError("No image found"))
        <==> forall i :: 0 <= i < |ranges| ==> |ItemsFor(st, ranges[i])| == 0
  {
    var idx := KeptIndices(st, ranges);
    if |idx| > 0 {
      assert |ItemsFor(st, ranges[idx[0]])| > 0;
    }
  }

  /** A strictly increasing list of indices below n has at most n elements. */
  lemma {:induction false} IndicesBound(idx: seq<nat>, n: nat)
    requires forall j :: 0 <= j < |idx| ==> idx[j] < n
    requires forall j, k :: 0 <= j < k < |idx| ==> idx[j] < idx[k]
    ensures |idx| <= n
    decreases n
  {
    if |idx| > 0 {
      var last := idx[|idx| - 1];
      IndicesBound(idx[..|idx| - 1], last);
    }
  }

  /** There are never more frames than windows. */
  lemma FrameCountBound(st: Setting, ranges: seq<string>, timePerImage: Value)
    requires GifOf(st, ranges, timePerImage).Ok?
    ensures |GifOf(st, ranges, timePerImage).value.frames| <= |ranges|
  {
    IndicesBound(KeptIndices(st, ranges), |ranges|);
  }

  /**
   * The j-th frame is the rendering of the j-th window whose search found
   * items, labelled with that window's last '/'-field; the GIF reports the
   * projection and bounds of the last rendered window.
   */
  lemma FramesFollowWindows(st: Setting, ranges: seq<string>, timePerImage: Value, j: int)
    requires GifOf(st, ranges, timePerImage).Ok?
    requires 0 <= j < |GifOf(st, ranges, timePerImage).value.frames|
    ensures var idx := KeptIndices(st, ranges);
      var gif := GifOf(st, ranges, timePerImage).value;
      && idx[j] < |ranges| && |ItemsFor(st, ranges[idx[j]])| > 0
      && gif.frames[j] == Frame(RenderFor(st, ranges[idx[j]]).image, LastField(ranges[idx[j]]))
      && gif.bounds == RenderFor(st, ranges[idx[|idx| - 1]]).bounds
      && gif.projectionFile == RenderFor(st, ranges[idx[|idx| - 1]]).projectionFile
  {
  }

  /**
   * On the windows of a subdivision, frame j carries the end date of its
   * window, and a later frame comes from a strictly later window.
   */
  lemma FrameLabelsAreIncreasingEndDates(st: Setting, dateString: string, eachDays: Value, timePerImage: Value,
                                         j: int, k: int)
    requires Terminates(dateString, eachDays)
    requires Subdivision(dateString, eachDays).Ok?
    requires GifOf(st, Subdivision(dateString, eachDays).value, timePerImage).Ok?
    requires 0 <= j < k < |GifOf(st, Subdivision(dateString, eachDays).value, timePerImage).value.frames|
    ensures PeriodDays(eachDays).Ok? && PeriodDays(eachDays).value > 0
    ensures PeriodDays(eachDays).Ok? && PeriodDays(eachDays).value > 0 &&
      var (a, b) := ParseDateString(dateString).value;
      var w := Windows(a, b, PeriodDays(eachDays).value);
      var ranges := Subdivision(dateString, eachDays).value;
      var idx := KeptIndices(st, ranges);
      var gif := GifOf(st, ranges, timePerImage).value;
      && gif.frames[j].caption == FormatDay(w[idx[j]].1 as Day)
      && w[idx[j]].1 < w[idx[k]].1
  {
    var ranges := Subdivision(dateString, eachDays).value;
    var idx := KeptIndices(st, ranges);
    assert |ranges| > 0 by { assert idx[0] < |ranges|; }
    SubdivisionWindows(dateString, eachDays);
    var (a, b) := ParseDateString(dateString).value;
    var each := PeriodDays(eachDays).value;
    var w := Windows(a, b, each);
    WindowsIncreasing(a, b, each);
    RangeStringEnd(w[idx[j]].0 as Day, w[idx[j]].1 as Day);
    assert w[idx[j]].1 <= w[idx[k]].0 < w[idx[k]].1;
  }
}
