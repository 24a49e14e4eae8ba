/**
 The forecast card's two derived views of a forecast payload: up to five daily
 summaries (one per date, in first-seen order, with the rounded mean
 temperature and the condition of the group's middle sample) and one chart
 point per sample, in list order.

 Locale formatting is not modelled: the weekday/short-date labels of a date
 and the weekday/time label of an instant are function parameters about which
 nothing is claimed.
 */
module ForecastCard {
  import opened Common
  import opened Grouping

  datatype City = City(timezone: Option<int>)

  /** The forecast payload; either field may be missing. */
  datatype Forecast = Forecast(city: Option<City>, list: Option<seq<Sample>>)

  /** `formatDay`'s result for a date: the weekday and the short date. */
  datatype DayLabel = DayLabel(day: string, fullDate: string)

  datatype DailySummary = DailySummary(
    date: string,
    dayName: string,
    fullDate: string,
    avg: int,
    condition: string,
    icon: string)

  datatype ChartPoint = ChartPoint(
    timeLabel: string,
    temp: real,
    feels: real,
    humidity: int,
    wind: real,
    pop: int)

  /** What the card renders: the summaries and the chart series. */
  datatype View = View(days: seq<DailySummary>, chart: seq<ChartPoint>)

  /** `Object.keys(daily).slice(0, 5)`. */
  const MaxDays: nat := 5

  function Temps(g: seq<Sample>): (r: seq<real>)
    ensures |r| == |g|
    ensures forall i :: 0 <= i < |g| ==> r[i] == g[i].temp
  {
    seq(|g|, i requires 0 <= i < |g| => g[i].temp)
  }

  /** `temps.reduce((a, b) => a + b, 0)`, exact. */
  function Sum(ts: seq<real>): real
    decreases |ts|
  {
    if ts == [] then 0.0 else Sum(ts[..|ts| - 1]) + ts[|ts| - 1]
  }

  function Mean(ts: seq<real>): real
    requires |ts| > 0
  {
    Sum(ts) / (|ts| as real)
  }

  /** The smallest value of a non-empty sequence. */
  function Lowest(ts: seq<real>): (r: real)
    requires |ts| > 0
    ensures r in ts
    ensures forall i :: 0 <= i < |ts| ==> r <= ts[i]
    decreases |ts|
  {
    if |ts| == 1 then ts[0]
    else
      var init := ts[..|ts| - 1];
      assert ts == init + [ts[|ts| - 1]];
      var m := Lowest(init);
      if m <= ts[|ts| - 1] then m else ts[|ts| - 1]
  }

  /** The largest value of a non-empty sequence. */
  function Highest(ts: seq<real>): (r: real)
    requires |ts| > 0
    ensures r in ts
    ensures forall i :: 0 <= i < |ts| ==> ts[i] <= r
    decreases |ts|
  {
    if |ts| == 1 then ts[0]
    else
      var init := ts[..|ts| - 1];
      assert ts == init + [ts[|ts| - 1]];
      var m := Highest(init);
      if ts[|ts| - 1] <= m then m else ts[|ts| - 1]
  }

  /** A sum of values within [lo, hi] lies within [n*lo, n*hi]. */
  lemma {:induction false} SumBounds(ts: seq<real>, lo: real, hi: real)
    requires forall i :: 0 <= i < |ts| ==> lo <= ts[i] <= hi
    ensures (|ts| as real) * lo <= Sum(ts) <= (|ts| as real) * hi
    decreases |ts|
  {
    if ts != [] {
      var init := ts[..|ts| - 1];
      assert forall i :: 0 <= i < |init| ==> init[i] == ts[i];
      SumBounds(init, lo, hi);
      assert (|ts| as real) * lo == (|init| as real) * lo + lo;
      assert (|ts| as real) * hi == (|init| as real) * hi + hi;
    }
  }

  /** Dividing a bounded total by a positive count bounds the quotient. */
  lemma QuotientBounds(total: real, n: real, lo: real, hi: real)
    requires n > 0.0 && n * lo <= total <= n * hi
    ensures lo <= total / n <= hi
  {
    assert total / n - lo == (total - n * lo) / n;
    assert hi - total / n == (n * hi - total) / n;
  }

  /** The mean of values within [lo, hi] lies within [lo, hi]. */
  lemma MeanBetween(ts: seq<real>, lo: real, hi: real)
    requires |ts| > 0
    requires forall i :: 0 <= i < |ts| ==> lo <= ts[i] <= hi
    ensures lo <= Mean(ts) <= hi
  {
    SumBounds(ts, lo, hi);
    QuotientBounds(Sum(ts), |ts| as real, lo, hi);
  }

  /** The mean lies between the smallest and the largest value. */
  lemma MeanBounds(ts: seq<real>)
    requires |ts| > 0
    ensures Lowest(ts) <= Mean(ts) <= Highest(ts)
  {
    MeanBetween(ts, Lowest(ts), Highest(ts));
  }

  /** The summary of one date's group. */
  function Summarize(date: string, g: seq<Sample>, formatDay: string -> DayLabel): (r: DailySummary)
    requires |g| > 0
    ensures r.date == date
    ensures r.avg as real - 0.5 <= Mean(Temps(g)) < r.avg as real + 0.5
    ensures r.condition == g[|g| / 2].condition && r.icon == g[|g| / 2].icon
    ensures r.dayName == formatDay(date).day && r.fullDate == formatDay(date).fullDate
  {
    var iconItem := g[|g| / 2];
    var names := formatDay(date);
    DailySummary(date, names.day, names.fullDate, RoundHalfUp(Mean(Temps(g))), iconItem.condition, iconItem.icon)
  }

  /** The `days` array: the first five dates in first-seen order, each
      summarising that date's non-empty group. */
  function DailySummaries(xs: seq<Sample>, formatDay: string -> DayLabel): (r: seq<DailySummary>)
    ensures |r| == Min(|DayKeys(xs)|, MaxDays)
    ensures forall j :: 0 <= j < |r| ==> r[j].date == DayKeys(xs)[j]
    ensures forall i, j :: 0 <= i < j < |r| ==> r[i].date != r[j].date
    ensures forall j :: 0 <= j < |r| ==> |SamplesOn(xs, r[j].date)| > 0
  {
    var keys := DayKeys(xs);
    var n := Min(|keys|, MaxDays);
    assert forall j :: 0 <= j < n ==> |SamplesOn(xs, keys[j])| > 0 by {
      forall j | 0 <= j < n
        ensures |SamplesOn(xs, keys[j])| > 0
      {
        GroupNonEmpty(xs, keys[j]);
      }
    }
    seq(n, j requires 0 <= j < n => Summarize(keys[j], SamplesOn(xs, keys[j]), formatDay))
  }

  /** Each summary carries its date's rounded mean temperature, the
      condition and icon of the group's element at index floor(n/2), and the
      date's labels. */
  lemma SummaryOfDate(xs: seq<Sample>, formatDay: string -> DayLabel, j: nat)
    requires j < |DailySummaries(xs, formatDay)|
    ensures var d := DailySummaries(xs, formatDay)[j];
            var g := SamplesOn(xs, d.date);
            && |g| / 2 < |g|
            && d.avg as real - 0.5 <= Mean(Temps(g)) < d.avg as real + 0.5
            && d.condition == g[|g| / 2].condition
            && d.icon == g[|g| / 2].icon
            && d.dayName == formatDay(d.date).day
            && d.fullDate == formatDay(d.date).fullDate
  {
    var keys := DayKeys(xs);
    var d := DailySummaries(xs, formatDay)[j];
    assert d == Summarize(keys[j], SamplesOn(xs, keys[j]), formatDay);
  }

  /** Every later summary's date first appears after every earlier summary's
      date: each occurrence of the later date is preceded by one of the
      earlier. */
  lemma SummariesFirstSeen(xs: seq<Sample>, formatDay: string -> DayLabel, a: nat, b: nat, i: nat)
    requires a < b < |DailySummaries(xs, formatDay)|
    requires i < |xs| && Key(xs[i]) == DailySummaries(xs, formatDay)[b].date
    ensures exists i' :: 0 <= i' < i && Key(xs[i']) == DailySummaries(xs, formatDay)[a].date
  {
    DayKeysFirstSeenOrder(xs, a, b, i);
  }

  /** The summary count is min(#distinct dates, 5). */
  lemma SummaryCount(xs: seq<Sample>, formatDay: string -> DayLabel)
    ensures |DailySummaries(xs, formatDay)| == Min(|Dates(xs)|, MaxDays)
  {
    DayKeysCount(xs);
  }

  /** A summary's rounded mean lies between the rounded lowest and the rounded
      highest temperature of its date. */
  lemma SummaryAverageInRange(xs: seq<Sample>, formatDay: string -> DayLabel, j: nat)
    requires j < |DailySummaries(xs, formatDay)|
    ensures var d := DailySummaries(xs, formatDay)[j];
            var ts := Temps(SamplesOn(xs, d.date));
            |ts| > 0 && RoundHalfUp(Lowest(ts)) <= d.avg <= RoundHalfUp(Highest(ts))
  {
    var d := DailySummaries(xs, formatDay)[j];
    var ts := Temps(SamplesOn(xs, d.date));
    MeanBounds(ts);
    assert d.avg == RoundHalfUp(Mean(ts));
    RoundHalfUpMonotone(Lowest(ts), Mean(ts));
    RoundHalfUpMonotone(Mean(ts), Highest(ts));
  }

  /** `forecast.city?.timezone || 0`. */
  function Offset(f: Forecast): (r: int)
    ensures f.city.Some? && f.city.value.timezone.Some? ==> r == f.city.value.timezone.value
    ensures f.city.None? || f.city.value.timezone.None? ==> r == 0
  {
    match f.city
    case None => 0
    case Some(c) => c.timezone.GetOr(0)
  }

  /** `Math.round((pop || 0) * 100)`. */
  function PopPercent(pop: Option<real>): (r: int)
    ensures pop.None? ==> r == 0
    ensures pop.Some? ==> r as real - 0.5 <= 100.0 * pop.value < r as real + 0.5
    ensures pop.Some? && 0.0 <= pop.value <= 1.0 ==> 0 <= r <= 100
  {
    RoundHalfUp(pop.GetOr(0.0) * 100.0)
  }

  /** The instant a chart label is formatted from: `(dt + timezone) * 1000`
      milliseconds. */
  function LocalMillis(x: Sample, tz: int): int {
    (x.dt + tz) * 1000
  }

  function Point(x: Sample, tz: int, clock: int -> string): ChartPoint {
    ChartPoint(clock(LocalMillis(x, tz)), x.temp, x.feelsLike, x.humidity, x.windSpeed, PopPercent(x.pop))
  }

  /** `chartData`: one point per sample, in list order, copying the metrics. */
  function ChartData(xs: seq<Sample>, tz: int, clock: int -> string): (r: seq<ChartPoint>)
    ensures |r| == |xs|
    ensures forall i :: 0 <= i < |xs| ==>
              && r[i].temp == xs[i].temp
              && r[i].feels == xs[i].feelsLike
              && r[i].humidity == xs[i].humidity
              && r[i].wind == xs[i].windSpeed
              && r[i].pop == PopPercent(xs[i].pop)
              && r[i].timeLabel == clock((xs[i].dt + tz) * 1000)
    decreases |xs|
  {
    if xs == [] then []
    else [Point(xs[0], tz, clock)] + ChartData(xs[1..], tz, clock)
  }

  /** The chart series neither re-sorts nor drops samples: it commutes with
      concatenation. */
  lemma {:induction false} ChartDataAppend(xs: seq<Sample>, ys: seq<Sample>, tz: int, clock: int -> string)
    ensures ChartData(xs + ys, tz, clock) == ChartData(xs, tz, clock) + ChartData(ys, tz, clock)
    decreases |xs|
  {
    if xs == [] {
      assert xs + ys == ys;
    } else {
      assert (xs + ys)[0] == xs[0];
      assert (xs + ys)[1..] == xs[1..] + ys;
      ChartDataAppend(xs[1..], ys, tz, clock);
    }
  }

  /** The card: nothing when the payload or its list is missing, otherwise
      the summaries and the chart of the list under the payload's offset. */
  function Render(f: Option<Forecast>, formatDay: string -> DayLabel, clock: int -> string): (r: Option<View>)
    ensures r.None? <==> f.None? || f.value.list.None?
    ensures r.Some? ==>
              && r.value.days == DailySummaries(f.value.list.value, formatDay)
              && r.value.chart == ChartData(f.value.list.value, Offset(f.value), clock)
  {
    match f
    case None => None
    case Some(fc) =>
      match fc.list
      case None => None
      case Some(list) => Some(View(DailySummaries(list, formatDay), ChartData(list, Offset(fc), clock)))
  }

  /** An empty list is not a missing one: the card still renders, with no
      summaries and no chart points. */
  lemma EmptyListRendersEmptyCard(f: Forecast, formatDay: string -> DayLabel, clock: int -> string)
    requires f.list == Some([])
    ensures Render(Some(f), formatDay, clock) == Some(View([], []))
  {
    assert |DailySummaries([], formatDay)| == 0;
  }

  /** Worked examples: [10.2, 11.8] averages to 11, [10.4, 10.6] rounds its
      mean 10.5 up to 11, and both a three-sample and a two-sample date take
      their condition from the second sample (index floor(n/2)). */
  lemma SummaryExamples(a: Sample, b: Sample, c: Sample, formatDay: string -> DayLabel)
    requires a.temp == 10.2 && b.temp == 11.8
    ensures RoundHalfUp(Mean([10.2, 11.8])) == 11
    ensures RoundHalfUp(Mean([10.4, 10.6])) == 11
    ensures Summarize("d", [a, b, c], formatDay).condition == b.condition
    ensures Summarize("d", [a, b], formatDay).condition == b.condition
    ensures Summarize("d", [a, b], formatDay).avg == 11
  {
    assert Sum([10.2, 11.8]) == 22.0 by {
      assert [10.2, 11.8][..1] == [10.2];
      assert [10.2][..0] == [];
    }
    assert Sum([10.4, 10.6]) == 21.0 by {
      assert [10.4, 10.6][..1] == [10.4];
      assert [10.4][..0] == [];
    }
    assert Temps([a, b]) == [10.2, 11.8];
  }
}
