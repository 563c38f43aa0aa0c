/**
 * The data behind the dashboard's line chart: a label series and two
 * labelled value series (temperature and humidity), seeded oldest-first
 * from a history and slid forward by each live reading.
 */
module ChartBuffer {
  import opened Types

  /** The label count above which a live append evicts the oldest point. */
  const Capacity: nat := 20

  const TemperatureLabel: string := "Temperature (°C)"
  const HumidityLabel: string := "Humidity (%)"

  datatype Dataset = Dataset(seriesLabel: string, data: seq<real>)

  function Reverse<T>(s: seq<T>): (r: seq<T>)
    ensures |r| == |s|
    ensures forall i :: 0 <= i < |s| ==> r[i] == s[|s| - 1 - i]
  {
    if |s| == 0 then [] else Reverse(s[1..]) + [s[0]]
  }

  /** The three series the chart is created with. */
  datatype Series = Series(labels: seq<string>, temperatures: seq<real>, humidities: seq<real>)

  /**
   * Seeds the series from a newest-first history: every reading is kept
   * (no truncation), in oldest-first order, and position `i` of all three
   * series describes the same reading.
   */
  function Seed(data: seq<Reading>, timeLabel: string -> string): (s: Series)
    ensures |s.labels| == |data| && |s.temperatures| == |data| && |s.humidities| == |data|
    ensures forall i :: 0 <= i < |data| ==>
              && s.labels[i] == timeLabel(data[|data| - 1 - i].timestampReceived)
              && s.temperatures[i] == data[|data| - 1 - i].temperature
              && s.humidities[i] == data[|data| - 1 - i].humidity
  {
    Series(
      Reverse(seq(|data|, i requires 0 <= i < |data| => timeLabel(data[i].timestampReceived))),
      Reverse(seq(|data|, i requires 0 <= i < |data| => data[i].temperature)),
      Reverse(seq(|data|, i requires 0 <= i < |data| => data[i].humidity)))
  }

  /** The two datasets the chart is created with, temperature first. */
  function SeedDatasets(s: Series): (ds: seq<Dataset>)
    ensures |ds| == 2
    ensures ds[0].seriesLabel == TemperatureLabel && ds[0].data == s.temperatures
    ensures ds[1].seriesLabel == HumidityLabel && ds[1].data == s.humidities
  {
    [Dataset(TemperatureLabel, s.temperatures), Dataset(HumidityLabel, s.humidities)]
  }

  /**
   * The shape every chart the dashboard keeps has: the temperature and the
   * humidity dataset, each as long as the label series.
   */
  ghost predicate Aligned(labels: seq<string>, datasets: seq<Dataset>)
  {
    && |datasets| == 2
    && datasets[0].seriesLabel == TemperatureLabel
    && datasets[1].seriesLabel == HumidityLabel
    && |datasets[0].data| == |labels|
    && |datasets[1].data| == |labels|
  }

  /** A seeded chart is aligned. */
  lemma SeedIsAligned(data: seq<Reading>, timeLabel: string -> string)
    ensures Aligned(Seed(data, timeLabel).labels, SeedDatasets(Seed(data, timeLabel)))
  {
  }

  /**
   * Appends `x` and, when the series then holds more than `Capacity`
   * points, evicts exactly the oldest one: the result ends in `x`, keeps
   * the surviving points in their order, and is one longer below capacity
   * and of unchanged length at or above it.
   */
  function Slide<T>(s: seq<T>, x: T): (r: seq<T>)
    ensures |r| == if |s| < Capacity then |s| + 1 else |s|
    ensures r[|r| - 1] == x
    ensures forall i :: 0 <= i < |r| - 1 ==> r[i] == s[|s| + 1 - |r| + i]
  {
    if |s| + 1 > Capacity then (s + [x])[1..] else s + [x]
  }

  /** `Array.prototype.shift` on a value array: drops the first element, if there is one. */
  function Shift<T>(s: seq<T>): (r: seq<T>)
    ensures |s| == 0 ==> r == []
    ensures |s| > 0 ==> |r| == |s| - 1 && forall i :: 0 <= i < |r| ==> r[i] == s[i + 1]
  {
    if |s| == 0 then s else s[1..]
  }

  /** What the live callback pushes onto a dataset, chosen by the dataset's label. */
  function Pushed(ds: Dataset, r: Reading): (p: Dataset)
    ensures p.seriesLabel == ds.seriesLabel
    // a temperature or humidity dataset gains the reading's matching value at its end
    ensures ds.seriesLabel == TemperatureLabel || ds.seriesLabel == HumidityLabel ==>
              && |p.data| == |ds.data| + 1
              && p.data[|ds.data|] == (if ds.seriesLabel == TemperatureLabel then r.temperature else r.humidity)
              && forall i :: 0 <= i < |ds.data| ==> p.data[i] == ds.data[i]
    // any other dataset is left alone
    ensures ds.seriesLabel != TemperatureLabel && ds.seriesLabel != HumidityLabel ==> p == ds
  {
    if ds.seriesLabel == TemperatureLabel then ds.(data := ds.data + [r.temperature])
    else if ds.seriesLabel == HumidityLabel then ds.(data := ds.data + [r.humidity])
    else ds
  }

  /** A dataset after one live reading: pushed, then shifted when the labels overflowed. */
  function Advanced(ds: Dataset, r: Reading, evict: bool): (a: Dataset)
    ensures a.seriesLabel == ds.seriesLabel
    // a temperature or humidity dataset ends in the reading's value, after its
    // old points minus the first one when the labels overflowed
    ensures ds.seriesLabel == TemperatureLabel || ds.seriesLabel == HumidityLabel ==>
              var drop := if evict then 1 else 0;
              && |a.data| == |ds.data| + 1 - drop
              && (|a.data| > 0 ==>
                   a.data[|a.data| - 1] == (if ds.seriesLabel == TemperatureLabel then r.temperature else r.humidity))
              && forall i :: 0 <= i < |a.data| - 1 ==> a.data[i] == ds.data[i + drop]
    // any other dataset only loses its first point on an overflow
    ensures ds.seriesLabel != TemperatureLabel && ds.seriesLabel != HumidityLabel ==>
              a.data == if evict then Shift(ds.data) else ds.data
  {
    var p := Pushed(ds, r);
    if evict then p.(data := Shift(p.data)) else p
  }

  /** Every dataset after one live reading. */
  function AdvancedAll(datasets: seq<Dataset>, r: Reading, evict: bool): (ds: seq<Dataset>)
    ensures |ds| == |datasets|
    ensures forall k :: 0 <= k < |ds| ==> ds[k].seriesLabel == datasets[k].seriesLabel
  {
    seq(|datasets|, k requires 0 <= k < |datasets| => Advanced(datasets[k], r, evict))
  }

  /** Whether a live reading overflows a label series of this length. */
  predicate Overflows(labelCount: nat)
  {
    labelCount + 1 > Capacity
  }

  /**
   * On an aligned chart one live reading slides all three series in lock
   * step: the labels by the reading's time label, the temperatures by its
   * temperature, the humidities by its humidity, and the chart stays aligned.
   */
  lemma LiveUpdateSlides(labels: seq<string>, datasets: seq<Dataset>, timeText: string, r: Reading)
    requires Aligned(labels, datasets)
    ensures var ds := AdvancedAll(datasets, r, Overflows(|labels|));
            && Aligned(Slide(labels, timeText), ds)
            && ds[0].data == Slide(datasets[0].data, r.temperature)
            && ds[1].data == Slide(datasets[1].data, r.humidity)
  {
  }

  /** The series after a run of live values, applied one at a time. */
  function SlideAll<T>(s: seq<T>, xs: seq<T>): seq<T>
    decreases |xs|
  {
    if |xs| == 0 then s else SlideAll(Slide(s, xs[0]), xs[1..])
  }

  function Min(a: int, b: int): int { if a <= b then a else b }

  /**
   * The window bounds only a chart that was seeded small: from a seed
   * shorter than `Capacity` the series grows to at most `Capacity` points,
   * while a seed of `Capacity` points or more keeps its length through every
   * live update.
   */
  lemma {:induction false} SlideAllLength<T>(s: seq<T>, xs: seq<T>)
    ensures |SlideAll(s, xs)| == if |s| >= Capacity then |s| else Min(|s| + |xs|, Capacity)
    decreases |xs|
  {
    if |xs| > 0 {
      SlideAllLength(Slide(s, xs[0]), xs[1..]);
    }
  }

  /**
   * The scenario of a three-reading history followed by one live reading:
   * the labels and both value series show the history oldest first, with
   * matching values at each position, and then the new point.
   */
  lemma SeedThenAppend(r1: Reading, r2: Reading, r3: Reading, r4: Reading, timeLabel: string -> string)
    ensures var s := Seed([r3, r2, r1], timeLabel);
            && s.labels == [timeLabel(r1.timestampReceived), timeLabel(r2.timestampReceived),
                            timeLabel(r3.timestampReceived)]
            && s.temperatures == [r1.temperature, r2.temperature, r3.temperature]
            && s.humidities == [r1.humidity, r2.humidity, r3.humidity]
            && Slide(s.temperatures, r4.temperature)
               == [r1.temperature, r2.temperature, r3.temperature, r4.temperature]
            && Slide(s.labels, timeLabel(r4.timestampReceived))
               == [timeLabel(r1.timestampReceived), timeLabel(r2.timestampReceived),
                   timeLabel(r3.timestampReceived), timeLabel(r4.timestampReceived)]
            && Slide(s.humidities, r4.humidity) == [r1.humidity, r2.humidity, r3.humidity, r4.humidity]
  {
  }

  /** The chart object the dashboard mutates in place. */
  class Chart {
    var labels: seq<string>
    var datasets: seq<Dataset>

    ghost predicate Valid()
      reads this
    {
      Aligned(labels, datasets)
    }

    constructor (labels: seq<string>, datasets: seq<Dataset>)
      ensures this.labels == labels && this.datasets == datasets
    {
      this.labels := labels;
      this.datasets := datasets;
    }

    /** Pushes a reading's time label onto the labels and its matching value onto every dataset. */
    method PushReading(timeText: string, r: Reading)
      modifies this
      ensures labels == old(labels) + [timeText]
      ensures |datasets| == |old(datasets)|
      ensures forall k :: 0 <= k < |datasets| ==> datasets[k] == Pushed(old(datasets)[k], r)
    {
      labels := labels + [timeText];
      var i := 0;
      while i < |datasets|
        invariant 0 <= i <= |datasets| == |old(datasets)|
        invariant labels == old(labels) + [timeText]
        invariant forall k :: 0 <= k < i ==> datasets[k] == Pushed(old(datasets)[k], r)
        invariant forall k :: i <= k < |datasets| ==> datasets[k] == old(datasets)[k]
      {
        var ds := datasets[i];
        if ds.seriesLabel == TemperatureLabel {
          ds := ds.(data := ds.data + [r.temperature]);
        } else if ds.seriesLabel == HumidityLabel {
          ds := ds.(data := ds.data + [r.humidity]);
        }
        datasets := datasets[i := ds];
        i := i + 1;
      }
    }

    /** Shifts the first label and the first point of every dataset off. */
    method EvictOldest()
      requires |labels| > 0
      modifies this
      ensures labels == old(labels)[1..]
      ensures |datasets| == |old(datasets)|
      ensures forall k :: 0 <= k < |datasets| ==>
                datasets[k] == old(datasets)[k].(data := Shift(old(datasets)[k].data))
    {
      labels := labels[1..];
      var j := 0;
      while j < |datasets|
        invariant 0 <= j <= |datasets| == |old(datasets)|
        invariant labels == old(labels)[1..]
        invariant forall k :: 0 <= k < j ==> datasets[k] == old(datasets)[k].(data := Shift(old(datasets)[k].data))
        invariant forall k :: j <= k < |datasets| ==> datasets[k] == old(datasets)[k]
      {
        var ds := datasets[j];
        if |ds.data| > 0 {
          ds := ds.(data := ds.data[1..]);
        }
        datasets := datasets[j := ds];
        j := j + 1;
      }
    }
  }
}
