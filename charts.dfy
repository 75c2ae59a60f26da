/**
  The rolling chart series of the dashboard (ChartsManager in
  app/static/js/charts.js).  A chart is the data part of a Chart.js
  instance: its labels and one value array per dataset.
*/
module Charts {
  import opened Common

  /** Points kept on the threat timeline. */
  const TimelineCap: nat := 24

  /**
    One data update of a rolling series: push `x`, then drop the first
    element when the chart's label array, of length `labelCount` before
    the push, has grown past `cap`.  The label array decides the shift for
    every array of the chart.
  */
  function PushShift<T>(s: seq<T>, x: T, labelCount: nat, cap: nat): (r: seq<T>)
    ensures |s| <= |r| + 1 && |r| <= |s| + 1
    ensures r != [] ==> r[|r| - 1] == x
  {
    if labelCount + 1 > cap then (s + [x])[1..] else s + [x]
  }

  /**
    On a series whose arrays have the label array's length and at most
    `cap` entries: the point is appended last, the length becomes
    min(n + 1, cap), and on overflow exactly the first element goes.
  */
  lemma PushShiftWindow<T>(s: seq<T>, x: T, cap: nat)
    requires 1 <= cap && |s| <= cap
    ensures var r := PushShift(s, x, |s|, cap);
      && |r| == Min(|s| + 1, cap)
      && r[|r| - 1] == x
      && (|s| < cap ==> r == s + [x])
      && (|s| == cap ==> r == s[1..] + [x])
  {
    if |s| == cap {
      assert (s + [x])[1..] == s[1..] + [x];
    }
  }

  /** Parallel arrays stay parallel: equal lengths before give equal lengths after. */
  lemma PushShiftParallel<T, U>(s: seq<T>, x: T, t: seq<U>, y: U, cap: nat)
    requires |s| == |t|
    ensures |PushShift(s, x, |s|, cap)| == |PushShift(t, y, |s|, cap)|
  {
  }

  /** The fixed network-activity sample: six four-hourly labels with packet and threat counts. */
  datatype NetworkSample = NetworkSample(labels: seq<string>, packets: seq<real>, threats: seq<real>)

  function NetworkData(): (d: NetworkSample)
    ensures |d.labels| == 6 && |d.packets| == |d.labels| && |d.threats| == |d.labels|
    ensures d.labels[0] == "00:00" && d.labels[5] == "20:00"
    ensures forall i :: 0 <= i < 6 ==> d.threats[i] < d.packets[i]
  {
    NetworkSample(["00:00", "04:00", "08:00", "12:00", "16:00", "20:00"],
                  [1200.0, 1900.0, 3000.0, 5000.0, 4200.0, 2800.0],
                  [2.0, 5.0, 12.0, 18.0, 15.0, 8.0])
  }

  /** The data of one Chart.js instance. */
  class Chart {
    var labels: seq<string>
    var datasets: seq<seq<real>>
    var destroyed: bool

    constructor (labels0: seq<string>, datasets0: seq<seq<real>>)
      ensures labels == labels0 && datasets == datasets0 && !destroyed
    {
      labels := labels0;
      datasets := datasets0;
      destroyed := false;
    }

    method Destroy()
      modifies this`destroyed
      ensures destroyed
    {
      destroyed := true;
    }
  }

  class ChartsManager {
    var charts: map<string, Chart>

    /** Every chart has the datasets the update methods index. */
    ghost predicate Valid()
      reads this, charts.Values
    {
      && ("threatTimeline" in charts ==> |charts["threatTimeline"].datasets| >= 1)
      && ("attackTypes" in charts ==> |charts["attackTypes"].datasets| >= 1)
      && ("networkActivity" in charts ==> |charts["networkActivity"].datasets| >= 2)
    }

    constructor ()
      ensures Valid() && charts == map[]
    {
      charts := map[];
    }

    /** The timeline starts from a generated series, given here as input. */
    method InitThreatTimelineChart(labels: seq<string>, values: seq<real>)
      requires Valid()
      modifies this`charts
      ensures Valid()
      ensures "threatTimeline" in charts && fresh(charts["threatTimeline"])
      ensures charts == old(charts)["threatTimeline" := charts["threatTimeline"]]
      ensures charts["threatTimeline"].labels == labels && charts["threatTimeline"].datasets == [values]
    {
      var c := new Chart(labels, [values]);
      charts := charts["threatTimeline" := c];
    }

    method InitAttackTypesChart()
      requires Valid()
      modifies this`charts
      ensures Valid()
      ensures "attackTypes" in charts && fresh(charts["attackTypes"])
      ensures charts == old(charts)["attackTypes" := charts["attackTypes"]]
      ensures charts["attackTypes"].labels == ["DoS/DDoS", "Probe/Scan", "R2L", "U2R"]
      ensures charts["attackTypes"].datasets == [[45.0, 30.0, 15.0, 10.0]]
    {
      var c := new Chart(["DoS/DDoS", "Probe/Scan", "R2L", "U2R"], [[45.0, 30.0, 15.0, 10.0]]);
      charts := charts["attackTypes" := c];
    }

    method InitNetworkActivityChart()
      requires Valid()
      modifies this`charts
      ensures Valid()
      ensures "networkActivity" in charts && fresh(charts["networkActivity"])
      ensures charts == old(charts)["networkActivity" := charts["networkActivity"]]
      ensures charts["networkActivity"].labels == NetworkData().labels
      ensures charts["networkActivity"].datasets == [NetworkData().packets, NetworkData().threats]
    {
      var d := NetworkData();
      var c := new Chart(d.labels, [d.packets, d.threats]);
      charts := charts["networkActivity" := c];
    }

    /**
      Appends a point to the threat timeline, keeping the last 24; without
      a timeline chart nothing changes.
    */
    method AddThreatDataPoint(point: string, value: real)
      requires Valid()
      modifies (if "threatTimeline" in charts then {charts["threatTimeline"]} else {})`labels,
               (if "threatTimeline" in charts then {charts["threatTimeline"]} else {})`datasets
      ensures Valid()
      ensures "threatTimeline" in charts ==>
        var c := charts["threatTimeline"];
        && c.labels == PushShift(old(c.labels), point, |old(c.labels)|, TimelineCap)
        && c.datasets == old(c.datasets)[0 := PushShift(old(c.datasets[0]), value, |old(c.labels)|, TimelineCap)]
    {
      if "threatTimeline" in charts {
        var c := charts["threatTimeline"];
        c.labels := c.labels + [point];
        c.datasets := c.datasets[0 := c.datasets[0] + [value]];
        if |c.labels| > TimelineCap {
          c.labels := c.labels[1..];
          c.datasets := c.datasets[0 := c.datasets[0][1..]];
        }
      }
    }

    /** Replaces the attack-type dataset wholesale; without that chart nothing changes. */
    method UpdateAttackTypeDistribution(data: seq<real>)
      requires Valid()
      modifies (if "attackTypes" in charts then {charts["attackTypes"]} else {})`datasets
      ensures Valid()
      ensures "attackTypes" in charts ==>
        var c := charts["attackTypes"];
        c.datasets == old(c.datasets)[0 := data] && c.labels == old(c.labels)
    {
      if "attackTypes" in charts {
        var c := charts["attackTypes"];
        c.datasets := c.datasets[0 := data];
      }
    }

    /** Destroys every chart, then forgets them all. */
    method Destroy()
      modifies this`charts, charts.Values
      ensures charts == map[]
      ensures forall c :: c in old(charts).Values ==> c.destroyed
    {
      var rest := charts.Values;
      while rest != {}
        invariant charts == old(charts)
        invariant rest <= charts.Values
        invariant forall c :: c in charts.Values && c !in rest ==> c.destroyed
        decreases |rest|
      {
        var c :| c in rest;
        c.Destroy();
        rest := rest - {c};
      }
      charts := map[];
    }
  }

  /**
    The timeline under repeated updates: starting from at most 24 points
    with one value per label, every update keeps the two arrays parallel,
    the last point newest, and at most 24 points.
  */
  lemma TimelineStaysBounded(labels: seq<string>, values: seq<real>, point: string, value: real)
    requires |labels| == |values| <= TimelineCap
    ensures var l := PushShift(labels, point, |labels|, TimelineCap);
      var v := PushShift(values, value, |labels|, TimelineCap);
      && |l| == |v| <= TimelineCap
      && l[|l| - 1] == point && v[|v| - 1] == value
  {
    PushShiftWindow(labels, point, TimelineCap);
    PushShiftWindow(values, value, TimelineCap);
  }
}
