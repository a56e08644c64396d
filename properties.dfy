/**
  What one collector cycle produces, stated against the fetched data: how many
  points, in which order, from which records, and when the batch is written.
 */
module CycleProperties {
  import opened Appliance
  import opened Points
  import opened Collector

  /** The panels a cycle sees: none when the inverter fetch failed. */
  function PanelsOf(inverterOutput: Fetch<seq<Record>>): seq<Record>
  {
    if inverterOutput.Got? then inverterOutput.body else []
  }

  /** Every reading of the production body, key after key, in order. */
  function Readings(body: CtBody): seq<Record>
    decreases |body|
  {
    if body == [] then [] else Readings(body[..|body| - 1]) + body[|body| - 1].1
  }

  /** The elements of `xs` that `keep` accepts, in order. */
  function Filter<T>(xs: seq<T>, keep: T -> bool): seq<T>
    decreases |xs|
  {
    if xs == [] then []
    else
      var last := xs[|xs| - 1];
      Filter(xs[..|xs| - 1], keep) + if keep(last) then [last] else []
  }

  /** The EIM readings among `readings`, in order. */
  function EimOnly(readings: seq<Record>): seq<Record>
  {
    Filter(readings, IsEim)
  }

  /** The EIM readings a cycle sees: none when the production fetch failed. */
  function EimReadingsOf(ctOutput: Fetch<CtBody>): seq<Record>
  {
    if ctOutput.Got? then EimOnly(Readings(ctOutput.body)) else []
  }

  /** Every panel has all the keys it is read by. */
  predicate WellFormedPanels(panels: seq<Record>)
  {
    forall i :: 0 <= i < |panels| ==> HasKeys(panels[i], PanelKeys)
  }

  /** Every reading has a `type`, and every EIM reading has all the keys it is read by. */
  predicate WellFormedReadings(readings: seq<Record>)
  {
    forall i :: 0 <= i < |readings| ==>
      "type" in readings[i] && (IsEim(readings[i]) ==> HasKeys(readings[i], EimKeys))
  }

  lemma ThenAssociates(a: Batch, b: Batch, c: Batch)
    ensures Then(Then(a, b), c) == Then(a, Then(b, c))
  {
    if a.Built? && b.Built? && c.Built? {
      AppendAssociates(a.points, b.points, c.points);
    }
  }

  /** Running the loop over `a + b` is running it over `a`, then over `b`. */
  lemma {:induction false} CollectAppend<T>(a: seq<T>, b: seq<T>, f: T -> Batch)
    ensures Collect(a + b, f) == Then(Collect(a, f), Collect(b, f))
    decreases |b|
  {
    if b == [] {
      assert a + b == a;
    } else {
      var front := b[..|b| - 1];
      assert (a + b)[..|a + b| - 1] == a + front;
      CollectAppend(a, front, f);
      ThenAssociates(Collect(a, f), Collect(front, f), f(b[|b| - 1]));
    }
  }

  /** The nested loop over keys and readings is one loop over all readings. */
  lemma {:induction false} CtPointsFlatten(body: CtBody)
    ensures CtPoints(body) == Collect(Readings(body), ReadingPoints)
    decreases |body|
  {
    if body != [] {
      var front := body[..|body| - 1];
      CtPointsFlatten(front);
      CollectAppend(Readings(front), body[|body| - 1].1, ReadingPoints);
    }
  }

  /** A loop whose every element appends two points lays them out pair by pair. */
  lemma {:induction false} CollectPairs<T>(xs: seq<T>, f: T -> Batch)
    requires Collect(xs, f).Built?
    requires forall i :: 0 <= i < |xs| ==> f(xs[i]).Built? ==> |f(xs[i]).points| == 2
    ensures |Collect(xs, f).points| == 2 * |xs|
    ensures forall i :: 0 <= i < |xs| ==>
      f(xs[i]).Built? && Collect(xs, f).points[2 * i..2 * i + 2] == f(xs[i]).points
    decreases |xs|
  {
    if xs != [] {
      var n := |xs| - 1;
      var front := xs[..n];
      CollectOutcome(xs, f);
      assert forall i :: 0 <= i < n ==> front[i] == xs[i];
      CollectPairs(front, f);
      var ps, fs := Collect(xs, f).points, Collect(front, f).points;
      assert ps == fs + f(xs[n]).points;
      forall i | 0 <= i < n
        ensures ps[2 * i..2 * i + 2] == f(xs[i]).points
      {
        SliceOfFront(fs, f(xs[n]).points, 2 * i, 2 * i + 2);
      }
    }
  }

  /**
    A loop whose kept elements append sixteen points and whose other elements
    append none lays out the kept elements' points sixteen by sixteen.
   */
  lemma {:induction false} CollectSixteens<T>(xs: seq<T>, f: T -> Batch, keep: T -> bool)
    requires Collect(xs, f).Built?
    requires forall i :: 0 <= i < |xs| ==> f(xs[i]).Built? ==>
      if keep(xs[i]) then |f(xs[i]).points| == 16 else f(xs[i]).points == []
    ensures |Collect(xs, f).points| == 16 * |Filter(xs, keep)|
    ensures forall m :: 0 <= m < |Filter(xs, keep)| ==>
      f(Filter(xs, keep)[m]).Built? &&
      Collect(xs, f).points[16 * m..16 * m + 16] == f(Filter(xs, keep)[m]).points
    decreases |xs|
  {
    if xs != [] {
      var n := |xs| - 1;
      var front, last := xs[..n], xs[n];
      CollectOutcome(xs, f);
      assert forall i :: 0 <= i < n ==> front[i] == xs[i];
      CollectSixteens(front, f, keep);
      var ps, fs := Collect(xs, f).points, Collect(front, f).points;
      var es, efs := Filter(xs, keep), Filter(front, keep);
      assert ps == fs + f(last).points;
      if keep(last) {
        assert es == efs + [last];
        forall m | 0 <= m < |es|
          ensures f(es[m]).Built? && ps[16 * m..16 * m + 16] == f(es[m]).points
        {
          if m < |efs| {
            assert es[m] == efs[m];
            SliceOfFront(fs, f(last).points, 16 * m, 16 * m + 16);
          } else {
            SliceOfBack(fs, f(last).points, 16 * m, 16 * m + 16);
          }
        }
      } else {
        assert es == efs;
        assert ps == fs;
      }
    }
  }

  /**
    Panel `i` yields points `2i` (lastReportWatts) and `2i + 1` (maxReportWatts),
    in list order, and nothing else is added.
   */
  lemma InverterLayout(panels: seq<Record>)
    requires InverterPoints(panels).Built?
    ensures |InverterPoints(panels).points| == 2 * |panels|
    ensures forall i :: 0 <= i < |panels| ==>
      PanelPoints(panels[i]).Built? &&
      InverterPoints(panels).points[2 * i..2 * i + 2] == PanelPoints(panels[i]).points
  {
    CollectPairs(panels, PanelPoints);
  }

  /**
    Over a list of readings, each EIM reading `m` (counting EIM readings only)
    yields points `16m` to `16m + 15`; readings of any other type yield none.
   */
  lemma EimLayout(readings: seq<Record>)
    requires Collect(readings, ReadingPoints).Built?
    ensures |Collect(readings, ReadingPoints).points| == 16 * |EimOnly(readings)|
    ensures forall m :: 0 <= m < |EimOnly(readings)| ==>
      HasKeys(EimOnly(readings)[m], EimKeys) &&
      Collect(readings, ReadingPoints).points[16 * m..16 * m + 16] == EimPoints(EimOnly(readings)[m])
  {
    CollectSixteens(readings, ReadingPoints, IsEim);
    forall m | 0 <= m < |EimOnly(readings)|
      ensures IsEim(EimOnly(readings)[m])
    {
      FilterKeeps(readings, IsEim, m);
    }
  }

  lemma {:induction false} FilterKeeps<T>(xs: seq<T>, keep: T -> bool, m: nat)
    requires m < |Filter(xs, keep)|
    ensures keep(Filter(xs, keep)[m])
    decreases |xs|
  {
    var n := |xs| - 1;
    var front := Filter(xs[..n], keep);
    if m < |front| {
      FilterKeeps(xs[..n], keep, m);
    }
  }

  lemma SliceOfFront(a: seq<Point>, b: seq<Point>, i: nat, j: nat)
    requires i <= j <= |a|
    ensures (a + b)[i..j] == a[i..j]
  {
  }

  lemma SliceOfBack(a: seq<Point>, b: seq<Point>, i: nat, j: nat)
    requires |a| <= i <= j <= |a| + |b|
    ensures (a + b)[i..j] == b[i - |a|..j - |a|]
  {
  }

  /** The inverter points of a cycle: two per fetched panel, panel by panel. */
  lemma InverterPart(inverterOutput: Fetch<seq<Record>>)
    requires FromInverters(inverterOutput).Built?
    ensures |FromInverters(inverterOutput).points| == 2 * |PanelsOf(inverterOutput)|
    ensures forall i :: 0 <= i < |PanelsOf(inverterOutput)| ==>
      PanelPoints(PanelsOf(inverterOutput)[i]).Built? &&
      FromInverters(inverterOutput).points[2 * i..2 * i + 2] == PanelPoints(PanelsOf(inverterOutput)[i]).points
  {
    if inverterOutput.Got? {
      InverterLayout(inverterOutput.body);
    }
  }

  /** The CT points of a cycle: sixteen per fetched EIM reading, reading by reading. */
  lemma CtPart(ctOutput: Fetch<CtBody>)
    requires FromCt(ctOutput).Built?
    ensures |FromCt(ctOutput).points| == 16 * |EimReadingsOf(ctOutput)|
    ensures forall m :: 0 <= m < |EimReadingsOf(ctOutput)| ==>
      HasKeys(EimReadingsOf(ctOutput)[m], EimKeys) &&
      FromCt(ctOutput).points[16 * m..16 * m + 16] == EimPoints(EimReadingsOf(ctOutput)[m])
  {
    if ctOutput.Got? {
      CtPointsFlatten(ctOutput.body);
      EimLayout(Readings(ctOutput.body));
    }
  }

  lemma CycleSplit(inverterOutput: Fetch<seq<Record>>, ctOutput: Fetch<CtBody>)
    requires CyclePoints(inverterOutput, ctOutput).Built?
    ensures FromInverters(inverterOutput).Built? && FromCt(ctOutput).Built?
    ensures CyclePoints(inverterOutput, ctOutput).points ==
      FromInverters(inverterOutput).points + FromCt(ctOutput).points
  {
  }

  /** Putting `back` after `front` keeps `front`'s pairs where they were. */
  lemma PairsStayInFront(front: seq<Point>, back: seq<Point>, panels: seq<Record>)
    requires |front| == 2 * |panels|
    requires forall i :: 0 <= i < |panels| ==>
      PanelPoints(panels[i]).Built? && front[2 * i..2 * i + 2] == PanelPoints(panels[i]).points
    ensures forall i :: 0 <= i < |panels| ==> (front + back)[2 * i..2 * i + 2] == PanelPoints(panels[i]).points
  {
    forall i | 0 <= i < |panels|
      ensures (front + back)[2 * i..2 * i + 2] == PanelPoints(panels[i]).points
    {
      SliceOfFront(front, back, 2 * i, 2 * i + 2);
    }
  }

  /** Putting `front` before `back` shifts `back`'s blocks of sixteen by `|front|`. */
  lemma SixteensShiftBehind(front: seq<Point>, back: seq<Point>, eims: seq<Record>)
    requires |back| == 16 * |eims|
    requires forall m :: 0 <= m < |eims| ==>
      HasKeys(eims[m], EimKeys) && back[16 * m..16 * m + 16] == EimPoints(eims[m])
    ensures forall m :: 0 <= m < |eims| ==>
      (front + back)[|front| + 16 * m..|front| + 16 * m + 16] == EimPoints(eims[m])
  {
    forall m | 0 <= m < |eims|
      ensures (front + back)[|front| + 16 * m..|front| + 16 * m + 16] == EimPoints(eims[m])
    {
      SliceOfBack(front, back, |front| + 16 * m, |front| + 16 * m + 16);
    }
  }

  /** In a cycle's batch, points `2i` and `2i + 1` are panel `i`'s pair. */
  lemma CyclePanelPositions(inverterOutput: Fetch<seq<Record>>, ctOutput: Fetch<CtBody>)
    requires CyclePoints(inverterOutput, ctOutput).Built?
    ensures 2 * |PanelsOf(inverterOutput)| <= |CyclePoints(inverterOutput, ctOutput).points|
    ensures forall i :: 0 <= i < |PanelsOf(inverterOutput)| ==>
      PanelPoints(PanelsOf(inverterOutput)[i]).Built? &&
      CyclePoints(inverterOutput, ctOutput).points[2 * i..2 * i + 2] == PanelPoints(PanelsOf(inverterOutput)[i]).points
  {
    CycleSplit(inverterOutput, ctOutput);
    InverterPart(inverterOutput);
    PairsStayInFront(FromInverters(inverterOutput).points, FromCt(ctOutput).points, PanelsOf(inverterOutput));
  }

  /** In a cycle's batch, the sixteen points of EIM reading `m` follow every panel's pair and earlier EIM readings. */
  lemma CycleEimPositions(inverterOutput: Fetch<seq<Record>>, ctOutput: Fetch<CtBody>)
    requires CyclePoints(inverterOutput, ctOutput).Built?
    ensures |CyclePoints(inverterOutput, ctOutput).points| ==
      2 * |PanelsOf(inverterOutput)| + 16 * |EimReadingsOf(ctOutput)|
    ensures forall m :: 0 <= m < |EimReadingsOf(ctOutput)| ==>
      var start := 2 * |PanelsOf(inverterOutput)| + 16 * m;
      HasKeys(EimReadingsOf(ctOutput)[m], EimKeys) &&
      CyclePoints(inverterOutput, ctOutput).points[start..start + 16] == EimPoints(EimReadingsOf(ctOutput)[m])
  {
    CycleSplit(inverterOutput, ctOutput);
    InverterPart(inverterOutput);
    CtPart(ctOutput);
    SixteensShiftBehind(FromInverters(inverterOutput).points, FromCt(ctOutput).points, EimReadingsOf(ctOutput));
  }

  /**
    The batch of a cycle has exactly 2 points per panel and 16 per EIM reading:
    first every panel's pair in list order, then every EIM reading's sixteen
    in the order of the keys and of the readings under each key.
   */
  lemma CycleLayout(inverterOutput: Fetch<seq<Record>>, ctOutput: Fetch<CtBody>)
    requires CyclePoints(inverterOutput, ctOutput).Built?
    ensures |CyclePoints(inverterOutput, ctOutput).points| ==
      2 * |PanelsOf(inverterOutput)| + 16 * |EimReadingsOf(ctOutput)|
    ensures forall i :: 0 <= i < |PanelsOf(inverterOutput)| ==>
      PanelPoints(PanelsOf(inverterOutput)[i]).Built? &&
      CyclePoints(inverterOutput, ctOutput).points[2 * i..2 * i + 2] == PanelPoints(PanelsOf(inverterOutput)[i]).points
    ensures forall m :: 0 <= m < |EimReadingsOf(ctOutput)| ==>
      var start := 2 * |PanelsOf(inverterOutput)| + 16 * m;
      HasKeys(EimReadingsOf(ctOutput)[m], EimKeys) &&
      CyclePoints(inverterOutput, ctOutput).points[start..start + 16] == EimPoints(EimReadingsOf(ctOutput)[m])
  {
    CyclePanelPositions(inverterOutput, ctOutput);
    CycleEimPositions(inverterOutput, ctOutput);
  }

  /** The inverter loop finishes exactly when every fetched panel has all its keys. */
  lemma InvertersCompleteIff(inverterOutput: Fetch<seq<Record>>)
    ensures FromInverters(inverterOutput).Built? <==> WellFormedPanels(PanelsOf(inverterOutput))
  {
    CollectOutcome(PanelsOf(inverterOutput), PanelPoints);
  }

  /**
    The production loops finish exactly when every fetched reading has a type
    and, if it is an EIM reading, all its keys.
   */
  lemma CtCompletesIff(ctOutput: Fetch<CtBody>)
    ensures FromCt(ctOutput).Built? <==> ctOutput.Got? ==> WellFormedReadings(Readings(ctOutput.body))
  {
    if ctOutput.Got? {
      CtPointsFlatten(ctOutput.body);
      CollectOutcome(Readings(ctOutput.body), ReadingPoints);
    }
  }

  /**
    A cycle completes, rather than dying on a KeyError, exactly when every
    fetched panel has all its keys and every fetched reading has a `type` and,
    if it is an EIM reading, all its keys.
   */
  lemma CycleCompletesIff(inverterOutput: Fetch<seq<Record>>, ctOutput: Fetch<CtBody>)
    ensures Cycle(inverterOutput, ctOutput).Completed? <==>
      WellFormedPanels(PanelsOf(inverterOutput)) &&
      (ctOutput.Got? ==> WellFormedReadings(Readings(ctOutput.body)))
  {
    InvertersCompleteIff(inverterOutput);
    CtCompletesIff(ctOutput);
  }

  /**
    A completed cycle writes exactly when at least one panel or one EIM
    reading was fetched; in particular, when both fetches fail nothing is written.
   */
  lemma CycleWritesIffData(inverterOutput: Fetch<seq<Record>>, ctOutput: Fetch<CtBody>)
    requires Cycle(inverterOutput, ctOutput).Completed?
    ensures Cycle(inverterOutput, ctOutput).written <==>
      |PanelsOf(inverterOutput)| > 0 || |EimReadingsOf(ctOutput)| > 0
  {
    CycleLayout(inverterOutput, ctOutput);
  }

  /**
    A failed inverter fetch does not stop the cycle: the production data is
    still mapped and written, and the batch is exactly its EIM points.
   */
  lemma FailedInverterFetchKeepsCtPoints(failure: Failure, body: CtBody)
    requires WellFormedReadings(Readings(body))
    ensures Cycle(Failed(failure), Got(body)).Completed?
    ensures |Cycle(Failed(failure), Got(body)).batch| == 16 * |EimOnly(Readings(body))|
    ensures Cycle(Failed(failure), Got(body)).written <==> |EimOnly(Readings(body))| > 0
  {
    CycleCompletesIff(Failed(failure), Got(body));
    CycleLayout(Failed(failure), Got(body));
  }

  /** A failed production fetch leaves the batch to the panels: two points each. */
  lemma FailedCtFetchKeepsPanelPoints(panels: seq<Record>, failure: Failure)
    requires WellFormedPanels(panels)
    ensures Cycle(Got(panels), Failed(failure)).Completed?
    ensures |Cycle(Got(panels), Failed(failure)).batch| == 2 * |panels|
    ensures Cycle(Got(panels), Failed(failure)).written <==> |panels| > 0
  {
    CycleCompletesIff(Got(panels), Failed(failure));
    CycleLayout(Got(panels), Failed(failure));
  }

  /** With both fetches failed, the batch is empty and the write is skipped. */
  lemma BothFetchesFailed(a: Failure, b: Failure)
    ensures Cycle(Failed(a), Failed(b)) == Completed([], false)
  {
  }
}

module CycleExamples {
  import opened Appliance
  import opened Points
  import opened Collector
  import opened CycleProperties

  /** A complete production EIM reading, as the appliance reports it. */
  function ProductionReading(): Record
  {
    map["type" := Str("eim"), "measurementType" := Str("production"), "readingTime" := Int(1),
        "activeCount" := Int(1), "wNow" := Int(5), "whLifetime" := Int(10),
        "varhLeadLifetime" := Int(0), "varhLagLifetime" := Int(0), "vahLifetime" := Int(0),
        "rmsCurrent" := Int(0), "rmsVoltage" := Int(0), "reactPwr" := Int(0),
        "apprntPwr" := Int(0), "pwrFactor" := Int(0), "whToday" := Int(0),
        "whLastSevenDays" := Int(0), "vahToday" := Int(0), "varhLeadToday" := Int(0),
        "varhLagToday" := Int(0)]
  }

  /** A reading of type "inverters", which the collector does not map. */
  function InvertersReading(): Record
  {
    map["type" := Str("inverters"), "activeCount" := Int(10), "readingTime" := Int(1),
        "wNow" := Int(300), "whLifetime" := Int(9000)]
  }

  lemma ProductionReadingComplete()
    ensures HasKeys(ProductionReading(), EimKeys)
    ensures IsEim(ProductionReading()) && !IsEim(InvertersReading())
  {
  }

  lemma ProductionReadingValues()
    ensures "measurementType" in ProductionReading() && ProductionReading()["measurementType"] == Str("production")
    ensures "activeCount" in ProductionReading() && ProductionReading()["activeCount"] == Int(1)
    ensures "wNow" in ProductionReading() && ProductionReading()["wNow"] == Int(5)
  {
  }

  lemma ProductionReadingPoints()
    ensures HasKeys(ProductionReading(), EimKeys)
    ensures EimPoints(ProductionReading())[0] ==
      Point("activeCount", map["type" := Str("eim"), "measurementType" := Str("production")], map["ct_metric" := AsFloat(Int(1))])
    ensures EimPoints(ProductionReading())[1] ==
      Point("wNow", map["type" := Str("eim"), "measurementType" := Str("production")], map["ct_metric" := AsFloat(Int(5))])
  {
    ProductionReadingComplete();
    EimPointsShape(ProductionReading());
    ProductionReadingValues();
    var ps := EimPoints(ProductionReading());
    assert ps[0].measurement == EimMetrics[0] == "activeCount";
    assert ps[1].measurement == EimMetrics[1] == "wNow";
  }

  lemma ExampleEimReadings(body: CtBody)
    requires body == [("production", [InvertersReading(), ProductionReading()])]
    ensures Readings(body) == [InvertersReading(), ProductionReading()]
    ensures EimOnly(Readings(body)) == [ProductionReading()]
  {
    ProductionReadingComplete();
    assert body[..0] == [];
    var rs := Readings(body);
    assert rs[..1][..0] == [];
    assert rs[..1] == [InvertersReading()];
    assert Filter(rs[..1], IsEim) == [];
  }

  /**
    With the inverter fetch failed and a production body holding one "inverters"
    reading and one EIM reading, the cycle writes the EIM reading's sixteen
    points, starting with activeCount and wNow, each value passed through `float`.
   */
  lemma ProductionExample()
    ensures var o := Cycle(Failed(RequestRaised), Got([("production", [InvertersReading(), ProductionReading()])]));
      && o.Completed? && o.written && |o.batch| == 16
      && o.batch[0] == Point("activeCount", map["type" := Str("eim"), "measurementType" := Str("production")],
                             map["ct_metric" := AsFloat(Int(1))])
      && o.batch[1] == Point("wNow", map["type" := Str("eim"), "measurementType" := Str("production")],
                             map["ct_metric" := AsFloat(Int(5))])
  {
    var body: CtBody := [("production", [InvertersReading(), ProductionReading()])];
    ProductionReadingComplete();
    ExampleEimReadings(body);
    assert WellFormedReadings(Readings(body));
    FailedInverterFetchKeepsCtPoints(RequestRaised, body);
    CycleLayout(Failed(RequestRaised), Got(body));
    var o := Cycle(Failed(RequestRaised), Got(body));
    assert o.batch[0..16] == EimPoints(ProductionReading());
    ProductionReadingPoints();
  }

  /**
    A panel without `maxReportWatts` raises KeyError out of the loop: the cycle
    stops there and nothing is written. The production request comes after the
    panel loop and is never made, so `ctOutput` plays no part in the outcome.
   */
  lemma MissingKeyStopsCycle(ctOutput: Fetch<CtBody>)
    ensures Cycle(Got([map["lastReportDate" := Int(1635382224), "serialNumber" := Str("122102008624"),
                           "devType" := Int(1), "lastReportWatts" := Int(0)]]), ctOutput)
            == Crashed("maxReportWatts")
  {
    var panel: Record := map["lastReportDate" := Int(1635382224), "serialNumber" := Str("122102008624"),
                             "devType" := Int(1), "lastReportWatts" := Int(0)];
    assert [panel][..0] == [];
    assert FirstMissing(panel, PanelKeys) == Some("maxReportWatts") by {
      assert PanelKeys[1..][1..][1..][1..] == ["maxReportWatts"];
    }
  }
}
