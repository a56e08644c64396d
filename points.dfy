/**
  The time-series points the collector hands to the database client, and how one
  inverter panel or one production reading becomes points.
 */
module Points {
  import opened Appliance

  /** A field value: the JSON value as given, or Python's `float(v)` of it (left uninterpreted). */
  datatype Field = Raw(v: Json) | AsFloat(v: Json)

  /** One InfluxDB point: `{measurement, tags, fields}`. */
  datatype Point = Point(measurement: string, tags: map<string, Json>, fields: map<string, Field>)

  /** Points built so far, or the key whose lookup raised KeyError. */
  datatype Batch = Built(points: seq<Point>) | KeyError(key: string)

  /**
    The point for one panel metric: the measurement is the metric's name, the
    tags identify the panel and the single field carries the raw value. The
    report date is accepted and not used.
   */
  function InverterLogPoint(measurement: string, reportDate: Json, serial: Json, devType: Json, value: Json): (p: Point)
    ensures p.measurement == measurement
    ensures p.tags.Keys == {"serialNumber", "devType"}
    ensures p.tags["serialNumber"] == serial && p.tags["devType"] == devType
    ensures p.fields.Keys == {"panel_metric"} && p.fields["panel_metric"] == Raw(value)
  {
    Point(measurement, map["serialNumber" := serial, "devType" := devType], map["panel_metric" := Raw(value)])
  }

  /**
    The point for one EIM metric: tag `type` is always "eim", tag
    `measurementType` is the reading's, and the single field is `float(value)`.
    The reading time is accepted and not used.
   */
  function EimLogPoint(measurement: string, readingTime: Json, measurementType: Json, value: Json): (p: Point)
    ensures p.measurement == measurement
    ensures p.tags.Keys == {"type", "measurementType"}
    ensures p.tags["type"] == Str("eim") && p.tags["measurementType"] == measurementType
    ensures p.fields.Keys == {"ct_metric"} && p.fields["ct_metric"] == AsFloat(value)
  {
    Point(measurement, map["type" := Str("eim"), "measurementType" := measurementType], map["ct_metric" := AsFloat(value)])
  }

  lemma InverterLogPointIgnoresReportDate(measurement: string, d1: Json, d2: Json, serial: Json, devType: Json, value: Json)
    ensures InverterLogPoint(measurement, d1, serial, devType, value) == InverterLogPoint(measurement, d2, serial, devType, value)
  {
  }

  lemma EimLogPointIgnoresReadingTime(measurement: string, t1: Json, t2: Json, measurementType: Json, value: Json)
    ensures EimLogPoint(measurement, t1, measurementType, value) == EimLogPoint(measurement, t2, measurementType, value)
  {
  }

  /** The keys of a panel in the order the main loop looks them up. */
  const PanelKeys: seq<string> := ["lastReportDate", "serialNumber", "devType", "lastReportWatts", "maxReportWatts"]

  /** The sixteen EIM metrics, in the order the main loop appends their points. */
  const EimMetrics: seq<string> := [
    "activeCount", "wNow", "whLifetime", "varhLeadLifetime", "varhLagLifetime", "vahLifetime",
    "rmsCurrent", "rmsVoltage", "reactPwr", "apprntPwr", "pwrFactor", "whToday",
    "whLastSevenDays", "vahToday", "varhLeadToday", "varhLagToday"]

  /** The keys of an EIM reading in the order the main loop looks them up. */
  const EimKeys: seq<string> := ["readingTime", "measurementType"] + EimMetrics

  /**
    The two points of one panel, `lastReportWatts` then `maxReportWatts`, or the
    first key the panel lacks.
   */
  function PanelPoints(panel: Record): (b: Batch)
    ensures b.Built? <==> HasKeys(panel, PanelKeys)
    ensures b.KeyError? ==> b.key in PanelKeys && b.key !in panel
    ensures b.KeyError? ==> Some(b.key) == FirstMissing(panel, PanelKeys)
    ensures b.Built? ==> |b.points| == 2
  {
    match FirstMissing(panel, PanelKeys)
    case Some(k) => KeyError(k)
    case None =>
      assert PanelKeys[0] in panel && PanelKeys[1] in panel && PanelKeys[2] in panel;
      assert PanelKeys[3] in panel && PanelKeys[4] in panel;
      var date, serial, devType := panel["lastReportDate"], panel["serialNumber"], panel["devType"];
      Built([InverterLogPoint("lastReportWatts", date, serial, devType, panel["lastReportWatts"]),
             InverterLogPoint("maxReportWatts", date, serial, devType, panel["maxReportWatts"])])
  }

  /**
    A complete panel's pair: `lastReportWatts` then `maxReportWatts`, both tagged
    with the panel's serial number and device type, each carrying its own value.
   */
  lemma PanelPointsShape(panel: Record)
    requires HasKeys(panel, PanelKeys)
    ensures forall k :: k in PanelKeys ==> k in panel
    ensures var ps := PanelPoints(panel).points;
      && ps[0].measurement == "lastReportWatts"
      && ps[1].measurement == "maxReportWatts"
      && ps[0].fields == map["panel_metric" := Raw(panel["lastReportWatts"])]
      && ps[1].fields == map["panel_metric" := Raw(panel["maxReportWatts"])]
      && ps[0].tags == ps[1].tags == map["serialNumber" := panel["serialNumber"], "devType" := panel["devType"]]
  {
  }

  /** The reading's `type` is present and is the string "eim". */
  predicate IsEim(reading: Record)
  {
    "type" in reading && reading["type"] == Str("eim")
  }

  /** The sixteen points of a complete EIM reading. */
  function EimPoints(reading: Record): (ps: seq<Point>)
    requires HasKeys(reading, EimKeys)
    ensures |ps| == |EimMetrics| == 16
  {
    assert EimKeys[0] in reading && EimKeys[1] in reading;
    assert forall j :: 0 <= j < |EimMetrics| ==> EimKeys[j + 2] == EimMetrics[j];
    seq(|EimMetrics|, j requires 0 <= j < |EimMetrics| =>
      EimLogPoint(EimMetrics[j], reading["readingTime"], reading["measurementType"], reading[EimMetrics[j]]))
  }

  /**
    Point `j` of a complete EIM reading is metric `j` of the fixed order, tagged
    eim and with the reading's measurementType, carrying float of that metric.
   */
  lemma EimPointsShape(reading: Record)
    requires HasKeys(reading, EimKeys)
    ensures "measurementType" in reading
    ensures forall j :: 0 <= j < |EimMetrics| ==>
      && EimMetrics[j] in reading
      && EimPoints(reading)[j].measurement == EimMetrics[j]
      && EimPoints(reading)[j].tags == map["type" := Str("eim"), "measurementType" := reading["measurementType"]]
      && EimPoints(reading)[j].fields == map["ct_metric" := AsFloat(reading[EimMetrics[j]])]
  {
    assert EimKeys[1] in reading;
    assert forall j :: 0 <= j < |EimMetrics| ==> EimKeys[j + 2] == EimMetrics[j];
  }

  /**
    The points of one production reading: sixteen for an EIM reading, none for a
    reading of any other type, or the first key the reading lacks.
   */
  function ReadingPoints(reading: Record): (b: Batch)
    ensures b.Built? <==> "type" in reading && (IsEim(reading) ==> HasKeys(reading, EimKeys))
    ensures b.KeyError? ==> b.key !in reading && (b.key == "type" || b.key in EimKeys)
    ensures b.KeyError? ==>
      Some(b.key) == if "type" !in reading then Some("type") else FirstMissing(reading, EimKeys)
    ensures b.Built? && !IsEim(reading) ==> b.points == []
    ensures b.Built? && IsEim(reading) ==> b.points == EimPoints(reading)
  {
    if "type" !in reading then KeyError("type")
    else if reading["type"] != Str("eim") then Built([])
    else
      match FirstMissing(reading, EimKeys)
      case Some(k) => KeyError(k)
      case None => Built(EimPoints(reading))
  }
}
