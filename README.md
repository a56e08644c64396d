# Enphase metrics collector — one polling cycle, in Dafny

The collector polls a local Enphase solar-monitoring appliance, turns its JSON
into InfluxDB points and writes them in one batch. This project models the part
of `src/app.py` that has behaviour worth stating:

- the two HTTP clients' decision between data and `None` from the status code
  (`inverters`, `ct`);
- the two point builders (`inverter_log_point`, `eim_log_point`);
- one pass of the `main` loop body: reset the point list, append two points per
  panel, then sixteen points per EIM reading under every key of the production
  body, and call the database write only when the list is non-empty.

Layout:

- `appliance.dfy`, module `Appliance`: scalar JSON values, JSON objects
  (`Record`), `FirstMissing` (the key a run of `obj[key]` lookups raises
  KeyError on), and the status decisions `Ct` and `Inverters`, which return
  `Got(body)` or `Failed(reason)` (the source's `None`, with the reason it logs).
- `points.dfy`, module `Points`: `Point` (`measurement`, `tags`, `fields`), the
  two builders, and the mapping of one panel (`PanelPoints`) and one production
  reading (`ReadingPoints`) to points. Python's `float(v)` is kept symbolic as
  `AsFloat(v)`.
- `collector.dfy`, module `Collector`: `Collect` (what a `for` loop of appends
  builds, stopping at the first KeyError), the specification of a cycle
  (`CyclePoints`, `Cycle`), and `RunCycle`, the loop body as an imperative
  method with the source's nested loops, proved equal to `Cycle`.
- `properties.dfy`, modules `CycleProperties` and `CycleExamples`: point counts,
  order and position of every point, filtering of non-EIM readings, the
  behaviour when a fetch fails, when the batch is written, and two concrete
  cycles.

A missing key in a panel or reading raises KeyError in the source, which is not
caught anywhere in `main`, so the process stops before the write. The model
keeps that path: `Batch.KeyError(key)` and `CycleOutcome.Crashed(key)`, with the
key that is looked up first in the source's evaluation order.

Notes on the code:

- Each point's measurement is the metric's name (`lastReportWatts`, `wNow`, ...)
  and it has a single field, `panel_metric` or `ct_metric`.
- Readings of type "inverters" in the production body are not mapped to points.
- There is no database-creation step: `write_influx` writes to the configured
  database as it is (src/app.py:147-153).
- All sixteen EIM values go through `float()`.
- One complete EIM reading yields sixteen points
  (`CycleExamples.ProductionExample`).

## Model

| member | source | states |
|---|---|---|
| Appliance.FirstMissing | src/app.py:191-192 | the key reported is the first of the looked-up keys that is absent, all earlier ones present; none is reported exactly when every key is present |
| Appliance.Ct | src/app.py:50-59 | data exactly on status 200, and then the body unchanged; a raised request or any other status gives no data |
| Appliance.Inverters | src/app.py:81-111 | data exactly on status 200, and then the body unchanged; 401 gives no data reported as a wrong password, any other non-200 status no data reported as unexpected, a raised request no data |
| Appliance.InvertersDiffersFromCtOnlyOn401 | src/app.py:81-94 | the two clients yield the same data for every reply and differ only on 401, where both yield no data |
| Points.InverterLogPoint | src/app.py:115-127 | measurement is the given name; tags are exactly serialNumber and devType from the arguments; the one field panel_metric is the value |
| Points.InverterLogPointIgnoresReportDate | src/app.py:115-127 | the report date does not affect the point |
| Points.EimLogPoint | src/app.py:131-143 | measurement is the given name; tags are exactly type = "eim" and the given measurementType; the one field ct_metric is float of the value |
| Points.EimLogPointIgnoresReadingTime | src/app.py:131-143 | the reading time does not affect the point |
| Points.PanelPoints | src/app.py:190-192 | a panel yields points exactly when it has all five keys it is read by, and then exactly two; otherwise the KeyError names the first key, in lookup order, that it lacks |
| Points.PanelPointsShape | src/app.py:190-192 | a complete panel's two points are lastReportWatts then maxReportWatts, both tagged with the panel's serialNumber and devType, each carrying its own value in panel_metric |
| Points.EimPoints | src/app.py:215-230 | a complete EIM reading yields exactly sixteen points, one per metric |
| Points.EimPointsShape | src/app.py:215-230 | point j of an EIM reading has metric j of the fixed order activeCount ... varhLagToday as measurement, tags type = "eim" and the reading's measurementType, and float of metric j as ct_metric |
| Points.ReadingPoints | src/app.py:214-230 | a reading without `type` raises KeyError; a non-EIM reading yields no points; an EIM reading yields its sixteen points, or the KeyError of the first key, in lookup order, that it lacks |
| Collector.CollectOutcome | src/app.py:190-192 | a loop of appends finishes exactly when every element maps without error, otherwise it fails with the first failing element's error |
| Collector.Cycle | src/app.py:240-245 | a cycle crashes exactly when building the batch raised KeyError; otherwise it writes exactly when the batch is non-empty |
| Collector.RunCycle | src/app.py:179-245 | the imperative loop body, starting from an empty list, yields exactly the specified cycle outcome |
| CycleProperties.CtPointsFlatten | src/app.py:209-211 | the nested loops over keys and over readings give the points of one loop over all readings in order |
| CycleProperties.InverterLayout | src/app.py:189-192 | with n panels there are 2n points, and points 2i and 2i+1 are panel i's pair, in list order |
| CycleProperties.EimLayout | src/app.py:211-230 | the points of a list of readings are sixteen per EIM reading, in order, and none for other readings |
| CycleProperties.CycleLayout | src/app.py:179-230 | a cycle's batch has 2 points per panel plus 16 per EIM reading; panel pairs come first in list order, then each EIM reading's sixteen in order |
| CycleProperties.InvertersCompleteIff | src/app.py:189-192 | the panel loop finishes exactly when every fetched panel has all its keys |
| CycleProperties.CtCompletesIff | src/app.py:208-230 | the production loops finish exactly when every fetched reading has a type and, if EIM, all its keys |
| CycleProperties.CycleCompletesIff | src/app.py:189-230 | a cycle completes exactly when every fetched panel has its keys and every fetched reading has a type and, if EIM, all its keys |
| CycleProperties.CycleWritesIffData | src/app.py:240-245 | a completed cycle writes exactly when some panel or some EIM reading was fetched |
| CycleProperties.FailedInverterFetchKeepsCtPoints | src/app.py:189-237 | a failed inverter fetch does not stop the cycle: the batch is the sixteen points per EIM reading and is written iff there is one |
| CycleProperties.FailedCtFetchKeepsPanelPoints | src/app.py:189-237 | a failed production fetch leaves a batch of two points per panel, written iff there is a panel |
| CycleProperties.BothFetchesFailed | src/app.py:240-245 | with both fetches failed the batch is empty and no write happens |
| CycleExamples.ProductionExample | src/app.py:208-233 | an "inverters" reading plus one complete EIM reading give sixteen written points, the first activeCount = float(1), then wNow = float(5) |
| CycleExamples.MissingKeyStopsCycle | src/app.py:189-192 | a panel lacking maxReportWatts ends the cycle with that KeyError and nothing is written |

## Left out

- Command-line and environment parsing, defaults and logging setup (src/app.py:6-29): configuration binding, no logic to state.
- The HTTP requests themselves, Digest authentication and the 30-second timeouts: a request is an `HttpReply` input, either `Unreachable` (the call raised) or a status with an already parsed body.
- Parsing the body with `r.json()`: a body that is not valid JSON would raise in the source; the model receives parsed bodies only.
- Appliance.Ct: on a non-200 status the source's debug log calls `r.text()`, and `text` is a string attribute, so that call would raise TypeError; the model returns `None` with the logged reason, as the code evidently intends.
- Appliance.Inverters: the same `r.text()` call on a non-200, non-401 status; on 401 the debug log also parses the body with `r.json()`, which would raise on a non-JSON body. The model returns `None` in both cases.
- The database write (`write_influx`, the InfluxDB client, TLS settings): a foreign library call. The model records only whether the batch was handed to it; `main` ignores its success result.
- `time.sleep` and the endless `while True`: the model is one iteration.
- All logging calls, including the per-reading and per-panel counts.
- The semantics of `float()`: `AsFloat(v)` stands for `float(v)` without interpreting it, so float's own errors on non-numeric values are not modelled, and `AsFloat(Int(5))` and `AsFloat(Float(5.0))` are different model values.
- JSON shapes other than the appliance's: the inverter body is taken to be a list of objects and the production body an object whose values are lists of objects, and every value in a panel or reading is a scalar. Outside the model: a body of another shape, which makes the loops raise TypeError or iterate over something else; a 200 reply whose body is JSON `null`, for which `r.json()` returns `None` and `main` skips that source as if the fetch had failed (the model's `Got` always carries a body); and nested lists or objects under a panel's or reading's keys, which the source passes through unchanged to the point's tags or fields, or to `float()`, which raises TypeError on them.
- Python dict order of the production body is kept by modelling it as its entries in iteration order; duplicate JSON keys are not modelled.
- How the InfluxDB client turns tag values into strings.
- The commented-out timestamp fields of both point builders.
