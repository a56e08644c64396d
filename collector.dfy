/**
  One iteration of the collector's main loop: the batch of points built from
  the two fetch results, and whether the batch is handed to the database write.
 */
module Collector {
  import opened Appliance
  import opened Points

  /** Sequencing of two steps: the first KeyError stops everything after it. */
  function Then(a: Batch, b: Batch): (c: Batch)
    ensures c.Built? <==> a.Built? && b.Built?
    ensures c.Built? ==> c.points == a.points + b.points
    ensures c.KeyError? ==> c == if a.KeyError? then a else b
  {
    match a
    case KeyError(_) => a
    case Built(front) =>
      match b
      case KeyError(_) => b
      case Built(back) => Built(front + back)
  }

  /**
    The points appended by a `for` loop that maps each element of `xs` with `f`,
    in order; a KeyError from any element ends the loop with that error.
   */
  function Collect<T>(xs: seq<T>, f: T -> Batch): Batch
    decreases |xs|
  {
    if xs == [] then Built([])
    else Then(Collect(xs[..|xs| - 1], f), f(xs[|xs| - 1]))
  }

  /**
    The loop runs to the end exactly when every element maps without error;
    otherwise its error is that of the first element that fails.
   */
  lemma {:induction false} CollectOutcome<T>(xs: seq<T>, f: T -> Batch)
    ensures Collect(xs, f).Built? <==> forall i :: 0 <= i < |xs| ==> f(xs[i]).Built?
    ensures Collect(xs, f).KeyError? ==>
      exists i :: 0 <= i < |xs| && f(xs[i]) == Collect(xs, f) && forall j :: 0 <= j < i ==> f(xs[j]).Built?
    decreases |xs|
  {
    if xs != [] {
      var front := xs[..|xs| - 1];
      CollectOutcome(front, f);
      assert forall i :: 0 <= i < |front| ==> front[i] == xs[i];
    }
  }

  /** The inverter points of a cycle: two per panel. */
  function InverterPoints(panels: seq<Record>): Batch
  {
    Collect(panels, PanelPoints)
  }

  /** The points of the readings under one key of the production body. */
  function EntryPoints(entry: (string, seq<Record>)): Batch
  {
    Collect(entry.1, ReadingPoints)
  }

  /** The CT points of a cycle: every reading under every key, in order. */
  function CtPoints(body: CtBody): Batch
  {
    Collect(body, EntryPoints)
  }

  /** What the inverter fetch adds to a cycle: nothing when it failed. */
  function FromInverters(inverterOutput: Fetch<seq<Record>>): Batch
  {
    if inverterOutput.Got? then InverterPoints(inverterOutput.body) else Built([])
  }

  /** What the production fetch adds to a cycle: nothing when it failed. */
  function FromCt(ctOutput: Fetch<CtBody>): Batch
  {
    if ctOutput.Got? then CtPoints(ctOutput.body) else Built([])
  }

  /** The whole batch of one cycle: the inverter points, then the CT points. */
  function CyclePoints(inverterOutput: Fetch<seq<Record>>, ctOutput: Fetch<CtBody>): Batch
  {
    Then(FromInverters(inverterOutput), FromCt(ctOutput))
  }

  /**
    How a cycle ends: the KeyError escaped the main loop (the process stops), or
    the batch was built and `written` tells whether it was handed to the
    database client.
   */
  datatype CycleOutcome = Crashed(missingKey: string) | Completed(batch: seq<Point>, written: bool)

  /** The outcome of one cycle: the write is attempted exactly when the batch is non-empty. */
  function Cycle(inverterOutput: Fetch<seq<Record>>, ctOutput: Fetch<CtBody>): (o: CycleOutcome)
    ensures o.Crashed? <==> CyclePoints(inverterOutput, ctOutput).KeyError?
    ensures o.Completed? ==> o.batch == CyclePoints(inverterOutput, ctOutput).points
    ensures o.Completed? ==> (o.written <==> o.batch != [])
  {
    match CyclePoints(inverterOutput, ctOutput)
    case KeyError(k) => Crashed(k)
    case Built(ps) => Completed(ps, |ps| > 0)
  }

  /** One more turn of the loop appends the next element's points. */
  lemma CollectStep<T>(xs: seq<T>, n: nat, f: T -> Batch)
    requires n < |xs|
    ensures Collect(xs[..n + 1], f) == Then(Collect(xs[..n], f), f(xs[n]))
  {
    assert xs[..n + 1][..n] == xs[..n];
  }

  /** The loop over all of `xs` is the loop over its full prefix. */
  lemma CollectAll<T>(xs: seq<T>, f: T -> Batch)
    ensures Collect(xs[..|xs|], f) == Collect(xs, f)
  {
    assert xs[..|xs|] == xs;
  }

  /** Appending in two steps is appending once. */
  lemma AppendAssociates(a: seq<Point>, b: seq<Point>, c: seq<Point>)
    ensures a + b + c == a + (b + c)
  {
  }

  /** Once a prefix of `xs` has failed, the rest of `xs` cannot change the result. */
  lemma {:induction false} CollectStopsAtError<T>(xs: seq<T>, n: nat, f: T -> Batch)
    requires n <= |xs|
    requires Collect(xs[..n], f).KeyError?
    ensures Collect(xs, f) == Collect(xs[..n], f)
    decreases |xs| - n
  {
    if n < |xs| {
      CollectStep(xs, n, f);
      CollectStopsAtError(xs, n + 1, f);
    } else {
      assert xs[..n] == xs;
    }
  }

  /**
    One pass of the main loop's body, given what the two clients returned:
    start from an empty list, append two points per panel, then sixteen per EIM
    reading under every key, and write the list when it is non-empty.
   */
  method RunCycle(inverterOutput: Fetch<seq<Record>>, ctOutput: Fetch<CtBody>) returns (outcome: CycleOutcome)
    ensures outcome == Cycle(inverterOutput, ctOutput)
  {
    var points: seq<Point> := [];
    if inverterOutput.Got? {
      var panels := inverterOutput.body;
      for i := 0 to |panels|
        invariant Collect(panels[..i], PanelPoints) == Built(points)
      {
        var panel := PanelPoints(panels[i]);
        CollectStep(panels, i, PanelPoints);
        if panel.KeyError? {
          CollectStopsAtError(panels, i + 1, PanelPoints);
          return Crashed(panel.key);
        }
        points := points + panel.points;
      }
      CollectAll(panels, PanelPoints);
    }
    ghost var fromInverters := points;
    if ctOutput.Got? {
      var entries := ctOutput.body;
      ghost var fromCt: seq<Point> := [];
      for k := 0 to |entries|
        invariant points == fromInverters + fromCt
        invariant Collect(entries[..k], EntryPoints) == Built(fromCt)
      {
        var readings := entries[k].1;
        ghost var fromEntry: seq<Point> := [];
        CollectStep(entries, k, EntryPoints);
        for j := 0 to |readings|
          invariant points == fromInverters + fromCt + fromEntry
          invariant Collect(readings[..j], ReadingPoints) == Built(fromEntry)
        {
          var reading := ReadingPoints(readings[j]);
          CollectStep(readings, j, ReadingPoints);
          if reading.KeyError? {
            CollectStopsAtError(readings, j + 1, ReadingPoints);
            CollectStopsAtError(entries, k + 1, EntryPoints);
            return Crashed(reading.key);
          }
          AppendAssociates(fromInverters + fromCt, fromEntry, reading.points);
          points := points + reading.points;
          fromEntry := fromEntry + reading.points;
        }
        CollectAll(readings, ReadingPoints);
        AppendAssociates(fromInverters, fromCt, fromEntry);
        fromCt := fromCt + fromEntry;
      }
      CollectAll(entries, EntryPoints);
    }
    if |points| > 0 {
      outcome := Completed(points, true);
    } else {
      outcome := Completed(points, false);
    }
  }
}
