/**
 * collectMetrics: the gauges one run exports. Eight are always exported
 * (duration, timestamp, drift and the plan tally), four more when an apply
 * log path is configured (the counts the apply actually reported), and the
 * run's result last. Gauges live in a map that makeGauge fills one gauge at
 * a time.
 */
module Metrics {
  import opened Wrappers
  import opened GoStrings
  import opened Transcripts
  import opened PlanTally
  import opened ApplyLog
  import opened RefreshLog
  import opened Outcome

  /**
   * The decoded plan: its timestamp as Unix seconds when the plan carries a
   * non-empty timestamp that parses as RFC 3339, and its resource changes.
   */
  datatype Plan = Plan(timestamp: Option<int>, resourceChanges: seq<ResourceChange>)

  /** The zero value the plan variable starts as. */
  const EmptyPlan := Plan(None, [])

  /** The gauges collectMetrics can export; Name gives each one's metric name. */
  datatype Gauge =
    | Duration | Timestamp | Drift
    | ResourcesTotal | ToAdd | ToChange | ToDestroy | ToImport
    | Added | Changed | Destroyed | Imported
    | Result

  function Name(g: Gauge): (name: string)
    ensures |name| > 10 && name[..10] == "terraform_"
  {
    match g
    case Duration => "terraform_execution_duration_seconds"
    case Timestamp => "terraform_timestamp"
    case Drift => "terraform_drift_detected"
    case ResourcesTotal => "terraform_resources_total"
    case ToAdd => "terraform_to_add"
    case ToChange => "terraform_to_change"
    case ToDestroy => "terraform_to_destroy"
    case ToImport => "terraform_to_import"
    case Added => "terraform_added"
    case Changed => "terraform_changed"
    case Destroyed => "terraform_destroyed"
    case Imported => "terraform_imported"
    case Result => "terraform_result"
  }

  /**
   * No two gauges share a metric name, so a map keyed by gauge holds what a
   * map keyed by name holds, and no makeGauge call replaces another's gauge.
   */
  lemma NamesDistinct(a: Gauge, b: Gauge)
    requires a != b
    ensures Name(a) != Name(b)
  {
  }

  /** The gauges in the order collectMetrics makes them. */
  const CommonGauges := [Duration, Timestamp, Drift, ResourcesTotal, ToAdd, ToChange, ToDestroy, ToImport]
  const ActualGauges := [Added, Changed, Destroyed, Imported]

  predicate NoDuplicates(gs: seq<Gauge>)
  {
    forall i, j :: 0 <= i < j < |gs| ==> gs[i] != gs[j]
  }

  /** The gauges in the order they are made, with or without the apply gauges. */
  function MadeOrder(withActual: bool): (gs: seq<Gauge>)
    ensures NoDuplicates(gs)
    ensures |gs| == if withActual then 13 else 9
    ensures gs[..8] == CommonGauges && gs[|gs| - 1] == Result
  {
    if withActual then CommonGauges + ActualGauges + [Result] else CommonGauges + [Result]
  }

  /** The gauge map of collectMetrics and makeGauge, a closure over that map. */
  class Registry {
    var gauges: map<Gauge, int>
    /** The gauges in the order makeGauge was called with them. */
    ghost var made: seq<Gauge>

    constructor()
      ensures gauges == map[] && made == []
    {
      gauges := map[];
      made := [];
    }

    /** makeGauge: sets the gauge to `value`, replacing any gauge of that name. */
    method MakeGauge(g: Gauge, value: int)
      modifies this
      ensures gauges == old(gauges)[g := value]
      ensures made == old(made) + [g]
    {
      gauges := gauges[g := value];
      made := made + [g];
    }
  }

  /** The plan collectMetrics works with: the decoded plan only when the plan file could be read. */
  function PlanUsed(fs: FileSystem, planPath: string, decoded: Plan): (plan: Plan)
    ensures Read(fs, planPath).None? ==> plan == EmptyPlan
    ensures Read(fs, planPath).Some? ==> plan == decoded
  {
    if Read(fs, planPath).Some? then decoded else EmptyPlan
  }

  /** The run's timestamp: the plan's when it has one, the current time otherwise. */
  function RunTimestamp(plan: Plan, now: int): (t: int)
    ensures plan.timestamp.None? ==> t == now
    ensures plan.timestamp.Some? ==> t == plan.timestamp.value
  {
    match plan.timestamp
    case None => now
    case Some(parsed) => parsed
  }

  /** The log the result is judged on: the apply log when one is configured, else the plan file. */
  function ResultLogPath(planPath: string, applyLogPath: string): (path: string)
    ensures applyLogPath != "" ==> path == applyLogPath
    ensures applyLogPath == "" ==> path == planPath
  {
    if applyLogPath != "" then applyLogPath else planPath
  }

  /** The terraform_result gauge: 1 for a readable log without error lines, 0 otherwise. */
  function ResultValue(fs: FileSystem, logPath: string): (v: int)
    ensures v == 0 || v == 1
    ensures v == 1 <==> (Read(fs, logPath).Some? && NoErrorLine(Read(fs, logPath).value))
  {
    match Read(fs, logPath)
    case None => 0
    case Some(text) => if NoErrorLine(text) then 1 else 0
  }

  /**
   * The makeGauge calls of collectMetrics: the eight common gauges, the four
   * apply gauges when there are apply counts, and the result last.
   */
  function GaugeMap(duration: int, timestamp: int, drift: int, t: Tally, actual: Option<Counts>, result: int)
    : (m: map<Gauge, int>)
    ensures Duration in m && Timestamp in m && Drift in m && Result in m
    ensures ResourcesTotal in m && ToAdd in m && ToChange in m && ToDestroy in m && ToImport in m
    ensures Added in m <==> actual.Some?
    ensures Changed in m <==> actual.Some?
    ensures Destroyed in m <==> actual.Some?
    ensures Imported in m <==> actual.Some?
  {
    WithActual(CommonMap(duration, timestamp, drift, t), actual)[Result := result]
  }

  /** The eight gauges every run exports. */
  function CommonMap(duration: int, timestamp: int, drift: int, t: Tally): map<Gauge, int>
  {
    map[Duration := duration, Timestamp := timestamp, Drift := drift,
        ResourcesTotal := t.total, ToAdd := t.toAdd, ToChange := t.toChange,
        ToDestroy := t.toDestroy, ToImport := t.toImport]
  }

  /** The apply gauges, added when there are apply counts. */
  function WithActual(m: map<Gauge, int>, actual: Option<Counts>): map<Gauge, int>
  {
    match actual
    case None => m
    case Some(c) => m[Added := c.added][Changed := c.changed][Destroyed := c.destroyed][Imported := c.imported]
  }

  /** Each gauge of the map holds the value it was made with: no call overwrote another's gauge. */
  lemma RunGaugeValues(duration: int, timestamp: int, drift: int, t: Tally, actual: Option<Counts>, result: int)
    ensures var m := GaugeMap(duration, timestamp, drift, t, actual, result);
            m[Duration] == duration && m[Timestamp] == timestamp && m[Drift] == drift && m[Result] == result
  {
  }

  lemma TallyGaugeValues(duration: int, timestamp: int, drift: int, t: Tally, actual: Option<Counts>, result: int)
    ensures var m := GaugeMap(duration, timestamp, drift, t, actual, result);
            && m[ResourcesTotal] == t.total && m[ToAdd] == t.toAdd && m[ToChange] == t.toChange
            && m[ToDestroy] == t.toDestroy && m[ToImport] == t.toImport
  {
  }

  lemma ActualGaugeValues(duration: int, timestamp: int, drift: int, t: Tally, c: Counts, result: int)
    ensures var m := GaugeMap(duration, timestamp, drift, t, Some(c), result);
            && m[Added] == c.added && m[Changed] == c.changed
            && m[Destroyed] == c.destroyed && m[Imported] == c.imported
  {
  }

  const CommonSet := {Duration, Timestamp, Drift, ResourcesTotal, ToAdd, ToChange, ToDestroy, ToImport, Result}
  const ActualSet := {Added, Changed, Destroyed, Imported}

  lemma CommonSetSize()
    ensures |CommonSet| == 9
  {
  }

  lemma GaugeSetSizes()
    ensures |CommonSet| == 9 && |CommonSet + ActualSet| == 13
  {
    CommonSetSize();
    assert |ActualSet| == 4;
    assert CommonSet * ActualSet == {};
  }

  /** The map holds exactly the gauges made: thirteen with apply counts, nine without. */
  lemma GaugeCount(duration: int, timestamp: int, drift: int, t: Tally, actual: Option<Counts>, result: int)
    ensures |GaugeMap(duration, timestamp, drift, t, actual, result)| == if actual.Some? then 13 else 9
  {
    var m := GaugeMap(duration, timestamp, drift, t, actual, result);
    GaugeSetSizes();
    var expected := if actual.Some? then CommonSet + ActualSet else CommonSet;
    forall g
      ensures g in m.Keys <==> g in expected
    {
    }
    assert m.Keys == expected;
  }

  /** The apply counts collectMetrics exports: those of the apply log, when its path is set. */
  function ActualCounts(fs: FileSystem, applyLogPath: string): (actual: Option<Counts>)
    ensures actual.Some? <==> applyLogPath != ""
    ensures actual.Some? ==> actual.value == LogStats(Read(fs, applyLogPath))
  {
    if applyLogPath != "" then Some(LogStats(Read(fs, applyLogPath))) else None
  }

  /** The gauges one run exports. */
  function Gauges(fs: FileSystem, planPath: string, applyLogPath: string, refreshLogPath: string,
                  decoded: Plan, now: int, duration: int): (m: map<Gauge, int>)
    ensures Duration in m && Timestamp in m && Drift in m && Result in m
    ensures ResourcesTotal in m && ToAdd in m && ToChange in m && ToDestroy in m && ToImport in m
    ensures Added in m <==> applyLogPath != ""
    ensures Changed in m <==> applyLogPath != ""
    ensures Destroyed in m <==> applyLogPath != ""
    ensures Imported in m <==> applyLogPath != ""
  {
    var plan := PlanUsed(fs, planPath, decoded);
    GaugeMap(duration, RunTimestamp(plan, now), DetectDrift(fs, refreshLogPath),
             TallyOf(plan.resourceChanges), ActualCounts(fs, applyLogPath),
             ResultValue(fs, ResultLogPath(planPath, applyLogPath)))
  }

  /** Without a readable plan file the tally gauges are zero and the timestamp is the current time. */
  lemma PlanIgnoredWhenUnreadable(fs: FileSystem, planPath: string, applyLogPath: string, refreshLogPath: string,
                                  decoded: Plan, now: int, duration: int)
    requires Read(fs, planPath).None?
    ensures var m := Gauges(fs, planPath, applyLogPath, refreshLogPath, decoded, now, duration);
            && m[ResourcesTotal] == 0 && m[ToAdd] == 0 && m[ToChange] == 0
            && m[ToDestroy] == 0 && m[ToImport] == 0 && m[Timestamp] == now
  {
    var t := TallyOf(EmptyPlan.resourceChanges);
    var drift := DetectDrift(fs, refreshLogPath);
    var actual := ActualCounts(fs, applyLogPath);
    var result := ResultValue(fs, ResultLogPath(planPath, applyLogPath));
    RunGaugeValues(duration, now, drift, t, actual, result);
    TallyGaugeValues(duration, now, drift, t, actual, result);
  }

  /**
   * With a readable plan file, the total gauge counts the planned resource
   * changes and each bucket gauge the changes whose actions name it.
   */
  lemma PlanTallyGauges(fs: FileSystem, planPath: string, applyLogPath: string, refreshLogPath: string,
                        decoded: Plan, now: int, duration: int)
    requires Read(fs, planPath).Some?
    ensures var m := Gauges(fs, planPath, applyLogPath, refreshLogPath, decoded, now, duration);
            var changes := decoded.resourceChanges;
            && m[ResourcesTotal] == |changes|
            && m[ToAdd] == |PositionsWith(changes, Create)|
            && m[ToChange] == |PositionsWith(changes, Update)|
            && m[ToDestroy] == |PositionsWith(changes, Delete)|
            && m[ToImport] == |PositionsWith(changes, Import)|
  {
    var changes := decoded.resourceChanges;
    var t := TallyOf(changes);
    TallyGaugeValues(duration, RunTimestamp(decoded, now), DetectDrift(fs, refreshLogPath), t,
                     ActualCounts(fs, applyLogPath), ResultValue(fs, ResultLogPath(planPath, applyLogPath)));
    CountWithIsCardinality(changes, Create);
    CountWithIsCardinality(changes, Update);
    CountWithIsCardinality(changes, Delete);
    CountWithIsCardinality(changes, Import);
  }

  /** The drift gauge is 1 exactly when the refresh log shows a refresh without the no-changes confirmation. */
  lemma DriftGauge(fs: FileSystem, planPath: string, applyLogPath: string, refreshLogPath: string,
                   decoded: Plan, now: int, duration: int)
    ensures var m := Gauges(fs, planPath, applyLogPath, refreshLogPath, decoded, now, duration);
            m[Drift] == 1 <==>
              (Read(fs, refreshLogPath).Some? && !Contains(Read(fs, refreshLogPath).value, NoChanges)
               && Contains(Read(fs, refreshLogPath).value, Refreshing))
  {
    var plan := PlanUsed(fs, planPath, decoded);
    RunGaugeValues(duration, RunTimestamp(plan, now), DetectDrift(fs, refreshLogPath), TallyOf(plan.resourceChanges),
                   ActualCounts(fs, applyLogPath), ResultValue(fs, ResultLogPath(planPath, applyLogPath)));
  }

  /**
   * The result gauge is 1 exactly when the result log (the apply log when
   * its path is set, the plan file otherwise) can be read and neither error
   * marker occurs anywhere in it.
   */
  lemma ResultGauge(fs: FileSystem, planPath: string, applyLogPath: string, refreshLogPath: string,
                    decoded: Plan, now: int, duration: int)
    ensures var m := Gauges(fs, planPath, applyLogPath, refreshLogPath, decoded, now, duration);
            var content := Read(fs, if applyLogPath != "" then applyLogPath else planPath);
            m[Result] == 1 <==>
              (content.Some? && !Contains(content.value, ErrorMarker) && !Contains(content.value, BoxErrorMarker))
  {
    var plan := PlanUsed(fs, planPath, decoded);
    var path := ResultLogPath(planPath, applyLogPath);
    RunGaugeValues(duration, RunTimestamp(plan, now), DetectDrift(fs, refreshLogPath), TallyOf(plan.resourceChanges),
                   ActualCounts(fs, applyLogPath), ResultValue(fs, path));
    if Read(fs, path).Some? {
      NoErrorLineIffNoMarker(Read(fs, path).value);
    }
  }

  /** With neither an apply log nor a plan path configured, the run is reported as failed. */
  lemma NoLogMeansFailure(fs: FileSystem, refreshLogPath: string, decoded: Plan, now: int, duration: int)
    ensures Gauges(fs, "", "", refreshLogPath, decoded, now, duration)[Result] == 0
  {
    ResultGauge(fs, "", "", refreshLogPath, decoded, now, duration);
  }

  /**
   * When the apply log is terraform's summary line, the added and changed
   * gauges carry its counts while the destroyed and imported gauges stay 0.
   */
  lemma SummaryLineGauges(fs: FileSystem, planPath: string, applyLogPath: string, refreshLogPath: string,
                          decoded: Plan, now: int, duration: int, a: nat, c: nat, d: nat)
    requires applyLogPath != "" && Read(fs, applyLogPath) == Some(SummaryLine(a, c, d))
    requires a <= MaxInt64 && c <= MaxInt64
    ensures var m := Gauges(fs, planPath, applyLogPath, refreshLogPath, decoded, now, duration);
            m[Added] == a && m[Changed] == c && m[Destroyed] == 0 && m[Imported] == 0
  {
    var plan := PlanUsed(fs, planPath, decoded);
    var counts := LogStats(Read(fs, applyLogPath));
    SummaryLineDropsDestroyed(a, c, d);
    ActualGaugeValues(duration, RunTimestamp(plan, now), DetectDrift(fs, refreshLogPath), TallyOf(plan.resourceChanges),
                      counts, ResultValue(fs, ResultLogPath(planPath, applyLogPath)));
  }

  /** The makeGauge calls for the eight common gauges. */
  method MakeCommonGauges(r: Registry, duration: int, timestamp: int, drift: int, t: Tally)
    requires r.gauges == map[] && r.made == []
    modifies r
    ensures r.gauges == CommonMap(duration, timestamp, drift, t)
    ensures r.made == CommonGauges
  {
    r.MakeGauge(Duration, duration);
    r.MakeGauge(Timestamp, timestamp);
    r.MakeGauge(Drift, drift);
    r.MakeGauge(ResourcesTotal, t.total);
    r.MakeGauge(ToAdd, t.toAdd);
    r.MakeGauge(ToChange, t.toChange);
    r.MakeGauge(ToDestroy, t.toDestroy);
    r.MakeGauge(ToImport, t.toImport);
  }

  /** The makeGauge calls for the four apply gauges. */
  method MakeActualGauges(r: Registry, c: Counts)
    modifies r
    ensures r.gauges == WithActual(old(r.gauges), Some(c))
    ensures r.made == old(r.made) + ActualGauges
  {
    r.MakeGauge(Added, c.added);
    r.MakeGauge(Changed, c.changed);
    r.MakeGauge(Destroyed, c.destroyed);
    r.MakeGauge(Imported, c.imported);
  }

  /**
   * The makeGauge calls of collectMetrics, in order: the eight common
   * gauges, the four apply gauges when there are apply counts, the result.
   */
  method ExportGauges(duration: int, timestamp: int, drift: int, t: Tally, actual: Option<Counts>, ok: bool)
    returns (r: Registry)
    ensures fresh(r)
    ensures r.gauges == GaugeMap(duration, timestamp, drift, t, actual, if ok then 1 else 0)
    ensures r.made == MadeOrder(actual.Some?)
  {
    r := new Registry();
    MakeCommonGauges(r, duration, timestamp, drift, t);
    if actual.Some? {
      MakeActualGauges(r, actual.value);
    }
    ghost var before := r.made;
    if ok {
      r.MakeGauge(Result, 1);
    } else {
      r.MakeGauge(Result, 0);
    }
    assert r.made == before + [Result];
  }

  /**
   * collectMetrics up to the push: reads the refresh log, the plan, the
   * apply log and the result log, and exports the gauges.
   */
  method CollectMetrics(fs: FileSystem, planPath: string, applyLogPath: string, refreshLogPath: string,
                        decoded: Plan, now: int, duration: int) returns (r: Registry)
    ensures fresh(r)
    ensures r.gauges == Gauges(fs, planPath, applyLogPath, refreshLogPath, decoded, now, duration)
    ensures r.made == MadeOrder(applyLogPath != "")
  {
    var drift := DetectDrift(fs, refreshLogPath);
    var plan := EmptyPlan;
    if Read(fs, planPath).Some? {
      plan := decoded;
    }
    var t := TallyChanges(plan.resourceChanges);
    var timestamp := now;
    if plan.timestamp.Some? {
      timestamp := plan.timestamp.value;
    }
    var actual: Option<Counts> := None;
    if applyLogPath != "" {
      var added, changed, destroyed, imported := ParseLogStats(fs, applyLogPath);
      actual := Some(Counts(added, changed, destroyed, imported));
    }
    var resultLogPath := planPath;
    if applyLogPath != "" {
      resultLogPath := applyLogPath;
    }
    var ok := IsTerraformRunSuccessful(fs, resultLogPath);
    assert (if ok then 1 else 0) == ResultValue(fs, ResultLogPath(planPath, applyLogPath));
    r := ExportGauges(duration, timestamp, drift, t, actual, ok);
  }
}
