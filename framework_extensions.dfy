/** The extension methods of `FrameworkExtensions` that the test engine
    relies on: the metric and driver bookkeeping on an `ObjectSetupModel`,
    the parameter and property upserts on an `AutomationEnvironment`, the
    timeout and report-path lookups, and the merge of phase results into a
    test result. */
module FrameworkExtensions {
  import opened Wrappers
  import opened Text
  import opened Numbers
  import opened Values
  import opened Models
  import DotnetExtensions

  // ---------------------------------------------------------------------
  // Upserts into dictionaries

  /** Writing the pairs one after the other into `m` (`m[key] = value` for each). */
  function UpsertAll(m: map<string, Value>, pairs: seq<(string, Value)>): map<string, Value>
    decreases |pairs|
  {
    if pairs == [] then m
    else
      var last := pairs[|pairs| - 1];
      UpsertAll(m, pairs[..|pairs| - 1])[last.0 := last.1]
  }

  /** A key that no pair writes keeps its old entry, or stays absent. */
  lemma {:induction false} UpsertAllUnwritten(m: map<string, Value>, pairs: seq<(string, Value)>, key: string)
    requires forall i :: 0 <= i < |pairs| ==> pairs[i].0 != key
    ensures key in UpsertAll(m, pairs) <==> key in m
    ensures key in m ==> UpsertAll(m, pairs)[key] == m[key]
    decreases |pairs|
  {
    if pairs != [] {
      var n := |pairs| - 1;
      assert forall i :: 0 <= i < n ==> pairs[..n][i] == pairs[i];
      UpsertAllUnwritten(m, pairs[..n], key);
    }
  }

  /** The last write wins: a key maps to the value of the last pair that writes it. */
  lemma {:induction false} UpsertAllLastWriteWins(m: map<string, Value>, pairs: seq<(string, Value)>, i: nat)
    requires i < |pairs|
    requires forall j :: i < j < |pairs| ==> pairs[j].0 != pairs[i].0
    ensures pairs[i].0 in UpsertAll(m, pairs) && UpsertAll(m, pairs)[pairs[i].0] == pairs[i].1
    decreases |pairs|
  {
    var n := |pairs| - 1;
    if i < n {
      assert forall j :: 0 <= j < n ==> pairs[..n][j] == pairs[j];
      UpsertAllLastWriteWins(m, pairs[..n], i);
    }
  }

  /** The keys after the upserts are the old keys and the written ones. */
  lemma {:induction false} UpsertAllKeys(m: map<string, Value>, pairs: seq<(string, Value)>)
    ensures UpsertAll(m, pairs).Keys == m.Keys + set i | 0 <= i < |pairs| :: pairs[i].0
    decreases |pairs|
  {
    if pairs != [] {
      var n := |pairs| - 1;
      UpsertAllKeys(m, pairs[..n]);
      assert forall i :: 0 <= i < n ==> pairs[..n][i] == pairs[i];
      assert (set i | 0 <= i < |pairs| :: pairs[i].0)
          == (set i | 0 <= i < n :: pairs[..n][i].0) + {pairs[n].0};
    }
  }

  /** The value of `TestData["Metrics"]` after `AddMetrics(metric, value)`:
      the existing metrics dictionary, or a fresh one when the entry is
      missing or not a dictionary, with `metric` set to `value`. */
  function WithMetric(testData: map<string, Value>, metric: string, value: Value): (r: map<string, Value>)
    ensures "Metrics" in r && r["Metrics"].Dict?
    ensures metric in r["Metrics"].entries && r["Metrics"].entries[metric] == value
    ensures forall k :: k != "Metrics" ==> (k in r <==> k in testData)
    ensures forall k :: k != "Metrics" && k in testData ==> r[k] == testData[k]
    ensures "Metrics" in testData && testData["Metrics"].Dict? ==>
              forall m :: m != metric ==>
                (m in r["Metrics"].entries <==> m in testData["Metrics"].entries) &&
                (m in testData["Metrics"].entries ==> r["Metrics"].entries[m] == testData["Metrics"].entries[m])
    ensures !("Metrics" in testData && testData["Metrics"].Dict?) ==>
              r["Metrics"].entries == map[metric := value]
  {
    var metrics := if "Metrics" in testData && testData["Metrics"].Dict? then testData["Metrics"].entries else map[];
    testData["Metrics" := Dict(metrics[metric := value])]
  }

  /** `AddMetrics(metric, value)`. The body can throw only on a null
      `TestData`, which the model does not have; the source swallows it. */
  method AddMetrics(setupModel: ObjectSetupModel, metric: string, value: Value)
    modifies setupModel.environment
    ensures setupModel.environment.testData == WithMetric(old(setupModel.environment.testData), metric, value)
    ensures setupModel.environment.contextProperties == old(setupModel.environment.contextProperties)
    ensures setupModel.environment.testParameters == old(setupModel.environment.testParameters)
  {
    var environment := setupModel.environment;
    var isMetrics := "Metrics" in environment.testData;
    var isDictionary := isMetrics && environment.testData["Metrics"].Dict?;
    var metrics := if isDictionary then environment.testData["Metrics"].entries else map[];
    metrics := metrics[metric := value];
    environment.testData := environment.testData["Metrics" := Dict(metrics)];
  }

  /** Two metrics written one after the other both end up in the dictionary
      (the second write keeps the first when the names differ). */
  lemma AddMetricsKeepsEarlierMetrics(testData: map<string, Value>, m1: string, v1: Value, m2: string, v2: Value)
    requires m1 != m2
    ensures var r := WithMetric(WithMetric(testData, m1, v1), m2, v2);
            r["Metrics"].entries == map[m1 := v1, m2 := v2] + (
              if "Metrics" in testData && testData["Metrics"].Dict?
              then testData["Metrics"].entries - {m1, m2} else map[])
  {
    var r := WithMetric(WithMetric(testData, m1, v1), m2, v2);
    var expected := map[m1 := v1, m2 := v2] + (
              if "Metrics" in testData && testData["Metrics"].Dict?
              then testData["Metrics"].entries - {m1, m2} else map[]);
    assert r["Metrics"].entries.Keys == expected.Keys;
  }

  /** The drivers after `AddOrReplaceDriver(name, driver)`. */
  function WithDriver(drivers: Option<map<string, Driver>>, name: string, driver: Driver): (r: map<string, Driver>)
    ensures name in r && r[name] == driver
    ensures forall k :: k != name ==> (k in r <==> drivers.Some? && k in drivers.value)
    ensures forall k :: k != name && drivers.Some? && k in drivers.value ==> r[k] == drivers.value[k]
  {
    drivers.GetOr(map[])[name := driver]
  }

  /** `AddOrReplaceDriver(name, driver)`: a null `Drivers` becomes an empty
      dictionary first. */
  method AddOrReplaceDriver(setupModel: ObjectSetupModel, name: string, driver: Driver)
    modifies setupModel
    ensures setupModel.drivers == Some(WithDriver(old(setupModel.drivers), name, driver))
    ensures setupModel.webDriver == old(setupModel.webDriver)
    ensures setupModel.disposed == old(setupModel.disposed)
  {
    if setupModel.drivers.None? {
      setupModel.drivers := Some(map[]);
    }
    setupModel.drivers := Some(setupModel.drivers.value[name := driver]);
  }

  /** `AddTestParameter(key, value)` on an environment: a null
      `TestParameters` becomes an empty dictionary first. Returns the same
      environment, for chaining. */
  method AddTestParameter(environment: AutomationEnvironment, key: string, value: Value) returns (r: AutomationEnvironment)
    modifies environment
    ensures r == environment
    ensures environment.testParameters == Some(old(environment.testParameters).GetOr(map[])[key := value])
    ensures environment.contextProperties == old(environment.contextProperties)
    ensures environment.testData == old(environment.testData)
  {
    if environment.testParameters.None? {
      environment.testParameters := Some(map[]);
    }
    environment.testParameters := Some(environment.testParameters.value[key := value]);
    r := environment;
  }

  /** The JSON overload of `AddTestParameter`, given the already
      deserialised pairs: each pair is written in order. */
  method AddTestParameters(environment: AutomationEnvironment, pairs: seq<(string, Value)>) returns (r: AutomationEnvironment)
    modifies environment
    ensures r == environment
    ensures environment.testParameters == Some(UpsertAll(old(environment.testParameters).GetOr(map[]), pairs))
    ensures environment.contextProperties == old(environment.contextProperties)
    ensures environment.testData == old(environment.testData)
  {
    if environment.testParameters.None? {
      environment.testParameters := Some(map[]);
    }
    ghost var start := environment.testParameters.value;
    var i := 0;
    while i < |pairs|
      invariant 0 <= i <= |pairs|
      invariant environment.testParameters == Some(UpsertAll(start, pairs[..i]))
      invariant environment.contextProperties == old(environment.contextProperties)
      invariant environment.testData == old(environment.testData)
    {
      assert pairs[..i + 1][..i] == pairs[..i];
      environment.testParameters := Some(environment.testParameters.value[pairs[i].0 := pairs[i].1]);
      i := i + 1;
    }
    assert pairs[..i] == pairs;
    r := environment;
  }

  /** `AddTestProperty(key, value)` on an environment. */
  method AddTestProperty(environment: AutomationEnvironment, key: string, value: Value) returns (r: AutomationEnvironment)
    modifies environment
    ensures r == environment
    ensures environment.contextProperties == old(environment.contextProperties)[key := value]
    ensures environment.testParameters == old(environment.testParameters)
    ensures environment.testData == old(environment.testData)
  {
    environment.contextProperties := environment.contextProperties[key := value];
    r := environment;
  }

  /** The JSON overload of `AddTestProperty`, given the already deserialised pairs. */
  method AddTestProperties(environment: AutomationEnvironment, pairs: seq<(string, Value)>) returns (r: AutomationEnvironment)
    modifies environment
    ensures r == environment
    ensures environment.contextProperties == UpsertAll(old(environment.contextProperties), pairs)
    ensures environment.testParameters == old(environment.testParameters)
    ensures environment.testData == old(environment.testData)
  {
    var i := 0;
    while i < |pairs|
      invariant 0 <= i <= |pairs|
      invariant environment.contextProperties == UpsertAll(old(environment.contextProperties), pairs[..i])
      invariant environment.testParameters == old(environment.testParameters)
      invariant environment.testData == old(environment.testData)
    {
      assert pairs[..i + 1][..i] == pairs[..i];
      environment.contextProperties := environment.contextProperties[pairs[i].0 := pairs[i].1];
      i := i + 1;
    }
    assert pairs[..i] == pairs;
    r := environment;
  }

  // ---------------------------------------------------------------------
  // Drivers

  /** Whether `ClearDrivers` reaches its final `Clear()`: disposing the web
      driver and every registered driver succeeds (the drivers that throw
      from `Dispose` are `failing`), and `Drivers` is not null. */
  predicate ClearSucceeds(webDriver: Option<Driver>, drivers: Option<map<string, Driver>>, failing: set<Driver>) {
    (webDriver.None? || webDriver.value !in failing) &&
    drivers.Some? && forall k :: k in drivers.value ==> drivers.value[k] !in failing
  }

  /** The registered drivers after `ClearDrivers`: the dictionary is
      emptied when every disposal succeeds and is left as it was otherwise. */
  function DriversAfterClear(webDriver: Option<Driver>, drivers: Option<map<string, Driver>>, failing: set<Driver>): Option<map<string, Driver>> {
    if ClearSucceeds(webDriver, drivers, failing) then Some(map[]) else drivers
  }

  /** What `ClearDrivers` disposes, `disposed0` being the disposals before
      it: those are kept, the web driver is disposed first, nothing but the
      web driver and the registered drivers is disposed, and when everything
      succeeds every registered driver is disposed. */
  ghost predicate DisposedBy(webDriver: Option<Driver>, drivers: Option<map<string, Driver>>, failing: set<Driver>,
                             disposed0: seq<Driver>, disposed: seq<Driver>)
  {
    |disposed| >= |disposed0| && disposed[..|disposed0|] == disposed0 &&
    (webDriver.Some? ==> |disposed| > |disposed0| && disposed[|disposed0|] == webDriver.value) &&
    (forall i :: |disposed0| <= i < |disposed| ==>
       Some(disposed[i]) == webDriver || (drivers.Some? && disposed[i] in drivers.value.Values)) &&
    (ClearSucceeds(webDriver, drivers, failing) ==> forall k :: k in drivers.value ==> drivers.value[k] in disposed)
  }

  /** `ClearDrivers()`: disposes the web driver, then every registered driver
      in the dictionary's (unspecified) order, then empties the dictionary.
      Any exception, a failing `Dispose` or a null `Drivers`, ends the work
      silently, so the dictionary is emptied only when everything was
      disposed. The web driver reference is never reset. */
  method ClearDrivers(setupModel: ObjectSetupModel, failing: set<Driver>) returns (r: ObjectSetupModel)
    modifies setupModel
    ensures r == setupModel
    ensures setupModel.webDriver == old(setupModel.webDriver)
    ensures setupModel.drivers == DriversAfterClear(old(setupModel.webDriver), old(setupModel.drivers), failing)
    ensures DisposedBy(old(setupModel.webDriver), old(setupModel.drivers), failing,
                       old(setupModel.disposed), setupModel.disposed)
  {
    r := setupModel;
    if setupModel.webDriver.Some? {
      setupModel.disposed := setupModel.disposed + [setupModel.webDriver.value];
      if setupModel.webDriver.value in failing {
        return;
      }
    }
    if setupModel.drivers.None? {
      return;
    }
    var drivers := setupModel.drivers.value;
    var pending := drivers.Keys;
    while pending != {}
      invariant pending <= drivers.Keys
      invariant setupModel.drivers == Some(drivers)
      invariant setupModel.webDriver == old(setupModel.webDriver)
      invariant |setupModel.disposed| >= |old(setupModel.disposed)|
      invariant setupModel.disposed[..|old(setupModel.disposed)|] == old(setupModel.disposed)
      invariant old(setupModel.webDriver).Some? ==>
                  |setupModel.disposed| > |old(setupModel.disposed)| &&
                  setupModel.disposed[|old(setupModel.disposed)|] == old(setupModel.webDriver).value
      invariant forall i :: |old(setupModel.disposed)| <= i < |setupModel.disposed| ==>
                  Some(setupModel.disposed[i]) == old(setupModel.webDriver) || setupModel.disposed[i] in drivers.Values
      invariant forall k :: k in drivers.Keys - pending ==> drivers[k] in setupModel.disposed && drivers[k] !in failing
      decreases pending
    {
      var k :| k in pending;
      setupModel.disposed := setupModel.disposed + [drivers[k]];
      if drivers[k] in failing {
        return;
      }
      pending := pending - {k};
    }
    setupModel.drivers := Some(map[]);
  }

  /** `SwitchDriver(driverKey)`: makes the driver registered under the key
      the web driver, and does nothing for an unknown key. `TryGetValue` on a
      null `Drivers` throws `NullReferenceException`. */
  method SwitchDriver(setupModel: ObjectSetupModel, driverKey: string) returns (r: Result<ObjectSetupModel, Exceptions.Exception>)
    modifies setupModel
    ensures setupModel.drivers == old(setupModel.drivers)
    ensures setupModel.disposed == old(setupModel.disposed)
    ensures old(setupModel.drivers).None? ==>
              r == Failure(Exceptions.Raise(Exceptions.NullReference)) && setupModel.webDriver == old(setupModel.webDriver)
    ensures old(setupModel.drivers).Some? ==> r == Success(setupModel)
    ensures old(setupModel.drivers).Some? && driverKey in old(setupModel.drivers).value ==>
              setupModel.webDriver == Some(old(setupModel.drivers).value[driverKey])
    ensures old(setupModel.drivers).Some? && driverKey !in old(setupModel.drivers).value ==>
              setupModel.webDriver == old(setupModel.webDriver)
  {
    if setupModel.drivers.None? {
      return Failure(Exceptions.Raise(Exceptions.NullReference));
    }
    var isDriver := driverKey in setupModel.drivers.value;
    if isDriver {
      setupModel.webDriver := Some(setupModel.drivers.value[driverKey]);
    }
    r := Success(setupModel);
  }

  // ---------------------------------------------------------------------
  // Lookups

  /** The search and load timeouts, in milliseconds. */
  datatype Timeouts = Timeouts(searchTimeout: int, loadTimeout: int)

  /** `int.TryParse(text, out n) ? n : fallback`. */
  function TryParseOr(text: string, fallback: int): int {
    match ParseInt32(text)
    case Parsed(n) => n
    case _ => fallback
  }

  /** The text of a timeout setting: the stored string, or `defaultText` when
      the key is missing or holds something other than a string. */
  function SettingText(properties: map<string, Value>, key: string, defaultText: string): string {
    DotnetExtensions.GetOr(properties, key, Str(defaultText), StringType).s
  }

  /** `GetTimeouts()`: "WebDriver.SearchTimeout" (default "10000") and
      "WebDriver.LoadTimeout" (default "30000") from the test context's
      properties, each kept when it parses as a 32-bit integer and replaced
      by 10000 or 30000 otherwise. */
  function GetTimeouts(setupModel: ObjectSetupModel): (r: Timeouts)
    reads setupModel.environment.testContext
    ensures InInt32(r.searchTimeout) && InInt32(r.loadTimeout)
    ensures ParseInt32(SettingText(setupModel.environment.testContext.properties, "WebDriver.SearchTimeout", "10000")).Parsed? ==>
              r.searchTimeout == ParseInt32(SettingText(setupModel.environment.testContext.properties, "WebDriver.SearchTimeout", "10000")).value
    ensures !ParseInt32(SettingText(setupModel.environment.testContext.properties, "WebDriver.SearchTimeout", "10000")).Parsed? ==>
              r.searchTimeout == 10000
    ensures ParseInt32(SettingText(setupModel.environment.testContext.properties, "WebDriver.LoadTimeout", "30000")).Parsed? ==>
              r.loadTimeout == ParseInt32(SettingText(setupModel.environment.testContext.properties, "WebDriver.LoadTimeout", "30000")).value
    ensures !ParseInt32(SettingText(setupModel.environment.testContext.properties, "WebDriver.LoadTimeout", "30000")).Parsed? ==>
              r.loadTimeout == 30000
  {
    var properties := setupModel.environment.testContext.properties;
    var searchText := SettingText(properties, "WebDriver.SearchTimeout", "10000");
    var loadText := SettingText(properties, "WebDriver.LoadTimeout", "30000");
    ParsedIsInRange(searchText);
    ParsedIsInRange(loadText);
    Timeouts(TryParseOr(searchText, 10000), TryParseOr(loadText, 30000))
  }

  /** A setting holding the decimal text of a 32-bit integer gives that integer. */
  lemma GetTimeoutsReadsSettings(setupModel: ObjectSetupModel, search: int, load: int)
    requires InInt32(search) && InInt32(load)
    requires "WebDriver.SearchTimeout" in setupModel.environment.testContext.properties
    requires setupModel.environment.testContext.properties["WebDriver.SearchTimeout"] == Str(FormatInt(search))
    requires "WebDriver.LoadTimeout" in setupModel.environment.testContext.properties
    requires setupModel.environment.testContext.properties["WebDriver.LoadTimeout"] == Str(FormatInt(load))
    ensures GetTimeouts(setupModel) == Timeouts(search, load)
  {
    var properties := setupModel.environment.testContext.properties;
    assert SettingText(properties, "WebDriver.SearchTimeout", "10000") == FormatInt(search);
    assert SettingText(properties, "WebDriver.LoadTimeout", "30000") == FormatInt(load);
    ParseFormatRoundTrip(search);
    ParseFormatRoundTrip(load);
  }

  /** A missing setting, or one that does not hold a string, gives the
      default timeouts of 10000 and 30000 milliseconds. */
  lemma GetTimeoutsDefaults(setupModel: ObjectSetupModel)
    requires "WebDriver.SearchTimeout" !in setupModel.environment.testContext.properties ||
             !setupModel.environment.testContext.properties["WebDriver.SearchTimeout"].Str?
    requires "WebDriver.LoadTimeout" !in setupModel.environment.testContext.properties ||
             !setupModel.environment.testContext.properties["WebDriver.LoadTimeout"].Str?
    ensures GetTimeouts(setupModel) == Timeouts(10000, 30000)
  {
    var properties := setupModel.environment.testContext.properties;
    assert SettingText(properties, "WebDriver.SearchTimeout", "10000") == "10000";
    assert SettingText(properties, "WebDriver.LoadTimeout", "30000") == "30000";
    ParseDefaultTimeouts();
  }

  /** `$"{context.Properties["RunId"]}"`: the text of the run id, empty when the
      property is missing (the indexer of a non-generic dictionary yields null). */
  function RunIdText(properties: map<string, Value>): string {
    if "RunId" in properties then ToText(properties["RunId"]) else ""
  }

  /** The directory part of the report path: "ExtentReport.ReportPath" when
      it holds a string, the test results directory when it does not or
      when it is ".". */
  function ReportDirectory(context: TestContext): (r: string)
    reads context
    ensures r == context.testResultsDirectory ||
            ("ExtentReport.ReportPath" in context.properties && context.properties["ExtentReport.ReportPath"] == Str(r))
    ensures r == "." ==> context.testResultsDirectory == "."
    ensures "ExtentReport.ReportPath" in context.properties && context.properties["ExtentReport.ReportPath"].Str? &&
            context.properties["ExtentReport.ReportPath"].s != "." ==>
              r == context.properties["ExtentReport.ReportPath"].s
  {
    var reportPath := DotnetExtensions.GetOr(context.properties, "ExtentReport.ReportPath", Str(context.testResultsDirectory), StringType).s;
    if reportPath == "." then context.testResultsDirectory else reportPath
  }

  /** `GetReportPath()`: the report directory combined with the run id. */
  function GetReportPath(context: TestContext): (r: string)
    reads context
    ensures EndsWith(r, RunIdText(context.properties))
    ensures r == Combine(ReportDirectory(context), RunIdText(context.properties))
  {
    Combine(ReportDirectory(context), RunIdText(context.properties))
  }

  /** A report path of "." (or none at all) puts the report under the test
      results directory, in a segment named by the run id. */
  lemma ReportPathDefaultsToResultsDirectory(context: TestContext)
    requires "ExtentReport.ReportPath" !in context.properties ||
             context.properties["ExtentReport.ReportPath"] == Str(".")
    requires context.testResultsDirectory != "" && RunIdText(context.properties) != ""
    requires !IsRooted(RunIdText(context.properties))
    ensures StartsWith(GetReportPath(context), context.testResultsDirectory)
    ensures EndsWith(GetReportPath(context), RunIdText(context.properties))
  {
  }

  // ---------------------------------------------------------------------
  // Phase results

  /** The exceptions of a result after a phase merge: the existing ones (none
      for a null list) followed by the phase's exception, if any. */
  function MergeExceptions(existing: Option<seq<PhaseException>>, phaseException: Option<PhaseException>): (r: seq<PhaseException>)
    ensures |r| == |existing.GetOr([])| + (if phaseException.Some? then 1 else 0)
    ensures r[..|existing.GetOr([])|] == existing.GetOr([])
    ensures phaseException.Some? ==> r[|r| - 1] == phaseException.value
  {
    existing.GetOr([]) + (if phaseException.Some? then [phaseException.value] else [])
  }

  /** `UpdateSetupResults(setupResult)`: for a phase named "Setup" (any case),
      takes over its start, end and duration and appends its exception;
      any other phase leaves the result as it is. */
  function UpdateSetupResults(testResult: TestResult, setupResult: PhaseResult): (r: TestResult)
    ensures !EqualsIgnoreCase(setupResult.phaseName, "Setup") ==> r == testResult
    ensures EqualsIgnoreCase(setupResult.phaseName, "Setup") ==>
              r.setupStartTime == setupResult.startTime &&
              r.setupEndTime == setupResult.endTime &&
              r.setupDuration == setupResult.duration &&
              r.exceptions == Some(MergeExceptions(testResult.exceptions, setupResult.phaseException))
    ensures r.(setupStartTime := testResult.setupStartTime, setupEndTime := testResult.setupEndTime,
               setupDuration := testResult.setupDuration, exceptions := testResult.exceptions) == testResult
  {
    if !EqualsIgnoreCase(setupResult.phaseName, "Setup") then testResult
    else testResult.(
      setupStartTime := setupResult.startTime,
      setupEndTime := setupResult.endTime,
      setupDuration := setupResult.duration,
      exceptions := Some(MergeExceptions(testResult.exceptions, setupResult.phaseException)))
  }

  /** `UpdateTeardownResults(teardownResult)`, the same for "Teardown" and the teardown fields. */
  function UpdateTeardownResults(testResult: TestResult, teardownResult: PhaseResult): (r: TestResult)
    ensures !EqualsIgnoreCase(teardownResult.phaseName, "Teardown") ==> r == testResult
    ensures EqualsIgnoreCase(teardownResult.phaseName, "Teardown") ==>
              r.teardownStartTime == teardownResult.startTime &&
              r.teardownEndTime == teardownResult.endTime &&
              r.teardownDuration == teardownResult.duration &&
              r.exceptions == Some(MergeExceptions(testResult.exceptions, teardownResult.phaseException))
    ensures r.(teardownStartTime := testResult.teardownStartTime, teardownEndTime := testResult.teardownEndTime,
               teardownDuration := testResult.teardownDuration, exceptions := testResult.exceptions) == testResult
  {
    if !EqualsIgnoreCase(teardownResult.phaseName, "Teardown") then testResult
    else testResult.(
      teardownStartTime := teardownResult.startTime,
      teardownEndTime := teardownResult.endTime,
      teardownDuration := teardownResult.duration,
      exceptions := Some(MergeExceptions(testResult.exceptions, teardownResult.phaseException)))
  }

  /** The phase name is compared ignoring case: "SETUP" and "setup" are merged too. */
  lemma PhaseNameIgnoresCase(testResult: TestResult, setupResult: PhaseResult)
    requires Upper(setupResult.phaseName) == "SETUP"
    ensures UpdateSetupResults(testResult, setupResult).setupStartTime == setupResult.startTime
  {
    EqualsIgnoreCaseIffSameUpper(setupResult.phaseName, "Setup");
    assert Upper("Setup") == "SETUP";
  }

  /** A setup merge never touches the teardown fields and a teardown merge
      never touches the setup fields, so after one of each the result holds
      both phases' times and both exceptions in the order merged. */
  lemma SetupThenTeardown(testResult: TestResult, setupResult: PhaseResult, teardownResult: PhaseResult)
    requires EqualsIgnoreCase(setupResult.phaseName, "Setup")
    requires EqualsIgnoreCase(teardownResult.phaseName, "Teardown")
    ensures var r := UpdateTeardownResults(UpdateSetupResults(testResult, setupResult), teardownResult);
            r.setupStartTime == setupResult.startTime && r.teardownStartTime == teardownResult.startTime &&
            r.setupDuration == setupResult.duration && r.teardownDuration == teardownResult.duration &&
            r.exceptions == Some(testResult.exceptions.GetOr([]) +
                                 (if setupResult.phaseException.Some? then [setupResult.phaseException.value] else []) +
                                 (if teardownResult.phaseException.Some? then [teardownResult.phaseException.value] else []))
  {
  }
}
