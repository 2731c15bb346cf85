/** The result records of a test run (`TestPhaseExceptionModel`,
    `TestPhaseResultModel`, `TestResultModel`) and the three mutable objects
    a run shares by reference: the MSTest `TestContext`, the
    `AutomationEnvironment` and the `ObjectSetupModel`. Times and durations
    are ticks of an abstract clock; `DateTime` and `TimeSpan` default to 0. */
module Models {
  import opened Wrappers
  import opened Exceptions
  import opened Values

  /** A screenshot token, captured from the given driver. */
  datatype Capture = Capture(source: Driver)

  /** `TestPhaseExceptionModel`. `context` and `screenshot` carry `[JsonIgnore]`. */
  datatype PhaseException = PhaseException(
    attemptReference: int,
    context: Option<map<string, Value>>,
    displayName: Option<string>,
    exception: Option<Exception>,
    reasonPhrase: string,
    screenshot: Option<Capture>)

  /** `new TestPhaseExceptionModel(exception)`: only `Exception` and
      `ReasonPhrase` are initialised, the latter to the message of the base
      exception, or to the empty string for a null exception. */
  function NewPhaseException(exception: Option<Exception>): (p: PhaseException)
    ensures p.exception == exception
    ensures exception.None? ==> p.reasonPhrase == ""
    ensures exception.Some? ==> p.reasonPhrase == BaseException(exception.value).message
    ensures p.attemptReference == 0 && p.context.None? && p.displayName.None? && p.screenshot.None?
  {
    PhaseException(
      attemptReference := 0,
      context := None,
      displayName := None,
      exception := exception,
      reasonPhrase := if exception.None? then "" else BaseException(exception.value).message,
      screenshot := None)
  }

  /** The parameterless constructor `new TestPhaseExceptionModel()`. */
  function EmptyPhaseException(): (p: PhaseException)
    ensures p.exception.None? && p.reasonPhrase == ""
  {
    NewPhaseException(None)
  }

  /** The reason of a wrapped exception is the message of the innermost one,
      however deep the wrapping. */
  lemma ReasonOfWrapped(kind: ExceptionKind, message: string, inner: Exception)
    ensures NewPhaseException(Some(Wrap(kind, message, inner))).reasonPhrase
         == NewPhaseException(Some(inner)).reasonPhrase
  {
  }

  /** `ReasonPhrase` is an initialiser: assigning `Exception` afterwards keeps
      the phrase computed from the constructor's argument. */
  lemma ReasonPhraseIsFixedAtConstruction(first: Option<Exception>, later: Option<Exception>)
    ensures NewPhaseException(first).(exception := later).reasonPhrase == NewPhaseException(first).reasonPhrase
    ensures NewPhaseException(first).(exception := later).exception == later
  {
  }

  /** The properties of a phase exception that reach its serialised form. */
  datatype SerializedPhaseException = SerializedPhaseException(
    attemptReference: int,
    displayName: Option<string>,
    exception: Option<Exception>,
    reasonPhrase: string)

  function Serialize(p: PhaseException): (s: SerializedPhaseException)
    ensures s.attemptReference == p.attemptReference && s.displayName == p.displayName
    ensures s.exception == p.exception && s.reasonPhrase == p.reasonPhrase
  {
    SerializedPhaseException(p.attemptReference, p.displayName, p.exception, p.reasonPhrase)
  }

  /** `Context` and `Screenshot` never influence the serialised form. */
  lemma SerializeIgnoresContextAndScreenshot(p: PhaseException, c: Option<map<string, Value>>, shot: Option<Capture>)
    ensures Serialize(p.(context := c, screenshot := shot)) == Serialize(p)
  {
  }

  /** `TestPhaseResultModel`. */
  datatype PhaseResult = PhaseResult(
    duration: int,
    endTime: int,
    phaseException: Option<PhaseException>,
    isSuccess: bool,
    phaseName: string,
    startTime: int)

  /** `TestResultModel`; a fresh one has every reference null and every number zero. */
  datatype TestResult = TestResult(
    attemptNumber: int,
    auditableActions: Option<map<string, Value>>,
    displayName: Option<string>,
    exceptions: Option<seq<PhaseException>>,
    metrics: Option<map<string, Value>>,
    passed: bool,
    findElementsDuration: int,
    runId: Option<string>,
    setupDuration: int,
    setupEndTime: int,
    setupStartTime: int,
    teardownDuration: int,
    teardownEndTime: int,
    teardownStartTime: int,
    testClassName: Option<string>,
    testEndTime: int,
    testMethodName: Option<string>,
    testStartTime: int,
    testDuration: int)

  /** `new TestResultModel()`: every property has its type's default, so
      references are null, numbers zero, times `DateTime.MinValue`
      (the clock's origin, 0) and durations `TimeSpan.Zero`. */
  function NewTestResult(): (r: TestResult)
    ensures !r.passed && r.attemptNumber == 0
    ensures r.auditableActions.None? && r.displayName.None? && r.exceptions.None? && r.metrics.None? &&
            r.runId.None? && r.testClassName.None? && r.testMethodName.None?
    ensures r.setupStartTime == 0 && r.setupEndTime == 0 && r.testStartTime == 0 && r.testEndTime == 0 &&
            r.teardownStartTime == 0 && r.teardownEndTime == 0
    ensures r.setupDuration == 0 && r.testDuration == 0 && r.teardownDuration == 0 && r.findElementsDuration == 0
  {
    TestResult(0, None, None, None, None, false, 0, None,
               0, 0, 0, 0, 0, 0, None, 0, None, 0, 0)
  }

  /** The MSTest `TestContext`: its property bag and the identification the
      engine copies into results. `testDisplayName` is what
      `GetTestDisplayName().Description` reads from the test method by
      reflection. */
  class TestContext {
    var properties: map<string, Value>
    const testResultsDirectory: string
    const fullyQualifiedTestClassName: string
    const testName: string
    const testDisplayName: string

    constructor (properties: map<string, Value>, testResultsDirectory: string,
                 fullyQualifiedTestClassName: string, testName: string, testDisplayName: string)
      ensures this.properties == properties
      ensures this.testResultsDirectory == testResultsDirectory
      ensures this.fullyQualifiedTestClassName == fullyQualifiedTestClassName
      ensures this.testName == testName
      ensures this.testDisplayName == testDisplayName
    {
      this.properties := properties;
      this.testResultsDirectory := testResultsDirectory;
      this.fullyQualifiedTestClassName := fullyQualifiedTestClassName;
      this.testName := testName;
      this.testDisplayName := testDisplayName;
    }
  }

  /** The `AutomationEnvironment` of a run: configuration (`contextProperties`),
      free-form data written during the run (`testData`) and the, possibly
      null, test parameters. */
  class AutomationEnvironment {
    var contextProperties: map<string, Value>
    var testData: map<string, Value>
    var testParameters: Option<map<string, Value>>
    const testContext: TestContext

    constructor (testContext: TestContext, contextProperties: map<string, Value>,
                 testData: map<string, Value>, testParameters: Option<map<string, Value>>)
      ensures this.testContext == testContext
      ensures this.contextProperties == contextProperties
      ensures this.testData == testData
      ensures this.testParameters == testParameters
    {
      this.testContext := testContext;
      this.contextProperties := contextProperties;
      this.testData := testData;
      this.testParameters := testParameters;
    }
  }

  /** `ObjectSetupModel`: the environment, the named drivers (possibly null)
      and the current web driver. `disposed` logs every `Dispose` call. */
  class ObjectSetupModel {
    const environment: AutomationEnvironment
    var drivers: Option<map<string, Driver>>
    var webDriver: Option<Driver>
    ghost var disposed: seq<Driver>

    constructor (environment: AutomationEnvironment)
      ensures this.environment == environment
      ensures drivers.None? && webDriver.None? && disposed == []
    {
      this.environment := environment;
      drivers := None;
      webDriver := None;
      disposed := [];
    }
  }
}
