/** `ModelBase`: the base of page and component models. Its constructor
    takes the web driver of the setup model and may open a url; its
    `AuditableAction` runs a user action and records how long it took in
    `TestData["AuditableActions"]`. The action is foreign code: what it
    returns or throws and the ticks it takes are given. */
module ModelBase {
  import opened Wrappers
  import opened Exceptions
  import opened Text
  import opened Values
  import opened Models

  /** A user action: its result or exception, and the ticks the stopwatch measures. */
  datatype UserAction = UserAction(outcome: Result<Value, Exception>, elapsed: nat)

  const AuditKey: string := "AuditableActions"

  /** `$"{action}Duration"`. */
  function DurationKey(action: string): string {
    action + "Duration"
  }

  /** `TestData["AuditableActions"]` is already a dictionary, which the action then writes into. */
  predicate HasAuditDictionary(testData: map<string, Value>) {
    AuditKey in testData && testData[AuditKey].Dict?
  }

  /** The dictionary the action writes to: the existing one, or a fresh one. */
  function AuditEntries(testData: map<string, Value>): (r: map<string, Value>)
    ensures HasAuditDictionary(testData) ==> r == testData[AuditKey].entries
    ensures !HasAuditDictionary(testData) ==> r == map[]
  {
    if HasAuditDictionary(testData) then testData[AuditKey].entries else map[]
  }

  /** `TestData` after `AuditableAction(action, f)`. When the action returns,
      the dictionary is stored and then receives the duration. When it
      throws, the duration still goes into the dictionary, which reaches
      `TestData` only when it was there already: a fresh one is dropped. */
  function AuditedTestData(testData: map<string, Value>, action: string, f: UserAction): (r: map<string, Value>)
    ensures f.outcome.Success? || HasAuditDictionary(testData) ==>
              HasAuditDictionary(r) &&
              r[AuditKey].entries == AuditEntries(testData)[DurationKey(action) := Long(f.elapsed)]
    ensures f.outcome.Failure? && !HasAuditDictionary(testData) ==> r == testData
    ensures forall k :: k != AuditKey ==> (k in r <==> k in testData)
    ensures forall k :: k != AuditKey && k in testData ==> r[k] == testData[k]
  {
    var entries := AuditEntries(testData)[DurationKey(action) := Long(f.elapsed)];
    if f.outcome.Success? || HasAuditDictionary(testData) then testData[AuditKey := Dict(entries)]
    else testData
  }

  /** The durations of earlier actions survive a later one: after two
      actions with different names, both durations are recorded. */
  lemma AuditKeepsEarlierDurations(testData: map<string, Value>, a1: string, f1: UserAction, a2: string, f2: UserAction)
    requires a1 != a2
    requires f1.outcome.Success?
    ensures var r := AuditedTestData(AuditedTestData(testData, a1, f1), a2, f2);
            HasAuditDictionary(r) &&
            DurationKey(a1) in r[AuditKey].entries && r[AuditKey].entries[DurationKey(a1)] == Long(f1.elapsed) &&
            DurationKey(a2) in r[AuditKey].entries && r[AuditKey].entries[DurationKey(a2)] == Long(f2.elapsed)
  {
    var once := AuditedTestData(testData, a1, f1);
    assert DurationKey(a1)[..|a1|] == a1;
    assert HasAuditDictionary(once);
  }

  /** A failing action leaves no trace when there was no dictionary yet,
      and whether "AuditableActions" exists afterwards depends only on
      whether it existed before or the action returned. */
  lemma FailedActionKeepsTestData(testData: map<string, Value>, action: string, f: UserAction)
    ensures AuditKey in AuditedTestData(testData, action, f) <==> AuditKey in testData || f.outcome.Success?
    ensures f.outcome.Failure? && AuditKey in testData && !testData[AuditKey].Dict? ==>
              AuditedTestData(testData, action, f)[AuditKey] == testData[AuditKey]
  {
  }

  /** Page and component models. The navigation to a url is a request to
      the foreign driver; `navigation` records the url asked for. */
  class ModelBase {
    const setupModel: ObjectSetupModel
    const webDriver: Option<Driver>
    const navigation: Option<string>

    /** `ModelBase(setupModel, url)` when it does not throw: a non-empty url
        is opened on the web driver. */
    constructor (setupModel: ObjectSetupModel, url: Option<string>)
      requires IsNullOrEmpty(url) || setupModel.webDriver.Some?
      ensures this.setupModel == setupModel && webDriver == setupModel.webDriver
      ensures navigation == if IsNullOrEmpty(url) then None else url
    {
      this.setupModel := setupModel;
      webDriver := setupModel.webDriver;
      navigation := if IsNullOrEmpty(url) then None else url;
    }

    /** `ModelBase(setupModel)`: a null url, so no navigation. */
    constructor WithoutUrl(setupModel: ObjectSetupModel)
      ensures this.setupModel == setupModel && webDriver == setupModel.webDriver
      ensures navigation.None?
    {
      this.setupModel := setupModel;
      webDriver := setupModel.webDriver;
      navigation := None;
    }

    /** `AuditableAction(action, f)`: returns what `f` returns and re-throws
        what it throws, and records the duration in `TestData`. */
    method AuditableAction(action: string, f: UserAction) returns (r: Result<Value, Exception>)
      modifies setupModel.environment
      ensures r == f.outcome
      ensures setupModel.environment.testData == AuditedTestData(old(setupModel.environment.testData), action, f)
      ensures setupModel.environment.contextProperties == old(setupModel.environment.contextProperties)
      ensures setupModel.environment.testParameters == old(setupModel.environment.testParameters)
    {
      var environment := setupModel.environment;
      var isAuditableActions := AuditKey in environment.testData;
      var isDictionary := isAuditableActions && environment.testData[AuditKey].Dict?;
      var auditableActions := if isDictionary then environment.testData[AuditKey].entries else map[];
      if f.outcome.Success? {
        environment.testData := environment.testData[AuditKey := Dict(auditableActions)];
      }
      // finally: the duration goes into the dictionary object, which
      // `TestData` holds when it was stored above or was there before
      auditableActions := auditableActions[DurationKey(action) := Long(f.elapsed)];
      if f.outcome.Success? || isDictionary {
        environment.testData := environment.testData[AuditKey := Dict(auditableActions)];
      }
      r := f.outcome;
    }
  }

  /** The constructor, including the case in which it throws: opening a url
      without a web driver dereferences null. */
  method New(setupModel: ObjectSetupModel, url: Option<string>) returns (r: Result<ModelBase, Exception>)
    ensures r.Failure? <==> !IsNullOrEmpty(url) && setupModel.webDriver.None?
    ensures r.Failure? ==> r.error == Raise(NullReference)
    ensures r.Success? ==>
              fresh(r.value) && r.value.setupModel == setupModel && r.value.webDriver == setupModel.webDriver &&
              r.value.navigation == if IsNullOrEmpty(url) then None else url
  {
    if !IsNullOrEmpty(url) && setupModel.webDriver.None? {
      return Failure(Raise(NullReference));
    }
    var model := new ModelBase(setupModel, url);
    r := Success(model);
  }
}
