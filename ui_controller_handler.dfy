/** `UiControllerHandlerBase`: a model that looks up web elements and adds
    the time each lookup takes to the `TestData["FindElementsDuration"]`
    counter, which the engine later reports as the test's element search
    time. The lookups (`OnGetElement`, an overridden `OnGetElements`) are
    foreign code: what they return or throw and the ticks they take are given. */
module UiControllerHandler {
  import opened Wrappers
  import opened Exceptions
  import opened Text
  import opened Values
  import opened Models
  import TestCaseBase

  /** One lookup: what it returned or threw, and the ticks the stopwatch measured. */
  datatype Search<T> = Search(outcome: Result<T, Exception>, elapsed: nat)

  const CounterKey: string := "FindElementsDuration"

  /** The 10-second `WebDriverWait` timeout of the overloads that take none, in milliseconds. */
  const DefaultTimeout: int := 10_000

  /** The counter as `TestData.Get("FindElementsDuration", 0L)` reads it. */
  function SearchTime(testData: map<string, Value>): int {
    TestCaseBase.ElementSearchTime(testData)
  }

  /** `TestData` after one lookup: the counter read, plus the elapsed ticks,
      written back as a long. */
  function WithSearchTime(testData: map<string, Value>, elapsed: nat): (r: map<string, Value>)
    ensures CounterKey in r && r[CounterKey] == Long(SearchTime(testData) + elapsed)
    ensures SearchTime(r) == SearchTime(testData) + elapsed
    ensures forall k :: k != CounterKey ==> (k in r <==> k in testData)
    ensures forall k :: k != CounterKey && k in testData ==> r[k] == testData[k]
  {
    testData[CounterKey := Long(SearchTime(testData) + elapsed)]
  }

  /** The counter starts from 0 when the entry is missing or holds no long. */
  lemma CounterStartsAtZero(testData: map<string, Value>, elapsed: nat)
    requires CounterKey !in testData || !testData[CounterKey].Long?
    requires CounterKey in testData ==> !testData[CounterKey].Json?
    ensures SearchTime(testData) == 0
    ensures WithSearchTime(testData, elapsed)[CounterKey] == Long(elapsed)
  {
  }

  function Sum(xs: seq<nat>): nat {
    if xs == [] then 0 else Sum(xs[..|xs| - 1]) + xs[|xs| - 1]
  }

  /** `TestData` after lookups taking `elapsed[0]`, `elapsed[1]`, ... ticks. */
  function AfterSearches(testData: map<string, Value>, elapsed: seq<nat>): map<string, Value> {
    if elapsed == [] then testData
    else WithSearchTime(AfterSearches(testData, elapsed[..|elapsed| - 1]), elapsed[|elapsed| - 1])
  }

  /** The counter is the sum of all lookup times, so it never decreases
      across calls (64-bit wrap-around aside). */
  lemma {:induction false} SearchTimeAccumulates(testData: map<string, Value>, elapsed: seq<nat>)
    ensures SearchTime(AfterSearches(testData, elapsed)) == SearchTime(testData) + Sum(elapsed)
    ensures SearchTime(AfterSearches(testData, elapsed)) >= SearchTime(testData)
  {
    if elapsed != [] {
      SearchTimeAccumulates(testData, elapsed[..|elapsed| - 1]);
    }
  }

  /** What `OnGetElements()` gives: the subclass's result, or, when the
      subclass does not override it, an empty sequence. */
  function OnGetElements(overridden: Option<Result<seq<Element>, Exception>>): (r: Result<seq<Element>, Exception>)
    ensures overridden.None? ==> r == Success([])
    ensures overridden.Some? ==> r == overridden.value
  {
    if overridden.None? then Success([]) else overridden.value
  }

  class UiControllerHandler {
    const setupModel: ObjectSetupModel
    const webDriver: Driver
    /** The timeout of `Wait`, the `WebDriverWait` on the web driver. */
    const waitTimeout: int
    var webElement: Option<Element>

    /** The part of `UiControllerHandlerBase(setupModel, query, timeout)`
        before the lookup: the base constructor without a url, then the
        `WebDriverWait`, which needs a web driver. */
    constructor (setupModel: ObjectSetupModel, timeout: int)
      requires setupModel.webDriver.Some?
      ensures this.setupModel == setupModel && webDriver == setupModel.webDriver.value
      ensures waitTimeout == timeout && webElement.None?
    {
      this.setupModel := setupModel;
      webDriver := setupModel.webDriver.value;
      waitTimeout := timeout;
      webElement := None;
    }

    /** `GetElement(query)`: the lookup's element or exception; in either
        case, the `finally` block adds its time to the counter. */
    method GetElement(query: string, search: Search<Element>) returns (r: Result<Element, Exception>)
      modifies setupModel.environment
      ensures r == search.outcome
      ensures setupModel.environment.testData == WithSearchTime(old(setupModel.environment.testData), search.elapsed)
      ensures setupModel.environment.contextProperties == old(setupModel.environment.contextProperties)
      ensures setupModel.environment.testParameters == old(setupModel.environment.testParameters)
    {
      var environment := setupModel.environment;
      var findElementsDuration := SearchTime(environment.testData);
      r := search.outcome;
      findElementsDuration := findElementsDuration + search.elapsed;
      environment.testData := environment.testData[CounterKey := Long(findElementsDuration)];
    }

    /** `GetElements()`: the same accounting around `OnGetElements()`. */
    method GetElements(overridden: Option<Result<seq<Element>, Exception>>, elapsed: nat) returns (r: Result<seq<Element>, Exception>)
      modifies setupModel.environment
      ensures r == OnGetElements(overridden)
      ensures setupModel.environment.testData == WithSearchTime(old(setupModel.environment.testData), elapsed)
      ensures setupModel.environment.contextProperties == old(setupModel.environment.contextProperties)
      ensures setupModel.environment.testParameters == old(setupModel.environment.testParameters)
    {
      var environment := setupModel.environment;
      var findElementsDuration := SearchTime(environment.testData);
      r := OnGetElements(overridden);
      findElementsDuration := findElementsDuration + elapsed;
      environment.testData := environment.testData[CounterKey := Long(findElementsDuration)];
    }
  }

  /** `UiControllerHandlerBase(setupModel, query, timeout)`, including the
      cases in which it throws. Without a web driver the `WebDriverWait`
      constructor throws `ArgumentNullException` and nothing is looked up.
      An empty or null query looks nothing up and leaves `WebElement` null;
      any other query is looked up through `GetElement`, whose exception
      escapes the constructor after the counter was updated. */
  method New(setupModel: ObjectSetupModel, query: Option<string>, timeout: int, search: Search<Element>)
    returns (r: Result<UiControllerHandler, Exception>)
    modifies setupModel.environment
    ensures setupModel.webDriver.None? ==>
              r == Failure(Raise(ArgumentNull)) && setupModel.environment.testData == old(setupModel.environment.testData)
    ensures setupModel.webDriver.Some? && IsNullOrEmpty(query) ==>
              r.Success? && r.value.webElement.None? &&
              setupModel.environment.testData == old(setupModel.environment.testData)
    ensures setupModel.webDriver.Some? && !IsNullOrEmpty(query) ==>
              setupModel.environment.testData == WithSearchTime(old(setupModel.environment.testData), search.elapsed) &&
              (r.Success? <==> search.outcome.Success?) &&
              (r.Success? ==> r.value.webElement == Some(search.outcome.value)) &&
              (r.Failure? ==> r.error == search.outcome.error)
    ensures r.Success? ==> fresh(r.value) && r.value.setupModel == setupModel && r.value.waitTimeout == timeout
    ensures setupModel.environment.contextProperties == old(setupModel.environment.contextProperties)
    ensures setupModel.environment.testParameters == old(setupModel.environment.testParameters)
  {
    if setupModel.webDriver.None? {
      return Failure(Raise(ArgumentNull));
    }
    var handler := new UiControllerHandler(setupModel, timeout);
    if !IsNullOrEmpty(query) {
      var element := handler.GetElement(query.value, search);
      if element.Failure? {
        return Failure(element.error);
      }
      handler.webElement := Some(element.value);
    }
    r := Success(handler);
  }

  /** `UiControllerHandlerBase(setupModel)`: an empty query and the default
      timeout, so the constructor never looks anything up. */
  method NewDefault(setupModel: ObjectSetupModel, search: Search<Element>) returns (r: Result<UiControllerHandler, Exception>)
    modifies setupModel.environment
    ensures r.Success? <==> setupModel.webDriver.Some?
    ensures r.Success? ==> fresh(r.value) && r.value.webElement.None? && r.value.waitTimeout == DefaultTimeout
    ensures setupModel.environment.testData == old(setupModel.environment.testData)
  {
    r := New(setupModel, Some(""), DefaultTimeout, search);
  }
}
