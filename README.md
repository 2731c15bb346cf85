# A verified model of the CSharp-Selenium-Infra test engine

This project is a Dafny model of the core of a C# Selenium test framework:
the **retry engine** `TestCaseBase`, and the helpers it relies on.

The retry engine works as follows:
- `Invoke()` runs up to `NumberOfAttempts` attempts of a test case and stops at the first attempt that passes.
- Between failed attempts it sleeps `TestSettings.AttemptsDelay` milliseconds.
- It collects the exceptions of every attempt in order.
- Each attempt runs the setup phase, then the test body, then the teardown phase in a `finally` block.
- What the body throws decides the attempt. The `catch` filters test with `is`, so a subclass counts as its base type:
  - `NotImplementedException` and `AssertInconclusiveException` make the attempt inconclusive.
  - `TestSetupException` and `TestTeardownException` are recorded and re-thrown.
  - Any other exception is recorded, and the attempt fails.

Around the engine sit the helpers:
- the `FrameworkExtensions` bookkeeping: metrics, the driver registry, phase-result merging, timeouts and the report path;
- the upserts of `TestResultsExtensions`;
- the typed dictionary reads of `DotnetExtensions`;
- the exception record `TestPhaseExceptionModel`;
- the `TestData` counters of `ModelBase.AuditableAction` and `UiControllerHandlerBase`;
- the model registry `ModelFactory`;
- the driver selection of `DriverFactory`;
- three parts of the UI Automation client: the retry-until-deadline waiter `UiaWaiter`, the options dictionary `UiaOptions`, and the command line of `UiaDriverService`.

## How the model is built

Each core source file is one Dafny module of the same name. A few
modules hold the shared pieces:
- `Wrappers`: `Option` and `Result`.
- `Exceptions`: exception types with single inheritance (`is`), messages, inner exceptions and `GetBaseException`.
- `Text`: ordinal upper-casing, case-insensitive comparison and `Path.Combine`.
- `Numbers`: `int.Parse` and the decimal text of integers.
- `Values`: the dynamic `object` values stored in the property dictionaries, with their type tests and casts.
- `Models`: the result records, `TestContext`, `AutomationEnvironment` and `ObjectSetupModel`.

**Imperative code stays imperative.** Source that changes state in place
becomes classes with `modifies` clauses:
- The property dictionaries are `map` fields of an `AutomationEnvironment` object, shared by reference as in the source.
- The drivers of `ObjectSetupModel` are fields too.
- `TestCase` is a class. `Invoke()` is a `while` loop whose invariant is the ghost predicate `Progress`.
- `ClearDrivers` is a loop over the registered drivers.
- `UiaWaiter.Until` is the do/while loop.
- `UiaOptions` is a class over its dictionary.

Pure code becomes functions.

**User code is given.** Starting the driver, `OnSetup`, the test body,
`OnTearDown`, disposing drivers and taking the screenshot of a failing
body are given per attempt by an `AttemptScript`. Each action is described by:
- the metrics it writes;
- the ticks it takes;
- whether it returns or throws.

**Time is explicit.** `DateTime.Now` is a clock field that only the
actions and the sleeps advance. A ghost `trace` records the steps of a run
in order:
- setup;
- body;
- teardown;
- drivers cleared;
- sleep.

The lemmas about the traces give the proofs of these properties:
- teardown runs exactly once per attempt;
- a run of `k` attempts sleeps `k - 1` times;
- the body runs only after a successful setup.

Where the framework's own description of the engine and its code differ,
the model follows the code. The differences are:
- A failure of the teardown phase is recorded but never re-thrown. It does not change `Passed`.
- A failure of the setup phase is recorded. The attempt then ends with an `AssertInconclusiveException`, not a `TestSetupException`, and the run stops.
- A number of attempts of zero or less is not rejected. The loop makes no attempt, and `Invoke()` returns a fresh result with `Passed = false`.
- A run whose attempts all fail collects the body's exception and the teardown's exception for each attempt. That can be more than one exception per attempt.

## Model

| member | source | states |
|---|---|---|
| Exceptions.BaseException | Infrastructure.Models/TestPhaseExceptionModel.cs:44-46 | `GetBaseException()` is a member of the exception's chain and has no inner exception; an exception without inner exception is its own base |
| Exceptions.BaseExceptionOfWrap | Infrastructure.Core/TestCaseBase.cs:403-405 | wrapping an exception as the inner exception of a new one keeps the base exception |
| Exceptions.BaseExceptionUnique | Infrastructure.Models/TestPhaseExceptionModel.cs:44-46 | the base exception is the one member of the chain without an inner exception |
| Exceptions.SingleInheritance | Infrastructure.Core/TestCaseBase.cs:284-298 | an exception type `is` at most one of two distinct non-derived exception types |
| Exceptions.IsATransitive | Infrastructure.Core/TestCaseBase.cs:284-298 | `is` is transitive: a subclass of a subclass of `T` is a `T` |
| Text.Upper | Infrastructure.Core/DriverFactory.cs:128 | `ToUpper()` keeps the length and upper-cases each character |
| Text.UpperIdempotent | Infrastructure.Core/DriverFactory.cs:155 | upper-casing twice is upper-casing once |
| Text.EqualsIgnoreCaseIffSameUpper | Infrastructure.Core/ModelFactory.cs:16-21 | two strings are equal under `OrdinalIgnoreCase` exactly when their upper-cased forms are equal, in both directions |
| Text.Combine | Infrastructure.Extensions/FrameworkExtensions.cs:191-203 | `Path.Combine` ends with its second part; an empty part yields the other one, a rooted second part wins, and otherwise the parts are joined with a backslash, which is left out when the first part already ends with a separator |
| Numbers.DigitsValueOfDigits | Infrastructure.Core/TestCaseBase.cs:92 | the digits of a natural number read back as that number |
| Numbers.FormatIntIsTrimmed | Infrastructure.Core/TestCaseBase.cs:92 | the decimal text of an integer has no surrounding white space for `int.Parse` to trim |
| Numbers.DigitsEndsWithDigit | Infrastructure.Core/TestCaseBase.cs:92 | the decimal text of a number starts and ends with a digit |
| Numbers.ParseFormatRoundTrip | Infrastructure.Core/TestCaseBase.cs:91-93 | `int.Parse($"{n}")` gives back `n` when it fits in 32 bits and overflows otherwise |
| Numbers.FormatIntSplitsSign | Infrastructure.Core/TestCaseBase.cs:92 | parsing the text of `n` reads its sign and then the digits of its magnitude |
| Numbers.ParseDigitsOfMagnitude | Infrastructure.Core/TestCaseBase.cs:92 | the sign and the magnitude's digits read back as `n`, or overflow outside the 32-bit range |
| Numbers.RejectsForeignCharacter | Infrastructure.Core/TestCaseBase.cs:92 | `int.Parse` rejects with `FormatException` any text holding a character that is not white space, a sign or a digit |
| Numbers.ParsedIsInRange | Infrastructure.Core/TestCaseBase.cs:35-41 | whatever `int.Parse` accepts is a 32-bit integer and contains a digit |
| Values.DefaultOf | Infrastructure.Extensions/DotnetExtensions.cs:19-23 | `default(T)` has type `T`, and it is null exactly for reference types |
| Values.Cast | Infrastructure.Extensions/DotnetExtensions.cs:25 | the cast `(T)value` succeeds with the value itself exactly when the value has type `T`; otherwise it throws `NullReferenceException` (null to a value type) or `InvalidCastException` |
| DotnetExtensions.Get | Infrastructure.Extensions/DotnetExtensions.cs:16-26 | `Get<T>(key)` gives `default(T)` for a missing key and the stored value when it has type `T`; a stored value of another type fails; every success has type `T` |
| DotnetExtensions.GetOr | Infrastructure.Extensions/DotnetExtensions.cs:37-56 | `Get<T>(key, defaultValue)` gives the stored value when it is a `T`; it gives the default when the key is missing or the value is not a `T`, null included; the result is always one of the two |
| DotnetExtensions.ResolveType | Infrastructure.Extensions/DotnetExtensions.cs:96-107 | a JSON string becomes a string, a number a double, true and false the booleans, null and undefined null, and arrays and objects stay JSON; it is never an int or a long |
| DotnetExtensions.GetResolved | Infrastructure.Extensions/DotnetExtensions.cs:68-92 | the generic overload resolves a stored JSON element first, then keeps it when it is a `T` and gives the default otherwise |
| DotnetExtensions.GetResolvedAgreesOffJson | Infrastructure.Extensions/DotnetExtensions.cs:80-82 | on a value that is not a JSON element, the generic overload and `Get<T>(key, defaultValue)` agree |
| DotnetExtensions.JsonNumberIsNeverIntegral | Infrastructure.Extensions/DotnetExtensions.cs:85-91 | a JSON number asked for as `int` or `long` gives the default |
| DotnetExtensions.JsonStringResolvesToText | Infrastructure.Extensions/DotnetExtensions.cs:96-107 | a JSON string asked for as a string gives its text |
| Models.NewPhaseException | Infrastructure.Models/TestPhaseExceptionModel.cs:11 | the record holds exactly the exception it was built from; `ReasonPhrase` is the base exception's message, or empty without an exception; the other fields start empty |
| Models.EmptyPhaseException | Infrastructure.Models/TestPhaseExceptionModel.cs:16-18 | the parameterless constructor has no exception and an empty `ReasonPhrase` |
| Models.ReasonOfWrapped | Infrastructure.Models/TestPhaseExceptionModel.cs:44-46 | the record of a wrapping exception carries the reason of the exception it wraps |
| Models.ReasonPhraseIsFixedAtConstruction | Infrastructure.Models/TestPhaseExceptionModel.cs:39-46 | assigning `Exception` later changes the exception but not `ReasonPhrase` |
| Models.Serialize | Infrastructure.Models/TestPhaseExceptionModel.cs:23-52 | the serialised record carries the attempt, the display name, the exception and the reason |
| Models.SerializeIgnoresContextAndScreenshot | Infrastructure.Models/TestPhaseExceptionModel.cs:28-52 | records that differ only in `Context` and `Screenshot` serialise the same |
| Models.NewTestResult | Infrastructure.Models/TestResultModel.cs:9-124 | a fresh result has every property at its default: not passed, attempt number 0, every dictionary, list and name null, every time at the clock's origin and every duration zero |
| Models.TestContext.constructor | Infrastructure.Core/TestCaseBase.cs:29-45 | the test context holds the given properties, results directory and names |
| Models.AutomationEnvironment.constructor | Infrastructure.Core/TestCaseBase.cs:32 | the environment holds the given test context and dictionaries |
| Models.ObjectSetupModel.constructor | Infrastructure.Core/TestCaseBase.cs:107-110 | a new setup model shares the environment and has no web driver, no driver dictionary and nothing disposed |
| FrameworkExtensions.UpsertAllUnwritten | Infrastructure.Extensions/FrameworkExtensions.cs:95-108 | a key that no pair writes keeps its entry, or stays absent |
| FrameworkExtensions.UpsertAllLastWriteWins | Infrastructure.Extensions/FrameworkExtensions.cs:95-108 | a key maps to the value of the last pair that writes it |
| FrameworkExtensions.UpsertAllKeys | Infrastructure.Extensions/FrameworkExtensions.cs:95-108 | the keys afterwards are the old keys plus the written ones |
| FrameworkExtensions.WithMetric | Infrastructure.Extensions/FrameworkExtensions.cs:29-53 | after `AddMetrics(m, v)`, `TestData["Metrics"]` is a dictionary mapping `m` to `v`; earlier metrics are kept when it was a dictionary, and any other value is replaced; no other `TestData` key changes |
| FrameworkExtensions.AddMetrics | Infrastructure.Extensions/FrameworkExtensions.cs:29-53 | the method leaves `TestData` as described by `WithMetric` and touches no other dictionary |
| FrameworkExtensions.AddMetricsKeepsEarlierMetrics | Infrastructure.Extensions/FrameworkExtensions.cs:29-53 | two different metrics written one after the other are both recorded |
| FrameworkExtensions.WithDriver | Infrastructure.Extensions/FrameworkExtensions.cs:61-68 | the registry maps the name to the driver, a null registry counts as empty, and other entries are unchanged |
| FrameworkExtensions.AddOrReplaceDriver | Infrastructure.Extensions/FrameworkExtensions.cs:61-68 | `Drivers` becomes `WithDriver` of the old registry; `WebDriver` is not touched |
| FrameworkExtensions.AddTestParameter | Infrastructure.Extensions/FrameworkExtensions.cs:77-87 | a null `TestParameters` becomes empty, then the key is set; the other dictionaries are unchanged |
| FrameworkExtensions.AddTestParameters | Infrastructure.Extensions/FrameworkExtensions.cs:95-108 | every parsed pair is written into `TestParameters` in order |
| FrameworkExtensions.AddTestProperty | Infrastructure.Extensions/FrameworkExtensions.cs:117-124 | `ContextProperties[key] = value`, nothing else changes |
| FrameworkExtensions.AddTestProperties | Infrastructure.Extensions/FrameworkExtensions.cs:132-142 | every parsed pair is written into `ContextProperties` in order |
| FrameworkExtensions.ClearDrivers | Infrastructure.Extensions/FrameworkExtensions.cs:148-173 | the method never throws and disposes the web driver first; it disposes nothing but the web driver and registered drivers, and every registered driver after the web driver when none fails, keeping what was disposed before; it empties `Drivers` exactly when every dispose succeeded and `Drivers` is not null; `WebDriver` is never reset |
| FrameworkExtensions.SwitchDriver | Infrastructure.Extensions/FrameworkExtensions.cs:440-453 | a registered key becomes the web driver and an unknown key changes nothing; a null `Drivers` throws `NullReferenceException`; `Drivers` is never modified |
| FrameworkExtensions.GetTimeouts | Infrastructure.Extensions/FrameworkExtensions.cs:325-353 | each timeout is its setting when that parses as a 32-bit integer, and 10000 (search) or 30000 (load) otherwise |
| FrameworkExtensions.GetTimeoutsReadsSettings | Infrastructure.Extensions/FrameworkExtensions.cs:325-353 | settings holding the text of two integers give back exactly those integers |
| FrameworkExtensions.GetTimeoutsDefaults | Infrastructure.Extensions/FrameworkExtensions.cs:325-353 | missing settings, or settings that are not strings, give 10000 ms and 30000 ms |
| FrameworkExtensions.ReportDirectory | Infrastructure.Extensions/FrameworkExtensions.cs:191-203 | the report directory is "ExtentReport.ReportPath", with "." or a missing value standing for `TestResultsDirectory` |
| FrameworkExtensions.GetReportPath | Infrastructure.Extensions/FrameworkExtensions.cs:191-203 | the report path always ends with the run id |
| FrameworkExtensions.ReportPathDefaultsToResultsDirectory | Infrastructure.Extensions/FrameworkExtensions.cs:191-203 | without a report path, the report lies under `TestResultsDirectory` and ends with the run id |
| FrameworkExtensions.MergeExceptions | Infrastructure.Extensions/FrameworkExtensions.cs:461-489 | the existing exceptions, with null counting as none, are kept in order and the phase's exception, if any, comes last |
| FrameworkExtensions.UpdateSetupResults | Infrastructure.Extensions/FrameworkExtensions.cs:461-489 | a phase named "Setup" in any case copies its start, end and duration and appends its exception; any other name changes nothing; no other field ever changes |
| FrameworkExtensions.UpdateTeardownResults | Infrastructure.Extensions/FrameworkExtensions.cs:497-525 | the same for "Teardown" and the teardown fields |
| FrameworkExtensions.PhaseNameIgnoresCase | Infrastructure.Extensions/FrameworkExtensions.cs:461-489 | "SETUP", "setup" and every other spelling merge too |
| FrameworkExtensions.SetupThenTeardown | Infrastructure.Extensions/FrameworkExtensions.cs:461-525 | after a setup merge and a teardown merge, the result holds both phases' times and both exceptions in merge order |
| TestResultsExtensions.UpsertInOrder | Infrastructure.Core/Extensions/TestResultsExtensions.cs:74-87 | writing a list of pairs is writing its first part, then the rest |
| TestResultsExtensions.SinglePairIsKeyUpsert | Infrastructure.Core/Extensions/TestResultsExtensions.cs:56-87 | a JSON object with one member does what the key overload does |
| TestResultsExtensions.UpsertTwiceIsOnce | Infrastructure.Core/Extensions/TestResultsExtensions.cs:74-87 | upserting the same pairs twice is upserting them once |
| TestResultsExtensions.AddTestParameter | Infrastructure.Core/Extensions/TestResultsExtensions.cs:56-66 | a null `TestParameters` becomes empty, then the key is set; the same test case is returned |
| TestResultsExtensions.AddTestParameters | Infrastructure.Core/Extensions/TestResultsExtensions.cs:74-87 | the parsed pairs are written into `TestParameters` in order; the same test case is returned |
| TestResultsExtensions.AddTestProperty | Infrastructure.Core/Extensions/TestResultsExtensions.cs:96-103 | `ContextProperties[key] = value`; the same test case is returned |
| TestResultsExtensions.AddTestProperties | Infrastructure.Core/Extensions/TestResultsExtensions.cs:111-121 | the parsed pairs are written into `ContextProperties` in order; the same test case is returned |
| ModelBase.AuditEntries | Infrastructure.Core/ModelBase.cs:65-71 | the action writes into the existing "AuditableActions" dictionary, or into a fresh one when there is none or the value is not a dictionary |
| ModelBase.AuditedTestData | Infrastructure.Core/ModelBase.cs:60-104 | when the action returns, or a dictionary was already there, "AuditableActions" holds the earlier entries plus `action + "Duration"` mapped to the elapsed ticks; a throwing action with no dictionary leaves `TestData` unchanged; other keys never change |
| ModelBase.AuditKeepsEarlierDurations | Infrastructure.Core/ModelBase.cs:60-104 | after two actions with different names, both durations are recorded |
| ModelBase.FailedActionKeepsTestData | Infrastructure.Core/ModelBase.cs:91-103 | "AuditableActions" exists afterwards exactly when it existed before or the action returned; a throwing action leaves a non-dictionary value as it was |
| ModelBase.ModelBase.constructor | Infrastructure.Core/ModelBase.cs:27-40 | the model takes the setup model's web driver and navigates only for a non-empty url |
| ModelBase.ModelBase.WithoutUrl | Infrastructure.Core/ModelBase.cs:20 | the one-argument constructor never navigates |
| ModelBase.ModelBase.AuditableAction | Infrastructure.Core/ModelBase.cs:60-104 | the action's result is returned, or its exception re-thrown, and `TestData` becomes `AuditedTestData` |
| ModelBase.New | Infrastructure.Core/ModelBase.cs:27-40 | the constructor throws `NullReferenceException` exactly when a url is given without a web driver |
| UiControllerHandler.WithSearchTime | Infrastructure.Core/UiControllerHandlerBase.cs:82-98 | "FindElementsDuration" becomes the long it held (0 when missing or not a long) plus the elapsed ticks; other keys are unchanged |
| UiControllerHandler.CounterStartsAtZero | Infrastructure.Core/UiControllerHandlerBase.cs:82 | a missing counter, or one that is not a long, counts from 0 |
| UiControllerHandler.SearchTimeAccumulates | Infrastructure.Core/UiControllerHandlerBase.cs:93-98 | after several lookups, the counter is the old value plus the sum of their times, so it never decreases |
| UiControllerHandler.OnGetElements | Infrastructure.Core/UiControllerHandlerBase.cs:143-146 | without an override, `OnGetElements` gives an empty sequence |
| UiControllerHandler.UiControllerHandler.constructor | Infrastructure.Core/UiControllerHandlerBase.cs:50-53 | the handler keeps the setup model, its web driver and the wait timeout, and has no element yet |
| UiControllerHandler.UiControllerHandler.GetElement | Infrastructure.Core/UiControllerHandlerBase.cs:76-100 | the lookup's element or exception comes back, and the counter grows by the lookup's time in either case |
| UiControllerHandler.UiControllerHandler.GetElements | Infrastructure.Core/UiControllerHandlerBase.cs:106-130 | the same accounting around `OnGetElements` |
| UiControllerHandler.New | Infrastructure.Core/UiControllerHandlerBase.cs:50-60 | without a web driver the constructor throws `ArgumentNullException`; an empty or null query looks nothing up; any other query looks up the element, counts its time and lets its exception escape |
| UiControllerHandler.NewDefault | Infrastructure.Core/UiControllerHandlerBase.cs:23-24 | the one-argument constructor never looks anything up and uses the 10-second timeout |
| ModelFactory.CacheOf | Infrastructure.Core/ModelFactory.cs:16-21 | every model type is cached under its upper-cased full name, and every entry comes from a model type |
| ModelFactory.UpperNamesAreDistinct | Infrastructure.Core/ModelFactory.cs:16-21 | names that differ ignoring case stay apart once upper-cased |
| ModelFactory.Lookup | Infrastructure.Core/ModelFactory.cs:78 | `s_cache[typeName]` throws `ArgumentNullException` for null, throws `KeyNotFoundException` for an unknown name, and finds the type otherwise |
| ModelFactory.LookupIgnoresCase | Infrastructure.Core/ModelFactory.cs:16-21 | names equal ignoring case find the same thing |
| ModelFactory.CachedTypesAreFound | Infrastructure.Core/ModelFactory.cs:16-21 | every model type is found by its full name in any case |
| ModelFactory.ConstructorArguments | Infrastructure.Core/ModelFactory.cs:119-123 | the constructor receives the setup model, then exactly the caller's arguments; a null array counts as empty |
| ModelFactory.NullArgumentsAreEmpty | Infrastructure.Core/ModelFactory.cs:119-123 | a null array and an empty one give the same constructor call |
| ModelFactory.NewOfType | Infrastructure.Core/ModelFactory.cs:116-124 | a null type throws `ArgumentNullException`, a failing constructor throws its exception, and a type not assignable to `T` throws `InvalidCastException`; otherwise the instance is created with those arguments |
| ModelFactory.NewByName | Infrastructure.Core/ModelFactory.cs:72-92 | any failure of the lookup or the creation is thrown wrapped in a `ModelNotFoundException` with the model-not-found message; success is what `NewOfType` creates |
| ModelFactory.NameAndTypeAgree | Infrastructure.Core/ModelFactory.cs:72-124 | for a known name, creating by name and creating by type succeed together with the same instance, and a failure's base exception is the same |
| ModelFactory.OverloadsWithoutArguments | Infrastructure.Core/ModelFactory.cs:29-62 | the overloads without arguments give the model's constructor the setup model alone |
| DriverFactory.SelectBrowser | Infrastructure.Core/DriverFactory.cs:128-135 | the upper-cased type selects Firefox, Edge, Safari or UIA exactly for their names, in both directions |
| DriverFactory.SelectBrowserIgnoresCase | Infrastructure.Core/DriverFactory.cs:155-162 | types that differ only in case select the same browser |
| DriverFactory.UnknownTypeSelectsChrome | Infrastructure.Core/DriverFactory.cs:128-135 | any other type selects Chrome |
| DriverFactory.DefaultOptions | Infrastructure.Core/DriverFactory.cs:118-125 | the default options are of the selected browser, and Chrome's carry the five fixed arguments |
| DriverFactory.EffectiveType | Infrastructure.Core/DriverFactory.cs:115 | a given type is used; an empty one falls back to the options' `PlatformName` for a remote driver and to their `BrowserName` for a local one |
| DriverFactory.New | Infrastructure.Core/DriverFactory.cs:106-171 | the driver is remote exactly for an address starting with `http://` or `https://`; it is the browser of the effective type, with the given options or that browser's defaults; it fails exactly when there is no type to select by (`NullReferenceException`) or a local driver gets options of another browser (`InvalidCastException`) |
| DriverFactory.NewWithoutOptionsSucceeds | Infrastructure.Core/DriverFactory.cs:94-97 | a non-empty type without options always builds a driver, with the default options |
| DriverFactory.DefaultChromeOptionsAgree | Infrastructure.Core/DriverFactory.cs:118-152 | local and remote Chrome drivers get the same default arguments |
| DriverFactory.NewOfType | Infrastructure.Core/DriverFactory.cs:94-97 | `New(driverType, driverPath)` has no options and, for a non-empty type, selects its browser |
| DriverFactory.NewWithOptions | Infrastructure.Core/DriverFactory.cs:83-86 | `New(driverPath, options)` uses the options' `PlatformName` as the type and keeps the options; null options throw |
| DriverFactory.LocalOptionsFallBackToBrowserName | Infrastructure.Core/DriverFactory.cs:142 | a local driver from options without a platform name is selected by their browser name |
| DriverFactory.NewDriverArguments | Infrastructure.Core/DriverFactory.cs:180-203 | the generic constructor receives the service, if any, then the options, if any |
| DriverFactory.GenericOverloadArguments | Infrastructure.Core/DriverFactory.cs:25-64 | the four generic overloads pass no argument, the options, the service, or both |
| UiaWaiter.Final | Uia.Client/UiaWaiter.cs:61-73 | an evaluation that returns ends with its element, null included; an exception that is not ignored is re-thrown; a null ignore list throws `NullReferenceException` |
| UiaWaiter.TimeAfterGrows | Uia.Client/UiaWaiter.cs:69-70 | every retry costs at least the 100 ms sleep |
| UiaWaiter.EvaluationsAreBounded | Uia.Client/UiaWaiter.cs:54-75 | more than one evaluation happens only when the sleeps before the last fit in the timeout |
| UiaWaiter.UiaWaiter.constructor | Uia.Client/UiaWaiter.cs:15-20 | the waiter keeps the driver, the ignored exceptions and the timeout |
| UiaWaiter.UiaWaiter.WithDefaults | Uia.Client/UiaWaiter.cs:26 | no ignored exceptions and 10 seconds |
| UiaWaiter.UiaWaiter.WithTimeout | Uia.Client/UiaWaiter.cs:34 | no ignored exceptions and the given timeout |
| UiaWaiter.UiaWaiter.WithIgnored | Uia.Client/UiaWaiter.cs:42 | the given ignored exceptions and 10 seconds |
| UiaWaiter.UiaWaiter.Until | Uia.Client/UiaWaiter.cs:51-79 | the condition runs at least once; every evaluation but the last threw an exception of exactly an ignored type and slept before the deadline; the last one ends the call, unless it was retried too past the deadline, which throws `NoSuchElementException` |
| UiaOptions.KeysAreDistinct | Uia.Client/UiaOptions.cs:28-85 | the six properties have six different keys |
| UiaOptions.GetOption | Uia.Client/UiaOptions.cs:125-131 | a missing key gives the type's default, and a stored value of the type comes back as it is |
| UiaOptions.GetAfterSet | Uia.Client/UiaOptions.cs:125-138 | a property reads back the value it was set to |
| UiaOptions.SetKeepsOtherProperties | Uia.Client/UiaOptions.cs:134-138 | setting one property leaves every other property as it was |
| UiaOptions.NewOptionsReadDefaults | Uia.Client/UiaOptions.cs:128-130 | on new options every property reads as null, and `Mount` as false |
| UiaOptions.UiaOptions.constructor | Uia.Client/UiaOptions.cs:15-18 | new options start with an empty dictionary and no binary location |
| UiaOptions.UiaOptions.Get | Uia.Client/UiaOptions.cs:28-85 | a property getter reads the entry of its key |
| UiaOptions.UiaOptions.SetOption | Uia.Client/UiaOptions.cs:134-138 | the entry is written and the binary location is not touched |
| UiaOptions.UiaOptions.Set | Uia.Client/UiaOptions.cs:28-85 | a property setter writes its key, reads back its value and leaves the other properties unchanged |
| UiaOptions.UiaOptions.SetBinaryLocation | Uia.Client/UiaOptions.cs:47 | `BinaryLocation` lives outside the dictionary |
| UiaOptions.UiaOptions.ToCapabilities | Uia.Client/UiaOptions.cs:92-104 | the capabilities add browserName "uia", platformName "windows" and the options dictionary to the desired ones |
| UiaOptions.UiaOptions.DefaultCapabilities | Uia.Client/UiaOptions.cs:110-122 | the same with the key "platform" and the options `app = "Desktop"` |
| UiaDriverService.CommandFor | Uia.Client/UiaDriverService.cs:29-43 | a name not ending in ".dll" runs as it is with "--port {port}"; a ".dll" runs through `dotnet` from `dotnetPath`, with the assembly's combined path before the port, and throws `ArgumentNullException` when one of the two paths is null |
| UiaDriverService.CommandEndsWithPort | Uia.Client/UiaDriverService.cs:35-42 | every command line ends with the port argument, which reads back as the port |
| UiaDriverService.AssemblyRunsThroughDotnet | Uia.Client/UiaDriverService.cs:40-42 | an assembly runs `dotnet` and gets the assembly path first |
| UiaDriverService.DefaultExecutableName | Uia.Client/UiaDriverService.cs:92 | "Uia.DriverServer.dll" is picked exactly when a `dotnetPath` is given |
| UiaDriverService.DefaultServiceWithoutDotnet | Uia.Client/UiaDriverService.cs:66-79 | the overloads without `dotnetPath` always run the .exe with the port |
| UiaDriverService.DefaultServiceWithDotnet | Uia.Client/UiaDriverService.cs:87-94 | with a `dotnetPath`, the default service runs the assembly through `dotnet`, or throws without a service path |
| UiaDriverService.UiaDriverService.constructor | Uia.Client/UiaDriverService.cs:29-43 | the service's path, executable and arguments are the command `CommandFor` describes |
| UiaDriverService.UiaDriverService.DefaultDriverOptions | Uia.Client/UiaDriverService.cs:49-55 | the default options hold only `App = "Desktop"` |
| UiaDriverService.New | Uia.Client/UiaDriverService.cs:29-43 | the constructor throws exactly what `CommandFor` fails with, and otherwise sets up that command |
| UiaDriverService.NewDefaultService | Uia.Client/UiaDriverService.cs:87-94 | the default service fails exactly when a `dotnetPath` is given without a service path, and otherwise uses the free port and the chosen executable |
| TestCaseBase.ParseOrThrow | Infrastructure.Core/TestCaseBase.cs:35 | `int.Parse` succeeds exactly when the text parses, with a 32-bit result, and otherwise throws `FormatException` or `OverflowException` |
| TestCaseBase.ReadSettings | Infrastructure.Core/TestCaseBase.cs:29-45 | the constructor succeeds exactly when both settings parse, reads the delay, the number of attempts and the application under test, and throws the delay's parse error first |
| TestCaseBase.ReadSettingsDefaults | Infrastructure.Core/TestCaseBase.cs:35-44 | without settings, a test case waits 15000 ms, makes one attempt and has no application under test |
| TestCaseBase.ReadSettingsOfFormatted | Infrastructure.Core/TestCaseBase.cs:35-41 | settings holding the text of 32-bit integers are read back exactly |
| TestCaseBase.ConfiguredAttempts | Infrastructure.Core/TestCaseBase.cs:91-93 | `ContextProperties["NumberOfAttempts"]`, when present, is parsed from its text (a JSON number from the raw text of its token); otherwise the configured number stays |
| TestCaseBase.ConfiguredAttemptsOfJsonNumber | Infrastructure.Core/TestCaseBase.cs:91-93 | a JSON number under "NumberOfAttempts" is parsed from its raw token, so a token with a decimal point or an exponent (`3.0`, `3e0`) throws `FormatException` |
| TestCaseBase.ConfiguredAttemptsOfInteger | Infrastructure.Core/TestCaseBase.cs:91-93 | a 32-bit integer stored under "NumberOfAttempts" overrides the setting |
| TestCaseBase.DriverPath | Infrastructure.Core/TestCaseBase.cs:505-508 | when the "WebDriver.Endpoint" setting is empty or ".", the path is the current directory; any other setting is passed on unchanged |
| TestCaseBase.DriverPathOfSetting | Infrastructure.Core/TestCaseBase.cs:490-508 | a missing "WebDriver.Endpoint" (read with the default ".") gives the current directory; a stored non-empty string other than "." is the path |
| TestCaseBase.PhaseFailure | Infrastructure.Core/TestCaseBase.cs:400-414 | a phase records an exception exactly when it caught one, wrapped in the phase's exception type, with the caught exception's base message as reason |
| TestCaseBase.InconclusiveError | Infrastructure.Core/TestCaseBase.cs:284-297 | an inconclusive attempt escapes as `AssertInconclusiveException` with the given inner exception |
| TestCaseBase.CatchFiltersDisjoint | Infrastructure.Core/TestCaseBase.cs:284-309 | no exception type passes both the inconclusive filter and the lifecycle filter, and none is both a `NotImplementedException` and an `AssertInconclusiveException`, so the order of the clauses does not matter |
| TestCaseBase.BodyVerdict | Infrastructure.Core/TestCaseBase.cs:272-329 | the attempt passes exactly when the body returns; an exception that `is` a `NotImplementedException` makes it inconclusive, keeping the inner exception; one that `is` an `AssertInconclusiveException` makes it inconclusive; one that `is` a lifecycle exception is re-thrown; any other exception fails it, in both directions |
| TestCaseBase.SubclassCaughtLikeBase | Infrastructure.Core/TestCaseBase.cs:284-298 | an exception of a subclass is caught by the same clause as one of its base type: same verdict kind (fail, inconclusive, re-thrown) |
| TestCaseBase.Classify | Infrastructure.Core/TestCaseBase.cs:256-266 | a failed setup makes the attempt inconclusive whatever the body would do; otherwise the body decides; the attempt passes exactly when setup and body both succeed |
| TestCaseBase.BodyException | Infrastructure.Core/TestCaseBase.cs:223-240 | the record of a body exception carries the exception, its base message, the attempt, the context properties and the display name |
| TestCaseBase.WithoutScreenshots | Infrastructure.Core/TestCaseBase.cs:223-240 | each record keeps everything but the screenshot |
| TestCaseBase.WithoutScreenshotsConcat | Infrastructure.Core/TestCaseBase.cs:128 | dropping screenshots commutes with appending exception lists |
| TestCaseBase.AppendTeardownExceptions | Infrastructure.Core/TestCaseBase.cs:330-344 | the teardown's exception, which has no screenshot, is appended after the attempt's exceptions |
| TestCaseBase.AttemptTraceCounts | Infrastructure.Core/TestCaseBase.cs:330-344 | one attempt runs teardown exactly once and never sleeps |
| TestCaseBase.RunTraceCounts | Infrastructure.Core/TestCaseBase.cs:113-213 | `k` attempts run teardown exactly `k` times and sleep exactly `k - 1` times |
| TestCaseBase.BodyRunsOnlyAfterSetup | Infrastructure.Core/TestCaseBase.cs:256-272 | the body of attempt `i` runs exactly when attempt `i` was made and its setup succeeded |
| TestCaseBase.DictionaryOrEmpty | Infrastructure.Core/TestCaseBase.cs:138-148 | a missing entry gives a fresh dictionary, a dictionary gives itself, and any other value gives null |
| TestCaseBase.ApplyMetricsKeepsOtherKeys | Infrastructure.Extensions/FrameworkExtensions.cs:29-53 | recording any sequence of metrics changes no `TestData` entry but "Metrics" |
| TestCaseBase.ApplyMetricsLastWriteWins | Infrastructure.Extensions/FrameworkExtensions.cs:29-53 | after a sequence of `AddMetrics` calls, each metric holds the value it was written with last |
| TestCaseBase.RunKeepsOtherKeys | Infrastructure.Core/TestCaseBase.cs:113-216 | over a whole run, the scripted phases change no `TestData` entry but "Metrics" |
| TestCaseBase.LastTeardownMetricWins | Infrastructure.Core/TestCaseBase.cs:136-141 | the teardown runs last, so the `Metrics` a run reports holds the value the last attempt's teardown wrote last for a metric |
| TestCaseBase.StartedDriverIsDisposed | Infrastructure.Core/TestCaseBase.cs:375-481 | a driver that starts in an attempt is the web driver and the "Main" driver, and the teardown's clearing disposes it |
| TestCaseBase.FailedBeforeStep | Infrastructure.Core/TestCaseBase.cs:201-212 | a further failed attempt that is followed by its sleep extends the run of failed attempts |
| TestCaseBase.CapturedVerdict | Infrastructure.Core/TestCaseBase.cs:223-312 | a screenshot that throws replaces a failed or re-thrown verdict by the capture's exception, exactly when there is a web driver to capture; a pass or an inconclusive verdict is never affected |
| TestCaseBase.CaptureFailureEndsRun | Infrastructure.Core/TestCaseBase.cs:223-312 | when a driver is configured and the body of a successfully set-up attempt fails but its screenshot throws, the attempt is not retried and the run ends with the capture's exception |
| TestCaseBase.CapturingAfterSetup | Infrastructure.Core/TestCaseBase.cs:484-532 | after a successful setup there is a web driver exactly when a "WebDriver.Type" is configured, provided there was none before when none is configured |
| TestCaseBase.DecisionConcludes | Infrastructure.Core/TestCaseBase.cs:122-213 | the loop goes on exactly after a failed attempt whose sleep returns, and every stop ends the run as `Concludes` says, with the attempt's own result when it completes |
| TestCaseBase.TestCase.Decide | Infrastructure.Core/TestCaseBase.cs:200-212 | an escaping exception stops the run; a passed result breaks the loop; a failed one goes on, sleeping the interval unless it was the last attempt; a sleep below -1 throws and -1 blocks |
| TestCaseBase.TestCase.constructor | Infrastructure.Core/TestCaseBase.cs:29-45 | a test case holds the context, the environment and the settings that were read |
| TestCaseBase.TestCase.SetEnvironment | Infrastructure.Core/TestCaseBase.cs:71-82 | the environment is taken over, a null `TestParameters` becomes empty, `TestData` and the context properties are kept, and the same test case is returned |
| TestCaseBase.TestCase.Perform | Infrastructure.Core/TestCaseBase.cs:272 | a call into user code records its metrics in order and advances the clock by its time |
| TestCaseBase.TestCase.InitializeDriver | Infrastructure.Core/TestCaseBase.cs:484-532 | without "WebDriver.Type" nothing happens; otherwise the factory's request is made and the started driver becomes the web driver and "Main"; factory and start failures are re-thrown |
| TestCaseBase.TestCase.Setup | Infrastructure.Core/TestCaseBase.cs:375-426 | the phase never throws; it is named "Setup", succeeds exactly when it records no exception, records the driver or `OnSetup` failure wrapped in `TestSetupException`, and its duration is end minus start; a driver that starts becomes the web driver and "Main"; `OnSetup`'s metrics reach `TestData` only when driver initialisation succeeded; nothing is disposed |
| TestCaseBase.TestCase.Teardown | Infrastructure.Core/TestCaseBase.cs:428-481 | the phase never throws; it is named "Teardown", records the `OnTearDown` failure wrapped in `TestTeardownException`, and has duration end minus start; `OnTearDown`'s metrics reach `TestData`; then the drivers are cleared: the web driver is disposed and kept, and the registered drivers are disposed and emptied exactly when no dispose fails, as `ClearDrivers` states |
| TestCaseBase.TestCase.RunBody | Infrastructure.Core/TestCaseBase.cs:223-329 | the body passes or fails as `BodyVerdict` says; failed and re-thrown bodies are recorded with a screenshot; when there is a web driver and its screenshot throws, that exception escapes instead and nothing is recorded; otherwise only inconclusive and re-thrown outcomes escape; the body's metrics reach `TestData` |
| TestCaseBase.TestCase.SetupAndBody | Infrastructure.Core/TestCaseBase.cs:256-329 | setup runs first, a failed setup escapes as inconclusive without running the body, and otherwise the body is classified; the phase times are ordered; `TestData` and the drivers are as setup and body leave them |
| TestCaseBase.TestCase.RunFinally | Infrastructure.Core/TestCaseBase.cs:330-344 | the body's end time and the attempt's exceptions are stored, then teardown runs and is merged, with its exception appended; the drivers are cleared as `Teardown` states |
| TestCaseBase.TestCase.RunAttempt | Infrastructure.Core/TestCaseBase.cs:220-345 | an attempt returns exactly when it passed or failed, with `Passed` as classified and the body's and teardown's exceptions in order; otherwise it raises the classified exception; teardown runs on every path; the phase times are ordered; `TestData` ends as `AttemptTestData` says; the driver started by setup is the web driver, and the clearing disposes it and, unless a dispose fails, empties the registered drivers |
| TestCaseBase.TestCase.Attempt | Infrastructure.Core/TestCaseBase.cs:119-170 | the kept result carries the attempt number, all exceptions so far, the metrics, auditable actions and search time from `TestData`, and the test's names; `TestData` ends as `AttemptTestData` says |
| TestCaseBase.TestCase.AttemptStep | Infrastructure.Core/TestCaseBase.cs:122-213 | the loop goes on exactly after a failed attempt whose sleep returns; it breaks after a pass; it ends with the exception of an inconclusive or re-thrown attempt; a negative sleep throws or blocks |
| TestCaseBase.TestCase.Iteration | Infrastructure.Core/TestCaseBase.cs:113-213 | after writing the attempt number, one iteration either ends the run as `Concludes` says or keeps the loop's invariant for the next attempt, including the test data after the attempts so far |
| TestCaseBase.TestCase.AllAttemptsFailed | Infrastructure.Core/TestCaseBase.cs:113-216 | when the attempts run out, all of them failed and the run completes with the last result and every exception |
| TestCaseBase.TestCase.RunAttempts | Infrastructure.Core/TestCaseBase.cs:113-216 | attempts 1, 2, ... run in order until one passes or none are left; all before the last failed and slept; the run ends as the last attempt's verdict says, with all exceptions in order and the phases traced; `TestData` ends as `RunTestData` says for the attempts made |
| TestCaseBase.TestCase.Invoke | Infrastructure.Core/TestCaseBase.cs:88-217 | the number of attempts comes from "NumberOfAttempts" when present, and a value that does not parse ends the run with the parse error; zero or fewer attempts return a fresh failed result; a missing report node throws; otherwise the run is `RunAttempts`, with the attempt number left in `TestContext.Properties`; `TestData`, from which the result's metrics, auditable actions and search time are read, ends as `RunTestData` says |

## Left out

- **ExtentReports and logging.** `CreateNode`, `Info`, `Pass`, `Fail`, `Warning`, `AddScreenCapture` and `TestContext.WriteLine` have no effect in the model. The report node matters only as a null check.
- TestCaseBase.HasReportNode: the `as ExtentTest` cast also accepts subclasses of `ExtentTest`; the model has no type hierarchy for report objects, so only a value tagged exactly as an `ExtentTest` counts as a report node.
- **Reflection.** The model leaves out reflection and stack walking: `GetSuiteDisplayName`, `GetTestDisplayName`, `GetTestMethod`, `GetSuite`, `NewTestRun` and `GetExtentReports`. The display name is a field of the test context.
- **Model registry scan.** The AppDomain scan that fills the `ModelFactory` cache is replaced by a given list of model types. Duplicate names, which make `ToDictionary` throw, are excluded by a precondition of `CacheOf`.
- **Instance creation.** `Activator.CreateInstance` is foreign. The factory's result is the constructor call, and the exception it throws is given.
- **Selenium plumbing.** Driver construction, disposal, screenshots and navigation are opaque handles and requests. A screenshot either succeeds or throws, as the attempt's script says; its image is not modelled.
  - The Selenium `DriverService` base constructor is not modelled.
  - `PortUtilities.FindFreePort` is a parameter.
  - `GenerateDesiredCapabilities` is a parameter.
- **Direct remote drivers.** `DriverFactory.New(Uri, options)` and `NewDriver(Uri)` build a `RemoteWebDriver` directly, with no decision, and are not modelled.
- **Time.** `DateTime.Now`, `Stopwatch` and `Thread.Sleep` are an abstract clock. `Sleep(100)` in `Until` advances it by exactly 100 ms. `Thread.Sleep(Timeout.Infinite)` is the outcome `Blocked`. Times are integers counted from the clock's origin, which is `DateTime.MinValue`.
- **64-bit wrap-around.** `UiControllerHandler.WithSearchTime` does not model 64-bit wrap-around of the tick counter, because integers are unbounded. `ModelBase.AuditedTestData` takes the same view of durations.
- **32-bit loop counter.** `TestCaseBase.TestCase.RunAttempts`: the loop counter is unbounded, so the overflow of `attempt++` at `int.MaxValue` is not modelled.
- **JSON text.** The JSON overloads of the upserts take the already parsed pairs.
  - The text-to-pairs step is not modelled, and neither is the `foreach` over a JSON `null` that throws.
  - `WriteMetrics`, `JsonOptions` and the serialisation converters are not modelled.
  - `Serialize` states which fields reach the output, not the JSON text.
- **Number formatting.** `$"{value}"` of a double is exact only for integral values below 10^15, which print their digits. Every other double prints a fixed placeholder that is never an integer: .NET prints such doubles with a decimal point or an exponent, which `int.Parse` rejects. A JSON number prints the raw text of its token. The model does not check that this text spells the number's value.
- **Case folding.** It covers ASCII letters only.
- **Uri validity.** `new Uri(driverPath)` is not checked.
- **Aliasing.** Nothing else holds references to the dictionaries.
  - The capabilities' "uia:options" is a copy of the options dictionary at that moment.
  - The anonymous `{ app = "Desktop" }` object is modelled by its one member.
- **User actions.** User code changes `TestData` only through `AddMetrics`. The action inside `AuditableAction` changes no dictionary.
- **`ModelBase.SwitchModel`.** Its overloads only log and call `ModelFactory.New`, which is modelled.
- **Constructor overloads.** The three-argument `UiaDriverService` constructor is `UiaDriverService.New` with an empty `dotnetPath`. The `UiControllerHandlerBase(setupModel, query)` and `(setupModel, timeout)` overloads are `UiControllerHandler.New` with the default timeout or an empty query.
- **Setter types.** The typed `UiaOptions` setters require a value of the property's type, which the C# compiler enforces. The getters model their cast, including its failure.
- **Other files.** `HandlerBase`, `UiaExtensions`, `SeleniumExtension`, `UiaDriver`, `IFluentModel`, the page models and handlers, `Utilities`, `AppSettings` and `TestSuiteBase` are not part of this model.
- **Exception type tests.** `catch` filters and `is` follow a declared single-inheritance relation, `Derived`; the .NET hierarchy among the built-in types (that `AssertInconclusiveException` and `AssertFailedException` share `UnitTestAssertException`, for instance) is not modelled, as no filter of the core names a shared base. `UiaWaiter` compares exact types, as its source does.
- TestCaseBase.TestCase.SetEnvironment: in the model `TestData` is never null, so its `??=` default is not modelled; and the `OrdinalIgnoreCase` comparer of the new dictionaries is not modelled: every dictionary compares keys ordinally, so a `TestParameters` dictionary created here would tell "Key" and "key" apart, which the source does not.
- **Concurrency.** The engine is single-threaded, and so is the model.
