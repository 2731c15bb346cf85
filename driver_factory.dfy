/** `DriverFactory`: which Selenium driver is built for a driver type, a
    driver path and optional options. Building the driver itself is foreign
    code; the model produces the request the factory hands to it, or the
    exception the selection throws. */
module DriverFactory {
  import opened Wrappers
  import opened Text
  import opened Exceptions
  import opened Values

  /** The driver constructor the factory calls: a `RemoteWebDriver` at
      `address`, or the local driver class of `browser` at `address`
      (the driver directory), each with the options it passes. */
  datatype DriverRequest = DriverRequest(remote: bool, browser: Browser, address: string, options: DriverOptions)

  /** `Regex.IsMatch(driverPath, "^http(s)?://")`, which is case-sensitive. */
  predicate IsRemote(driverPath: string) {
    StartsWith(driverPath, "http://") || StartsWith(driverPath, "https://")
  }

  /** The `switch` over `driverType.ToUpper()`: FIREFOX, EDGE, SAFARI and UIA
      select their browsers, anything else selects Chrome. */
  function SelectBrowser(driverType: string): (b: Browser)
    ensures b == Firefox <==> Upper(driverType) == "FIREFOX"
    ensures b == Edge <==> Upper(driverType) == "EDGE"
    ensures b == Safari <==> Upper(driverType) == "SAFARI"
    ensures b == Uia <==> Upper(driverType) == "UIA"
  {
    var t := Upper(driverType);
    if t == "FIREFOX" then Firefox
    else if t == "EDGE" then Edge
    else if t == "SAFARI" then Safari
    else if t == "UIA" then Uia
    else Chrome
  }

  /** The selection ignores case: driver types that differ only in case
      select the same browser. */
  lemma SelectBrowserIgnoresCase(a: string, b: string)
    requires EqualsIgnoreCase(a, b)
    ensures SelectBrowser(a) == SelectBrowser(b)
  {
    EqualsIgnoreCaseIffSameUpper(a, b);
  }

  /** A driver type that is not one of the four names, in any case, selects Chrome. */
  lemma UnknownTypeSelectsChrome(driverType: string)
    requires Upper(driverType) !in {"FIREFOX", "EDGE", "SAFARI", "UIA"}
    ensures SelectBrowser(driverType) == Chrome
  {
  }

  /** The arguments every default `ChromeOptions` of the factory carries. */
  const DefaultChromeArguments: seq<string> := [
    "--user-data-dir=C:\\temp",
    "--disable-extensions",
    "--disable-gpu",
    "--disable-dev-shm-usage",
    "--no-sandbox"]

  /** The options used when none are given: a fresh options object of the
      browser's class, and for Chrome the five fixed arguments. */
  function DefaultOptions(browser: Browser): (o: DriverOptions)
    ensures o.kind == browser
    ensures o.platformName.None?
    ensures o.arguments == if browser == Chrome then DefaultChromeArguments else []
  {
    DriverOptions(browser, None, None, if browser == Chrome then DefaultChromeArguments else [])
  }

  /** The driver type the factory switches on: the given one, or, when it is
      null or empty, the options' `PlatformName` (remote) or `BrowserName`
      (local), which is null when there are no options. */
  function EffectiveType(driverType: Option<string>, remote: bool, options: Option<DriverOptions>): (r: Option<string>)
    ensures !IsNullOrEmpty(driverType) ==> r == driverType
    ensures IsNullOrEmpty(driverType) && options.None? ==> r.None?
    ensures IsNullOrEmpty(driverType) && options.Some? ==>
              r == if remote then options.value.platformName else options.value.browserName
  {
    if !IsNullOrEmpty(driverType) then driverType
    else if options.None? then None
    else if remote then options.value.platformName
    else options.value.browserName
  }

  /** `New(driverType, driverPath, options)`. Upper-casing a null driver type
      throws `NullReferenceException`. A remote driver takes any options; a
      local driver casts them to its browser's options class, which throws
      `InvalidCastException` for options of another browser. */
  function New(driverType: Option<string>, driverPath: string, options: Option<DriverOptions>): (r: Result<DriverRequest, Exception>)
    ensures r.Success? ==> r.value.remote == IsRemote(driverPath) && r.value.address == driverPath
    ensures r.Success? ==> r.value.options == if options.Some? then options.value else DefaultOptions(r.value.browser)
    ensures r.Success? ==> EffectiveType(driverType, IsRemote(driverPath), options).Some?
    ensures r.Success? ==>
              r.value.browser == SelectBrowser(EffectiveType(driverType, IsRemote(driverPath), options).value)
    ensures r.Failure? <==>
              EffectiveType(driverType, IsRemote(driverPath), options).None? ||
              (!IsRemote(driverPath) && options.Some? &&
               options.value.kind != SelectBrowser(EffectiveType(driverType, IsRemote(driverPath), options).value))
    ensures r.Failure? ==> r.error == Raise(NullReference) || r.error == Raise(InvalidCast)
  {
    var remote := IsRemote(driverPath);
    var effective := EffectiveType(driverType, remote, options);
    if effective.None? then Failure(Raise(NullReference))
    else
      var browser := SelectBrowser(effective.value);
      if options.None? then Success(DriverRequest(remote, browser, driverPath, DefaultOptions(browser)))
      else if remote || options.value.kind == browser then Success(DriverRequest(remote, browser, driverPath, options.value))
      else Failure(Raise(InvalidCast))
  }

  /** Without options, a non-empty driver type always yields a driver, with
      the browser's default options. */
  lemma NewWithoutOptionsSucceeds(driverType: string, driverPath: string)
    requires driverType != ""
    ensures New(Some(driverType), driverPath, None).Success?
    ensures New(Some(driverType), driverPath, None).value.options == DefaultOptions(SelectBrowser(driverType))
  {
  }

  /** Local and remote Chrome drivers get the same default options. */
  lemma DefaultChromeOptionsAgree(driverType: string, localPath: string, remotePath: string)
    requires driverType != "" && SelectBrowser(driverType) == Chrome
    requires !IsRemote(localPath) && IsRemote(remotePath)
    ensures New(Some(driverType), localPath, None).value.options ==
            New(Some(driverType), remotePath, None).value.options
    ensures New(Some(driverType), localPath, None).value.options.arguments == DefaultChromeArguments
  {
  }

  /** `New(driverType, driverPath)`: no options. */
  function NewOfType(driverType: Option<string>, driverPath: string): (r: Result<DriverRequest, Exception>)
    ensures r == New(driverType, driverPath, None)
    ensures !IsNullOrEmpty(driverType) ==> r.Success? && r.value.browser == SelectBrowser(driverType.value)
  {
    New(driverType, driverPath, None)
  }

  /** `New(driverPath, options)`: the options' `PlatformName` is the driver
      type; reading it from null options throws `NullReferenceException`. */
  function NewWithOptions(driverPath: string, options: Option<DriverOptions>): (r: Result<DriverRequest, Exception>)
    ensures options.None? ==> r == Failure(Raise(NullReference))
    ensures options.Some? ==> r == New(options.value.platformName, driverPath, options)
    ensures r.Success? ==> r.value.options == options.value
  {
    if options.None? then Failure(Raise(NullReference))
    else New(options.value.platformName, driverPath, options)
  }

  /** A local driver built from options without a platform name is selected
      by the options' browser name. */
  lemma LocalOptionsFallBackToBrowserName(driverPath: string, options: DriverOptions)
    requires !IsRemote(driverPath)
    requires options.platformName.None? && options.browserName.Some?
    requires SelectBrowser(options.browserName.value) == options.kind
    ensures NewWithOptions(driverPath, Some(options)).Success?
    ensures NewWithOptions(driverPath, Some(options)).value.browser == options.kind
  {
  }

  /** A driver service handed to a generic driver constructor. */
  datatype DriverService = DriverService(id: nat)

  /** An argument of the generic driver constructor. */
  datatype ConstructorArgument = ServiceArgument(service: DriverService) | OptionsArgument(options: DriverOptions)

  /** `NewDriver<T>(service, options)`: the service when given, then the
      options when given. */
  function NewDriverArguments(service: Option<DriverService>, options: Option<DriverOptions>): (args: seq<ConstructorArgument>)
    ensures |args| == (if service.Some? then 1 else 0) + (if options.Some? then 1 else 0)
    ensures service.Some? ==> args[0] == ServiceArgument(service.value)
    ensures options.Some? ==> args[|args| - 1] == OptionsArgument(options.value)
    ensures forall i :: 0 <= i < |args| ==> (args[i].ServiceArgument? <==> (i == 0 && service.Some?))
  {
    (if service.Some? then [ServiceArgument(service.value)] else []) +
    (if options.Some? then [OptionsArgument(options.value)] else [])
  }

  /** The generic overloads `New<T>()`, `New<T>(options)`, `New<T>(service)`
      and `New<T>(service, options)` pass what they are given and null for the rest. */
  lemma GenericOverloadArguments(service: DriverService, options: DriverOptions)
    ensures NewDriverArguments(None, None) == []
    ensures NewDriverArguments(None, Some(options)) == [OptionsArgument(options)]
    ensures NewDriverArguments(Some(service), None) == [ServiceArgument(service)]
    ensures NewDriverArguments(Some(service), Some(options)) == [ServiceArgument(service), OptionsArgument(options)]
  {
  }
}
