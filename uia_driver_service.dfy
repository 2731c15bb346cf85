/** `UiaDriverService`: the command line that starts the UI Automation
    driver server, either as a native executable or as a .NET assembly run
    by `dotnet`. Starting the process and finding a free port are foreign:
    the port is a parameter. Paths follow Windows rules. */
module UiaDriverService {
  import opened Wrappers
  import opened Exceptions
  import opened Text
  import opened Values
  import Numbers
  import UiaOptions

  /** What the service runs: the directory of the executable
      (`DriverServicePath`), the executable (`DriverServiceExecutableName`)
      and its arguments (`CommandLineArguments`). */
  datatype ServiceCommand = ServiceCommand(path: Option<string>, executable: string, arguments: string)

  /** `$"--port {port}"`. */
  function PortArguments(port: int): string {
    "--port " + Numbers.FormatInt(port)
  }

  /** The command of `new UiaDriverService(servicePath, port, name, dotnetPath)`.
      A name that does not end in ".dll" (a case-sensitive test) runs as it
      is, with only the port. A ".dll" runs through `dotnet` in `dotnetPath`,
      with the assembly's full path before the port; `Path.Combine` throws
      `ArgumentNullException` when one of the two paths is null. */
  function CommandFor(servicePath: Option<string>, port: int, name: string, dotnetPath: Option<string>): (r: Result<ServiceCommand, Exception>)
    ensures !EndsWith(name, ".dll") ==> r == Success(ServiceCommand(servicePath, name, PortArguments(port)))
    ensures EndsWith(name, ".dll") ==> (r.Failure? <==> dotnetPath.None? || servicePath.None?)
    ensures r.Failure? ==> r.error == Raise(ArgumentNull)
    ensures EndsWith(name, ".dll") && r.Success? ==>
              r.value.path == dotnetPath &&
              r.value.executable == Combine(dotnetPath.value, "dotnet") &&
              r.value.arguments == Combine(servicePath.value, name) + " " + PortArguments(port)
  {
    if !EndsWith(name, ".dll") then Success(ServiceCommand(servicePath, name, PortArguments(port)))
    else if dotnetPath.None? || servicePath.None? then Failure(Raise(ArgumentNull))
    else Success(ServiceCommand(dotnetPath, Combine(dotnetPath.value, "dotnet"),
                                Combine(servicePath.value, name) + " " + PortArguments(port)))
  }

  /** Every command ends with the port argument, and the port reads back
      from it (`int.Parse` of the digits after "--port "). */
  lemma CommandEndsWithPort(servicePath: Option<string>, port: int, name: string, dotnetPath: Option<string>)
    requires CommandFor(servicePath, port, name, dotnetPath).Success?
    ensures EndsWith(CommandFor(servicePath, port, name, dotnetPath).value.arguments, PortArguments(port))
    ensures Numbers.ParseInt32(PortArguments(port)[|"--port "|..]) ==
            if Numbers.InInt32(port) then Numbers.Parsed(port) else Numbers.Overflow
  {
    var args := CommandFor(servicePath, port, name, dotnetPath).value.arguments;
    if EndsWith(name, ".dll") {
      var head := Combine(servicePath.value, name) + " ";
      assert args == head + PortArguments(port);
      assert args[|args| - |PortArguments(port)|..] == PortArguments(port);
    }
    assert PortArguments(port)[|"--port "|..] == Numbers.FormatInt(port);
    Numbers.ParseFormatRoundTrip(port);
  }

  /** A ".dll" command runs `dotnet` and hands it the assembly's path in
      the service path, then the port. */
  lemma AssemblyRunsThroughDotnet(servicePath: string, port: int, name: string, dotnetPath: string)
    requires EndsWith(name, ".dll")
    ensures CommandFor(Some(servicePath), port, name, Some(dotnetPath)).Success?
    ensures EndsWith(CommandFor(Some(servicePath), port, name, Some(dotnetPath)).value.executable, "dotnet")
    ensures StartsWith(CommandFor(Some(servicePath), port, name, Some(dotnetPath)).value.arguments,
                       Combine(servicePath, name) + " ")
  {
    PrefixOfConcat(Combine(servicePath, name) + " ", PortArguments(port));
  }

  lemma PrefixOfConcat(a: string, b: string)
    ensures StartsWith(a + b, a)
  {
    assert (a + b)[..|a|] == a;
  }

  const ExeName: string := "Uia.DriverServer.exe"
  const DllName: string := "Uia.DriverServer.dll"

  /** The executable `NewDefaultService` picks: the assembly exactly when a
      `dotnetPath` is given. */
  function DefaultExecutableName(dotnetPath: Option<string>): (name: string)
    ensures EndsWith(name, ".dll") <==> !IsNullOrEmpty(dotnetPath)
  {
    assert !EndsWith(ExeName, ".dll") by {
      assert ExeName[|ExeName| - 4..] == ".exe";
    }
    assert EndsWith(DllName, ".dll") by {
      assert DllName[|DllName| - 4..] == ".dll";
    }
    if !IsNullOrEmpty(dotnetPath) then DllName else ExeName
  }

  /** `NewDefaultService()` and `NewDefaultService(servicePath)` pass a null
      `dotnetPath`, so they always run the native executable with the port. */
  lemma DefaultServiceWithoutDotnet(servicePath: Option<string>, port: int)
    ensures CommandFor(servicePath, port, DefaultExecutableName(None), None) ==
            Success(ServiceCommand(servicePath, ExeName, PortArguments(port)))
  {
  }

  /** With a `dotnetPath` and a service path, the default service runs the
      assembly through `dotnet`; without a service path, combining the
      assembly's path throws. */
  lemma DefaultServiceWithDotnet(servicePath: Option<string>, port: int, dotnetPath: string)
    requires dotnetPath != ""
    ensures servicePath.None? ==>
              CommandFor(servicePath, port, DefaultExecutableName(Some(dotnetPath)), Some(dotnetPath)).Failure?
    ensures servicePath.Some? ==>
              CommandFor(servicePath, port, DefaultExecutableName(Some(dotnetPath)), Some(dotnetPath)) ==
              Success(ServiceCommand(Some(dotnetPath), Combine(dotnetPath, "dotnet"),
                                     Combine(servicePath.value, DllName) + " " + PortArguments(port)))
  {
  }

  class UiaDriverService {
    var driverServicePath: Option<string>
    var executableName: string
    const port: int
    const commandLineArguments: string

    /** `new UiaDriverService(servicePath, port, name, dotnetPath)` when it
        does not throw. The base constructor stores the path, the port and
        the name; for a ".dll" the body then replaces the path and the name. */
    constructor (servicePath: Option<string>, port: int, name: string, dotnetPath: Option<string>)
      requires CommandFor(servicePath, port, name, dotnetPath).Success?
      ensures this.port == port
      ensures CommandFor(servicePath, port, name, dotnetPath) ==
              Success(ServiceCommand(driverServicePath, executableName, commandLineArguments))
    {
      this.port := port;
      if !EndsWith(name, ".dll") {
        driverServicePath := servicePath;
        executableName := name;
        commandLineArguments := PortArguments(port);
      } else {
        commandLineArguments := Combine(servicePath.value, name) + " " + PortArguments(port);
        driverServicePath := dotnetPath;
        executableName := Combine(dotnetPath.value, "dotnet");
      }
    }

    /** `GetDefaultDriverOptions()`: options whose only entry is `App = "Desktop"`. */
    method DefaultDriverOptions() returns (o: UiaOptions.UiaOptions)
      ensures fresh(o)
      ensures o.options == map["app" := Str("Desktop")]
      ensures o.Get(UiaOptions.App) == Success(Str("Desktop"))
      ensures o.binaryLocation.None?
    {
      o := new UiaOptions.UiaOptions();
      o.Set(UiaOptions.App, Str("Desktop"));
    }
  }

  /** The constructor, including the case in which it throws. */
  method New(servicePath: Option<string>, port: int, name: string, dotnetPath: Option<string>)
    returns (r: Result<UiaDriverService, Exception>)
    ensures r.Failure? ==> CommandFor(servicePath, port, name, dotnetPath) == Failure(r.error)
    ensures r.Success? ==>
              fresh(r.value) && r.value.port == port &&
              CommandFor(servicePath, port, name, dotnetPath) ==
              Success(ServiceCommand(r.value.driverServicePath, r.value.executableName, r.value.commandLineArguments))
  {
    var command := CommandFor(servicePath, port, name, dotnetPath);
    if command.Failure? {
      return Failure(command.error);
    }
    var service := new UiaDriverService(servicePath, port, name, dotnetPath);
    r := Success(service);
  }

  /** `NewDefaultService(servicePath, dotnetPath)` on the port that
      `PortUtilities.FindFreePort()` returned. */
  method NewDefaultService(servicePath: Option<string>, dotnetPath: Option<string>, freePort: int)
    returns (r: Result<UiaDriverService, Exception>)
    ensures r.Failure? <==> !IsNullOrEmpty(dotnetPath) && servicePath.None?
    ensures r.Success? ==>
              fresh(r.value) && r.value.port == freePort &&
              CommandFor(servicePath, freePort, DefaultExecutableName(dotnetPath), dotnetPath) ==
              Success(ServiceCommand(r.value.driverServicePath, r.value.executableName, r.value.commandLineArguments))
  {
    r := New(servicePath, freePort, DefaultExecutableName(dotnetPath), dotnetPath);
  }
}
