/** The dynamically typed values that the core keeps in its property bags
    (`TestContext.Properties`, `ContextProperties`, `TestData`), C#'s `is`
    test and cast on them, and the opaque handles for drivers. */
module Values {
  import opened Wrappers
  import opened Exceptions
  import Numbers

  /** A `System.Text.Json.JsonElement` by its value kind. A number keeps
      the raw text of its token (`3`, `3.0` and `3e0` are three tokens) next
      to the value `GetDouble()` reads from it. */
  datatype JsonElement =
    | JString(text: string)
    | JNumber(raw: string, number: real)
    | JTrue
    | JFalse
    | JArray(items: seq<JsonElement>)
    | JObject(members: seq<(string, JsonElement)>)
    | JNull
    | JUndefined

  /** The browser a Selenium options class belongs to (`ChromeOptions`, `FirefoxOptions`, ...). */
  datatype Browser = Chrome | Firefox | Edge | Safari | Uia

  /** A Selenium `DriverOptions` object: its concrete class, the two name
      properties the driver factory reads, and its command-line arguments. */
  datatype DriverOptions = DriverOptions(
    kind: Browser,
    browserName: Option<string>,
    platformName: Option<string>,
    arguments: seq<string>)

  /** An opaque web-driver handle; `serial` tells drivers apart. */
  datatype Driver = Driver(serial: nat)

  /** An opaque `IWebElement` handle. */
  datatype Element = Element(id: nat)

  /** A boxed `object`. `Dict` is a `Dictionary<string, object>`,
      `Strings` a `string[]`, `ImpersonationObject` a `UiaOptions.ImpersonationOptions`
      object; `Other` any object of a type the core never tests for. */
  datatype Value =
    | Null
    | Str(s: string)
    | Int(i: int)
    | Long(l: int)
    | Double(d: real)
    | Bool(b: bool)
    | Dict(entries: map<string, Value>)
    | Json(element: JsonElement)
    | Options(options: DriverOptions)
    | Strings(items: seq<string>)
    | ImpersonationObject(domain: Option<string>, username: Option<string>, password: Option<string>, enabled: bool)
    | Other(typeName: string)

  /** The types `T` the core asks for in `x is T`, `(T)x` and `default(T)`. */
  datatype TypeTag =
    | StringType
    | IntType
    | LongType
    | DoubleType
    | BoolType
    | DictType
    | JsonType
    | OptionsType
    | StringsType
    | ImpersonationType
    | ObjectType

  /** Value types cannot hold `null`; `JsonElement` is a struct. */
  predicate IsValueType(t: TypeTag) {
    t.IntType? || t.LongType? || t.DoubleType? || t.BoolType? || t.JsonType?
  }

  /** C#'s `v is T`: false for `null`, otherwise an exact match of the boxed type
      (every options class is a `DriverOptions`, every object an `object`). */
  predicate Is(v: Value, t: TypeTag) {
    match t
    case StringType => v.Str?
    case IntType => v.Int?
    case LongType => v.Long?
    case DoubleType => v.Double?
    case BoolType => v.Bool?
    case DictType => v.Dict?
    case JsonType => v.Json?
    case OptionsType => v.Options?
    case StringsType => v.Strings?
    case ImpersonationType => v.ImpersonationObject?
    case ObjectType => !v.Null?
  }

  /** The values a variable of type `T` can hold. */
  predicate HasType(v: Value, t: TypeTag) {
    Is(v, t) || (v.Null? && !IsValueType(t))
  }

  /** `default(T)`. */
  function DefaultOf(t: TypeTag): (r: Value)
    ensures HasType(r, t)
    ensures IsValueType(t) <==> !r.Null?
  {
    match t
    case IntType => Int(0)
    case LongType => Long(0)
    case DoubleType => Double(0.0)
    case BoolType => Bool(false)
    case JsonType => Json(JUndefined)
    case _ => Null
  }

  /** The cast `(T)v` of a boxed object: the object itself when it has type
      `T`; unboxing `null` into a value type throws `NullReferenceException`,
      any other mismatch `InvalidCastException`. */
  function Cast(v: Value, t: TypeTag): (r: Result<Value, Exception>)
    ensures r.Success? <==> HasType(v, t)
    ensures r.Success? ==> r.value == v
    ensures r.Failure? ==> r.error == Raise(if v.Null? then NullReference else InvalidCast)
  {
    if HasType(v, t) then Success(v)
    else if v.Null? then Failure(Raise(NullReference))
    else Failure(Raise(InvalidCast))
  }

  /** The text `$"{v}"` gives for the values whose text form the core relies
      on: `null` is empty, a string is itself, an integer its decimal digits,
      a boolean "True" or "False", a JSON string or number element its raw
      text, an object of an untested type its type name. A double with an
      integral value below 10^15 prints its digits; the other doubles, JSON
      arrays and objects, dictionaries and options objects print a text that
      is never an integer, which is all the core ever asks of it; the model
      writes a fixed placeholder for them. */
  function ToText(v: Value): string {
    match v
    case Null => ""
    case Str(s) => s
    case Int(i) => Numbers.FormatInt(i)
    case Long(l) => Numbers.FormatInt(l)
    case Bool(b) => if b then "True" else "False"
    case Double(d) => DoubleText(d)
    case Json(e) => JsonText(e)
    case Dict(_) => "System.Collections.Generic.Dictionary`2[System.String,System.Object]"
    case Options(o) => "(driver options)"
    case Strings(_) => "System.String[]"
    case ImpersonationObject(_, _, _, _) => "Uia.Client.UiaOptions+ImpersonationOptions"
    case Other(typeName) => typeName
  }

  /** `JsonElement.ToString()`: a string element gives its text, `true` and
      `false` give "True" and "False", null and undefined the empty text, a
      number its raw text (here that of the double it holds). */
  function JsonText(e: JsonElement): string {
    match e
    case JString(t) => t
    case JNumber(raw, _) => raw
    case JTrue => "True"
    case JFalse => "False"
    case JNull => ""
    case JUndefined => ""
    case _ => "(json)"
  }

  /** Shortest round-trip text of a double, exact for integral values below 10^15. */
  function DoubleText(d: real): string {
    var whole := d.Floor;
    if whole as real == d && -1_000_000_000_000_000 < whole < 1_000_000_000_000_000
    then Numbers.FormatInt(whole)
    else "(double)"
  }
}
