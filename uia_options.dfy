/** `UiaOptions`: the options of the UI Automation driver. Its typed
    properties live in one string-keyed dictionary, which travels to the
    driver as the "uia:options" capability. */
module UiaOptions {
  import opened Wrappers
  import opened Exceptions
  import opened Values
  import DotnetExtensions

  /** The typed properties that are stored in the options dictionary. */
  datatype Property = App | Arguments | Impersonation | Label | Mount | WorkingDirectory

  /** The dictionary key of a property. */
  function Key(p: Property): string {
    match p
    case App => "app"
    case Arguments => "arguments"
    case Impersonation => "impersonation"
    case Label => "label"
    case Mount => "mount"
    case WorkingDirectory => "workingDirectory"
  }

  /** The declared type of a property. */
  function TypeOf(p: Property): TypeTag {
    match p
    case Arguments => StringsType
    case Impersonation => ImpersonationType
    case Mount => BoolType
    case _ => StringType
  }

  /** Every property has its own key, so writing one never touches another. */
  lemma KeysAreDistinct(p: Property, q: Property)
    ensures Key(p) == Key(q) <==> p == q
  {
  }

  /** `GetOption<T>(key)`: the stored value cast to `T`, or `default(T)`
      when the key is missing. */
  function GetOption(options: map<string, Value>, key: string, t: TypeTag): (r: Result<Value, Exception>)
    ensures key !in options ==> r == Success(DefaultOf(t))
    ensures key in options && HasType(options[key], t) ==> r == Success(options[key])
    ensures key in options && !HasType(options[key], t) ==> r.Failure?
  {
    DotnetExtensions.Get(options, key, t)
  }

  /** The getter of property `p`. */
  function PropertyValue(options: map<string, Value>, p: Property): Result<Value, Exception> {
    GetOption(options, Key(p), TypeOf(p))
  }

  /** A property that was set reads back the value it was set to. */
  lemma GetAfterSet(options: map<string, Value>, p: Property, value: Value)
    requires HasType(value, TypeOf(p))
    ensures PropertyValue(options[Key(p) := value], p) == Success(value)
  {
  }

  /** Setting one property leaves every other property as it was. */
  lemma SetKeepsOtherProperties(options: map<string, Value>, p: Property, q: Property, value: Value)
    requires p != q
    ensures PropertyValue(options[Key(p) := value], q) == PropertyValue(options, q)
  {
    KeysAreDistinct(p, q);
  }

  /** On a new options object every property reads as its type's default:
      null strings, a null array, null impersonation, `Mount == false`. */
  lemma NewOptionsReadDefaults(p: Property)
    ensures PropertyValue(map[], p) == Success(DefaultOf(TypeOf(p)))
    ensures PropertyValue(map[], p) == Success(if p == Mount then Bool(false) else Null)
  {
  }

  class UiaOptions {
    /** `UiaOptionsDictionary`. */
    var options: map<string, Value>
    /** `BinaryLocation`, an auto-property outside the dictionary. */
    var binaryLocation: Option<string>

    /** `new UiaOptions()`: an empty dictionary. */
    constructor ()
      ensures options == map[] && binaryLocation.None?
    {
      options := map[];
      binaryLocation := None;
    }

    /** The getter of property `p`. */
    function Get(p: Property): (r: Result<Value, Exception>)
      reads this
      ensures r == PropertyValue(options, p)
    {
      GetOption(options, Key(p), TypeOf(p))
    }

    /** `SetOption(key, value)`: writes the dictionary entry. */
    method SetOption(key: string, value: Value)
      modifies this
      ensures options == old(options)[key := value]
      ensures binaryLocation == old(binaryLocation)
    {
      options := options[key := value];
    }

    /** The setter of property `p`, with a value of the property's type. */
    method Set(p: Property, value: Value)
      requires HasType(value, TypeOf(p))
      modifies this
      ensures options == old(options)[Key(p) := value]
      ensures Get(p) == Success(value)
      ensures forall q :: q != p ==> Get(q) == old(Get(q))
      ensures binaryLocation == old(binaryLocation)
    {
      SetOption(Key(p), value);
      GetAfterSet(old(options), p, value);
      forall q | q != p
        ensures Get(q) == old(Get(q))
      {
        SetKeepsOtherProperties(old(options), p, q, value);
      }
    }

    /** The setter of `BinaryLocation`: the dictionary is not touched. */
    method SetBinaryLocation(location: Option<string>)
      modifies this
      ensures binaryLocation == location
      ensures options == old(options)
    {
      binaryLocation := location;
    }

    /** `ToCapabilities()`, given what `GenerateDesiredCapabilities(true)`
        produces: "browserName" becomes "uia", "platformName" "windows", and
        "uia:options" the options dictionary; every other capability stays. */
    method ToCapabilities(desired: map<string, Value>) returns (c: map<string, Value>)
      ensures "browserName" in c && c["browserName"] == Str("uia")
      ensures "platformName" in c && c["platformName"] == Str("windows")
      ensures "uia:options" in c && c["uia:options"] == Dict(options)
      ensures c.Keys == desired.Keys + {"browserName", "platformName", "uia:options"}
      ensures forall k :: k in desired && k !in {"browserName", "platformName", "uia:options"} ==> c[k] == desired[k]
    {
      c := desired;
      c := c["browserName" := Str("uia")];
      c := c["platformName" := Str("windows")];
      c := c["uia:options" := Dict(options)];
    }

    /** `DefaultCapabilities()`: like `ToCapabilities`, but under the key
        "platform", and with options that only name the desktop as the
        application (an anonymous object, kept here by its members). */
    method DefaultCapabilities(desired: map<string, Value>) returns (c: map<string, Value>)
      ensures "browserName" in c && c["browserName"] == Str("uia")
      ensures "platform" in c && c["platform"] == Str("windows")
      ensures "uia:options" in c && c["uia:options"] == Dict(map["app" := Str("Desktop")])
      ensures c.Keys == desired.Keys + {"browserName", "platform", "uia:options"}
      ensures forall k :: k in desired && k !in {"browserName", "platform", "uia:options"} ==> c[k] == desired[k]
    {
      c := desired;
      c := c["browserName" := Str("uia")];
      c := c["platform" := Str("windows")];
      c := c["uia:options" := Dict(map["app" := Str("Desktop")])];
    }
  }
}
