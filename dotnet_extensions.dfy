/** The defaulting dictionary lookups of `DotnetExtensions`: a casting
    lookup, a type-tested lookup with a default, and the generic lookup
    that first turns JSON elements into plain values. */
module DotnetExtensions {
  import opened Wrappers
  import opened Exceptions
  import opened Values

  /** `Get<T>(dictionary, key)`: `default(T)` for a missing key, otherwise
      the stored value cast to `T`, which throws when the value is not a `T`. */
  function Get(dictionary: map<string, Value>, key: string, t: TypeTag): (r: Result<Value, Exception>)
    ensures key !in dictionary ==> r == Success(DefaultOf(t))
    ensures key in dictionary && HasType(dictionary[key], t) ==> r == Success(dictionary[key])
    ensures key in dictionary && !HasType(dictionary[key], t) ==> r.Failure?
    ensures r.Success? ==> HasType(r.value, t)
  {
    if key !in dictionary then Success(DefaultOf(t)) else Cast(dictionary[key], t)
  }

  /** `Get<T>(dictionary, key, defaultValue)` on a non-generic dictionary:
      the stored value when it is a `T`, the default when the key is
      missing or the value is not a `T` (a stored `null` included). */
  function GetOr(dictionary: map<string, Value>, key: string, defaultValue: Value, t: TypeTag): (r: Value)
    requires HasType(defaultValue, t)
    ensures HasType(r, t)
    ensures key !in dictionary ==> r == defaultValue
    ensures key in dictionary && Is(dictionary[key], t) ==> r == dictionary[key]
    ensures key in dictionary && !Is(dictionary[key], t) ==> r == defaultValue
    ensures r == defaultValue || (key in dictionary && r == dictionary[key])
  {
    if key in dictionary && Is(dictionary[key], t) then dictionary[key] else defaultValue
  }

  /** `ResolveType(jsonElement)`: strings become strings, numbers doubles,
      `true`/`false` booleans, `null`/undefined a null reference; arrays and
      objects stay JSON elements. */
  function ResolveType(e: JsonElement): (r: Value)
    ensures e.JString? ==> r == Str(e.text)
    ensures e.JNumber? ==> r == Double(e.number)
    ensures e.JTrue? ==> r == Bool(true)
    ensures e.JFalse? ==> r == Bool(false)
    ensures e.JArray? || e.JObject? ==> r == Json(e)
    ensures e.JNull? || e.JUndefined? ==> r == Null
    ensures !r.Int? && !r.Long?
  {
    match e
    case JString(s) => Str(s)
    case JNumber(_, x) => Double(x)
    case JTrue => Bool(true)
    case JFalse => Bool(false)
    case JNull => Null
    case JUndefined => Null
    case _ => Json(e)
  }

  /** The stored value as the generic overload sees it. */
  function Resolved(v: Value): Value {
    if v.Json? then ResolveType(v.element) else v
  }

  /** `Get<T, TValue>(dictionary, key, defaultValue)`: like `GetOr`, but a
      stored JSON element is resolved before the type test. */
  function GetResolved(dictionary: map<string, Value>, key: string, defaultValue: Value, t: TypeTag): (r: Value)
    requires HasType(defaultValue, t)
    ensures HasType(r, t)
    ensures key !in dictionary ==> r == defaultValue
    ensures key in dictionary && Is(Resolved(dictionary[key]), t) ==> r == Resolved(dictionary[key])
    ensures key in dictionary && !Is(Resolved(dictionary[key]), t) ==> r == defaultValue
  {
    if key !in dictionary then defaultValue
    else
      var obj := Resolved(dictionary[key]);
      if Is(obj, t) then obj else defaultValue
  }

  /** The generic lookup agrees with the plain one on every value that is not a JSON element. */
  lemma GetResolvedAgreesOffJson(dictionary: map<string, Value>, key: string, defaultValue: Value, t: TypeTag)
    requires HasType(defaultValue, t)
    requires key in dictionary ==> !dictionary[key].Json?
    ensures GetResolved(dictionary, key, defaultValue, t) == GetOr(dictionary, key, defaultValue, t)
  {
  }

  /** A JSON number asked for as `int` or `long` yields the default, because it resolves to a double. */
  lemma JsonNumberIsNeverIntegral(dictionary: map<string, Value>, key: string, defaultValue: Value, t: TypeTag)
    requires t == IntType || t == LongType
    requires HasType(defaultValue, t)
    requires key in dictionary && dictionary[key].Json? && dictionary[key].element.JNumber?
    ensures GetResolved(dictionary, key, defaultValue, t) == defaultValue
  {
  }

  /** Asking for a JSON string as a string gives its text. */
  lemma JsonStringResolvesToText(dictionary: map<string, Value>, key: string, defaultValue: Value, text: string)
    requires HasType(defaultValue, StringType)
    requires key in dictionary && dictionary[key] == Json(JString(text))
    ensures GetResolved(dictionary, key, defaultValue, StringType) == Str(text)
  {
  }
}
