/** `ModelFactory`: creates page and component models by type or by type
    name. The cache of model types, which the source fills by scanning the
    loaded assemblies, is given as a map; creating the instance
    (`Activator.CreateInstance`) is foreign, so the factory's result is the
    creation request, and the exception that creation throws, if any, is given. */
module ModelFactory {
  import opened Wrappers
  import opened Exceptions
  import opened Text
  import opened Values
  import opened Models

  /** A model type, by its full name. */
  datatype ModelType = ModelType(fullName: string)

  /** A constructor argument: the setup model, then the caller's objects. */
  datatype Argument = SetupArgument(setupModel: ObjectSetupModel) | ValueArgument(value: Value)

  /** The constructor call `Activator.CreateInstance(type, arguments)` that the factory makes. */
  datatype Creation = Creation(modelType: ModelType, arguments: seq<Argument>)

  /** The cache `s_cache`: a dictionary with `StringComparer.OrdinalIgnoreCase`,
      kept here under the upper-cased names. */
  type Cache = map<string, ModelType>

  /** The cache built from the model types found: each under its upper-cased
      full name. `ToDictionary` throws when two names are equal ignoring
      case, so they are required to differ. */
  function CacheOf(types: seq<ModelType>): (c: Cache)
    requires forall i, j :: 0 <= i < j < |types| ==> !EqualsIgnoreCase(types[i].fullName, types[j].fullName)
    ensures forall t :: t in types ==> Upper(t.fullName) in c && c[Upper(t.fullName)] == t
    ensures forall k :: k in c ==> exists t :: t in types && Upper(t.fullName) == k
  {
    UpperNamesAreDistinct(types);
    map t | t in types :: Upper(t.fullName) := t
  }

  /** Names that differ ignoring case differ once upper-cased. */
  lemma UpperNamesAreDistinct(types: seq<ModelType>)
    requires forall i, j :: 0 <= i < j < |types| ==> !EqualsIgnoreCase(types[i].fullName, types[j].fullName)
    ensures forall t1, t2 :: t1 in types && t2 in types && Upper(t1.fullName) == Upper(t2.fullName) ==> t1 == t2
  {
    forall t1, t2 | t1 in types && t2 in types && Upper(t1.fullName) == Upper(t2.fullName)
      ensures t1 == t2
    {
      var i :| 0 <= i < |types| && types[i] == t1;
      var j :| 0 <= j < |types| && types[j] == t2;
      EqualsIgnoreCaseIffSameUpper(t1.fullName, t2.fullName);
      assert i == j;
    }
  }

  /** `s_cache[typeName]`: `ArgumentNullException` for a null name,
      `KeyNotFoundException` for a name no model type has. */
  function Lookup(cache: Cache, typeName: Option<string>): (r: Result<ModelType, Exception>)
    ensures typeName.None? ==> r == Failure(Raise(ArgumentNull))
    ensures typeName.Some? && Upper(typeName.value) !in cache ==> r == Failure(Raise(KeyNotFound))
    ensures typeName.Some? && Upper(typeName.value) in cache ==> r == Success(cache[Upper(typeName.value)])
  {
    if typeName.None? then Failure(Raise(ArgumentNull))
    else if Upper(typeName.value) !in cache then Failure(Raise(KeyNotFound))
    else Success(cache[Upper(typeName.value)])
  }

  /** The lookup ignores case: names equal ignoring case find the same type. */
  lemma LookupIgnoresCase(cache: Cache, a: string, b: string)
    requires EqualsIgnoreCase(a, b)
    ensures Lookup(cache, Some(a)) == Lookup(cache, Some(b))
  {
    EqualsIgnoreCaseIffSameUpper(a, b);
  }

  /** Every model type is found by its full name written in any case. */
  lemma CachedTypesAreFound(types: seq<ModelType>, t: ModelType, name: string)
    requires forall i, j :: 0 <= i < j < |types| ==> !EqualsIgnoreCase(types[i].fullName, types[j].fullName)
    requires t in types && EqualsIgnoreCase(name, t.fullName)
    ensures Lookup(CacheOf(types), Some(name)) == Success(t)
  {
    EqualsIgnoreCaseIffSameUpper(name, t.fullName);
  }

  /** `args.Concat(arguments ?? Array.Empty<object>())`: the setup model
      first, then the caller's arguments, a null array counting as empty. */
  function ConstructorArguments(setupModel: ObjectSetupModel, arguments: Option<seq<Value>>): (args: seq<Argument>)
    ensures |args| == 1 + (if arguments.Some? then |arguments.value| else 0)
    ensures args[0] == SetupArgument(setupModel)
    ensures arguments.Some? ==> forall i :: 0 <= i < |arguments.value| ==> args[i + 1] == ValueArgument(arguments.value[i])
    ensures arguments.None? ==> args == [SetupArgument(setupModel)]
  {
    var extra := arguments.GetOr([]);
    [SetupArgument(setupModel)] + seq(|extra|, i requires 0 <= i < |extra| => ValueArgument(extra[i]))
  }

  /** A null argument array and an empty one give the same constructor call. */
  lemma NullArgumentsAreEmpty(setupModel: ObjectSetupModel)
    ensures ConstructorArguments(setupModel, None) == ConstructorArguments(setupModel, Some([]))
  {
  }

  /** `New<T>(type, setupModel, arguments)`. Creating an instance of a null
      type throws `ArgumentNullException`; otherwise the instance is created
      (the constructor call can throw, with `creationError`), then cast to
      `T`, which throws `InvalidCastException` unless the type is one of
      `assignableToT`. */
  function NewOfType(modelType: Option<ModelType>, setupModel: ObjectSetupModel, arguments: Option<seq<Value>>,
                     assignableToT: set<ModelType>, creationError: Option<Exception>): (r: Result<Creation, Exception>)
    ensures modelType.None? ==> r == Failure(Raise(ArgumentNull))
    ensures modelType.Some? && creationError.Some? ==> r == Failure(creationError.value)
    ensures modelType.Some? && creationError.None? && modelType.value !in assignableToT ==> r == Failure(Raise(InvalidCast))
    ensures r.Success? <==> modelType.Some? && creationError.None? && modelType.value in assignableToT
    ensures r.Success? ==> r.value == Creation(modelType.value, ConstructorArguments(setupModel, arguments))
  {
    if modelType.None? then Failure(Raise(ArgumentNull))
    else if creationError.Some? then Failure(creationError.value)
    else if modelType.value !in assignableToT then Failure(Raise(InvalidCast))
    else Success(Creation(modelType.value, ConstructorArguments(setupModel, arguments)))
  }

  const NotFoundPrefix: string := "The specified model type '"
  const NotFoundSuffix: string :=
    "' could not be found in the current application domain. Please ensure the type name is correct and the type is available."

  /** The message of the `ModelNotFoundException` for `typeName` (a null name prints as empty). */
  function NotFoundMessage(typeName: Option<string>): string {
    NotFoundPrefix + typeName.GetOr("") + NotFoundSuffix
  }

  /** `New<T>(typeName, setupModel, arguments)`: the lookup and the creation
      run inside one `try`, so any exception of either, a missing name, a
      failing constructor or a failed cast alike, is thrown again wrapped in
      a `ModelNotFoundException`. */
  function NewByName(cache: Cache, typeName: Option<string>, setupModel: ObjectSetupModel, arguments: Option<seq<Value>>,
                     assignableToT: set<ModelType>, creationError: Option<Exception>): (r: Result<Creation, Exception>)
    ensures Lookup(cache, typeName).Failure? ==>
              r == Failure(Wrap(ModelNotFound, NotFoundMessage(typeName), Lookup(cache, typeName).error))
    ensures Lookup(cache, typeName).Success? ==>
              var inner := NewOfType(Some(Lookup(cache, typeName).value), setupModel, arguments, assignableToT, creationError);
              r == if inner.Success? then inner else Failure(Wrap(ModelNotFound, NotFoundMessage(typeName), inner.error))
    ensures r.Failure? ==> r.error.kind == ModelNotFound && r.error.inner.Some?
  {
    var found := Lookup(cache, typeName);
    var created := if found.Failure? then Failure(found.error)
                   else NewOfType(Some(found.value), setupModel, arguments, assignableToT, creationError);
    if created.Success? then created else Failure(Wrap(ModelNotFound, NotFoundMessage(typeName), created.error))
  }

  /** The two routes agree: asking by a name that the cache knows creates
      exactly what asking by the type it names creates, and the reason of a
      failure stays reachable as the base exception. */
  lemma NameAndTypeAgree(cache: Cache, name: string, setupModel: ObjectSetupModel, arguments: Option<seq<Value>>,
                         assignableToT: set<ModelType>, creationError: Option<Exception>)
    requires Upper(name) in cache
    ensures var byType := NewOfType(Some(cache[Upper(name)]), setupModel, arguments, assignableToT, creationError);
            var byName := NewByName(cache, Some(name), setupModel, arguments, assignableToT, creationError);
            (byName.Success? <==> byType.Success?) &&
            (byType.Success? ==> byName == byType) &&
            (byType.Failure? ==> BaseException(byName.error) == BaseException(byType.error))
  {
    var byType := NewOfType(Some(cache[Upper(name)]), setupModel, arguments, assignableToT, creationError);
    assert Lookup(cache, Some(name)) == Success(cache[Upper(name)]);
    if byType.Failure? {
      BaseExceptionOfWrap(ModelNotFound, NotFoundMessage(Some(name)), byType.error);
    }
  }

  /** The overloads without arguments pass a null array, so the model's
      constructor receives the setup model alone; the generic overloads
      `New<T>(setupModel)` and `New<T>(setupModel, arguments)` ask for
      `typeof(T)`, which is always assignable to `T`. */
  lemma OverloadsWithoutArguments(t: ModelType, setupModel: ObjectSetupModel, assignableToT: set<ModelType>)
    requires t in assignableToT
    ensures NewOfType(Some(t), setupModel, None, assignableToT, None) == Success(Creation(t, [SetupArgument(setupModel)]))
  {
  }
}
