/** The exceptions the core raises, catches and classifies: the framework's
    own (`TestSetupException`, `TestTeardownException`,
    `ModelNotFoundException`), MSTest's `AssertInconclusiveException`, and
    the .NET and Selenium exceptions the core's branches name. */
module Exceptions {
  import opened Wrappers

  /** The runtime type of an exception. `Other` is any type the core does not
      name; `Derived` is a type declared as a subclass of `baseKind`. */
  datatype ExceptionKind =
    | NotImplemented
    | AssertInconclusive
    | AssertFailed
    | TestSetup
    | TestTeardown
    | ModelNotFound
    | NoSuchElement
    | InvalidCast
    | NullReference
    | ArgumentNull
    | ArgumentOutOfRange
    | KeyNotFound
    | Format
    | Overflow
    | Other(typeName: string)
    | Derived(typeName: string, baseKind: ExceptionKind)

  /** `e is T` for an exception of type `k`: `k` is `t` or derives from it. */
  predicate IsA(k: ExceptionKind, t: ExceptionKind)
    decreases k
  {
    k == t || (k.Derived? && IsA(k.baseKind, t))
  }

  /** Inheritance is single: a type derives from at most one of two distinct
      types that are not subclasses themselves. */
  lemma {:induction false} SingleInheritance(k: ExceptionKind, t1: ExceptionKind, t2: ExceptionKind)
    requires !t1.Derived? && !t2.Derived? && t1 != t2
    requires IsA(k, t1)
    ensures !IsA(k, t2)
    decreases k
  {
    if k != t1 {
      SingleInheritance(k.baseKind, t1, t2);
    }
  }

  /** A subclass of a subclass of `t` is a subclass of `t`. */
  lemma {:induction false} IsATransitive(k: ExceptionKind, m: ExceptionKind, t: ExceptionKind)
    requires IsA(k, m) && IsA(m, t)
    ensures IsA(k, t)
    decreases k
  {
    if k != m {
      IsATransitive(k.baseKind, m, t);
    }
  }

  /** An exception object: its type, its `Message` and its `InnerException`. */
  datatype Exception = Exception(kind: ExceptionKind, message: string, inner: Option<Exception>)

  /** An exception raised by the runtime; the runtime's own message text is not modelled. */
  function Raise(kind: ExceptionKind): Exception {
    Exception(kind, "", None)
  }

  /** `new K(message, innerException)`. */
  function Wrap(kind: ExceptionKind, message: string, inner: Exception): Exception {
    Exception(kind, message, Some(inner))
  }

  /** `e` or one of the exceptions nested inside it. */
  predicate InChain(x: Exception, e: Exception)
    decreases e
  {
    x == e || (e.inner.Some? && InChain(x, e.inner.value))
  }

  /** `Exception.GetBaseException()`: the innermost exception of the chain. */
  function BaseException(e: Exception): (b: Exception)
    ensures b.inner.None?
    ensures InChain(b, e)
    ensures e.inner.None? ==> b == e
    decreases e
  {
    match e.inner
    case None => e
    case Some(i) => BaseException(i)
  }

  /** Wrapping an exception does not change its base exception. */
  lemma BaseExceptionOfWrap(kind: ExceptionKind, message: string, inner: Exception)
    ensures BaseException(Wrap(kind, message, inner)) == BaseException(inner)
  {
  }

  /** The base exception is the only member of the chain that has no inner exception. */
  lemma {:induction false} BaseExceptionUnique(x: Exception, e: Exception)
    requires InChain(x, e) && x.inner.None?
    ensures x == BaseException(e)
    decreases e
  {
    if x != e {
      BaseExceptionUnique(x, e.inner.value);
    }
  }
}
