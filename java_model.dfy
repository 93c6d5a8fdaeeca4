/**
 * The Java and framework values the lifecycle core works with, stated as plain
 * data: throwables by kind, classes, methods and injected objects by identity,
 * and one record of everything the core calls but cannot see (reflection,
 * user callbacks, custom type matchers).
 */
module JavaModel {

  datatype Option<+T> = None | Some(value: T)

  datatype Result<+T, +E> = Success(value: T) | Failure(error: E)

  /**
   * A Java throwable, by the catch clause that takes it. Each named
   * constructor stands for that class and every subclass of it (a
   * NumberFormatException is an IllegalArgumentException here), because a
   * catch clause takes subclasses too. OtherThrowable is only for a
   * throwable outside all of those hierarchies. `InvocationTargetException.cause`
   * is what `getCause()` returns (None stands for null).
   */
  datatype Throwable =
    | InvocationTargetException(cause: Option<Throwable>)
    | IllegalAccessException(message: string)
    | IllegalArgumentException(message: string)
    | IllegalStateException(message: string)
    | NullPointerException
    | OtherThrowable(className: string, message: string)

  /** A Java class; `isAnnotation` says whether `Annotation.class.isAssignableFrom` it. */
  datatype ClassRef = ClassRef(name: string, isAnnotation: bool)

  /** A reflected, argument-less method. */
  datatype Method = Method(declaringClass: ClassRef, name: string)

  /** An injected object (the injectee), by identity. */
  datatype ObjRef = ObjRef(id: nat)

  /** How a call into code outside the core ended. */
  datatype CallOutcome = Returned | Threw(thrown: Throwable)

  /** What `Class.getMethod(name)` gave. */
  datatype MethodLookup = Found(found: Method) | LookupFailed(error: Throwable)

  /**
   * The cause a `catch (InvocationTargetException e)` clause followed by a
   * `catch (Throwable t)` clause hands on: `e.getCause()` for the wrapper,
   * the throwable itself for everything else. Only one level is unwrapped.
   */
  function UnwrappedCause(t: Throwable): (c: Option<Throwable>)
    ensures t.InvocationTargetException? ==> c == t.cause
    ensures !t.InvocationTargetException? ==> c == Some(t)
  {
    match t
    case InvocationTargetException(cause) => cause
    case _ => Some(t)
  }

  /** What a Guice `TypeEncounter` was told by a type listener's `hear`. */
  datatype Encounter<+L> = ListenerRegistered(listener: L) | ErrorAdded(error: Throwable)

  /** A Guice type matcher: `Matchers.any()` or a user-supplied one. */
  datatype Matcher = AnyMatcher | CustomMatcher(id: nat)

  /** A user-supplied `InvocationResultHandler`. */
  datatype ResultHandler = ResultHandler(id: nat)

  /**
   * The behaviour of everything outside the core, as total functions:
   * `setAccessible(true)` inside `doPrivileged`, `Method.invoke`, the
   * result handler's `afterInvocation`, `Class.getMethod` for a non-null name,
   * `Class.isAssignableFrom` and the `matches` of custom matchers.
   */
  datatype Environment = Environment(
    setAccessible: Method -> CallOutcome,
    invoke: (Method, ObjRef) -> CallOutcome,
    afterInvocation: (ResultHandler, ObjRef) -> CallOutcome,
    getMethod: (ClassRef, string) -> MethodLookup,
    isAssignableFrom: (ClassRef, ClassRef) -> bool,
    customMatches: (nat, ClassRef) -> bool)

  /** Whether a matcher accepts a type; `any()` accepts every type. */
  function Matches(m: Matcher, t: ClassRef, env: Environment): (accepted: bool)
    ensures m.AnyMatcher? ==> accepted
  {
    match m
    case AnyMatcher => true
    case CustomMatcher(id) => env.customMatches(id, t)
  }

  /**
   * `type.getRawType().getMethod(name, null)`: a null name makes `getMethod`
   * throw NullPointerException before any lookup happens.
   */
  function LookupMethod(t: ClassRef, name: Option<string>, env: Environment): (r: MethodLookup)
    ensures name.None? ==> r == LookupFailed(NullPointerException)
    ensures name.Some? ==> r == env.getMethod(t, name.value)
  {
    match name
    case None => LookupFailed(NullPointerException)
    case Some(n) => env.getMethod(t, n)
  }
}
