/**
 * LifeCycleModule: invoke a lifecycle method on every injectee right after
 * injection, and turn every failure into a ProvisionException.
 */
module LifeCycle {
  import opened JavaModel
  import opened Stageables

  /** The three ProvisionException messages an injection failure can get. */
  datatype ProvisionKind =
    | RequiresArguments   // the method needs arguments (IllegalArgumentException)
    | Inaccessible        // the method cannot be accessed (IllegalAccessException)
    | InvocationFailed    // every other failure, the method's own included

  /** How `afterInjection` ended: normally, or by throwing a ProvisionException. */
  datatype InjectionOutcome =
    | Completed(handlerCalled: bool)
    | ProvisionException(kind: ProvisionKind, cause: Option<Throwable>)

  /** What a lifecycle binding listens for, after its overload filled in the defaults. */
  datatype LifeCycleBinding =
    | ByName(clz: ClassRef, mtd: Option<string>, handler: Option<ResultHandler>)
    | ByAnnotations(annotations: seq<ClassRef>, matcher: Matcher, handler: Option<ResultHandler>)

  /** The listener `hear` registers with the encounter: a method to invoke after injection. */
  datatype InvocationListener = InvocationListener(invoked: Method, handler: Option<ResultHandler>)

  /**
   * The four catch clauses of `afterInjection`, tried in order, for a
   * throwable that escaped the invocation or the result handler.
   */
  function ProvisionFailure(t: Throwable): (p: InjectionOutcome)
    ensures p.ProvisionException?
    ensures p.kind == RequiresArguments <==> t.IllegalArgumentException?
    ensures p.kind == Inaccessible <==> t.IllegalAccessException?
    ensures t.InvocationTargetException? ==> p.cause == t.cause
    ensures !t.InvocationTargetException? ==> p.cause == Some(t)
  {
    match t
    case IllegalArgumentException(_) => ProvisionException(RequiresArguments, Some(t))
    case IllegalAccessException(_) => ProvisionException(Inaccessible, Some(t))
    case InvocationTargetException(cause) => ProvisionException(InvocationFailed, cause)
    case _ => ProvisionException(InvocationFailed, Some(t))
  }

  /**
   * `afterInjection(injectee)`: invoke the method, then the result handler
   * when there is one. Both listeners (by name and by annotation) share this
   * body; they differ only in the text of the messages.
   */
  function AfterInjection(l: InvocationListener, injectee: ObjRef, env: Environment): (r: InjectionOutcome)
    // it completes exactly when the invocation, and the handler if any, returned normally
    ensures r.Completed? <==>
              env.invoke(l.invoked, injectee).Returned? &&
              (l.handler.None? || env.afterInvocation(l.handler.value, injectee).Returned?)
    // the handler runs only after a normal return, and only when it is not null
    ensures r.Completed? ==> r.handlerCalled == l.handler.Some?
    // a failed invocation is classified by the catch clauses; the handler never runs
    ensures env.invoke(l.invoked, injectee).Threw? ==>
              r == ProvisionFailure(env.invoke(l.invoked, injectee).thrown)
    // the handler's own failure goes through the same catch clauses
    ensures env.invoke(l.invoked, injectee).Returned? && l.handler.Some? &&
            env.afterInvocation(l.handler.value, injectee).Threw? ==>
              r == ProvisionFailure(env.afterInvocation(l.handler.value, injectee).thrown)
  {
    match env.invoke(l.invoked, injectee)
    case Threw(t) => ProvisionFailure(t)
    case Returned =>
      match l.handler
      case None => Completed(false)
      case Some(h) =>
        match env.afterInvocation(h, injectee)
        case Threw(t) => ProvisionFailure(t)
        case Returned => Completed(true)
  }

  /**
   * Where StageableMethod reports a failed invocation to its handler and
   * carries on, `afterInjection` throws: for the same method, target and
   * failure, the ProvisionException carries the cause `onError` would get.
   */
  lemma FailureThrownNotSwallowed(l: InvocationListener, injectee: ObjRef, env: Environment)
    requires env.setAccessible(l.invoked).Returned?
    requires env.invoke(l.invoked, injectee).Threw?
    ensures Stage(StageableMethod(l.invoked, injectee), env).event.OnError?
    ensures AfterInjection(l, injectee, env).ProvisionException?
    ensures AfterInjection(l, injectee, env).cause == Stage(StageableMethod(l.invoked, injectee), env).event.cause
  {
  }

  /** Whether a binding's listener is told about a type. */
  function Listens(b: LifeCycleBinding, t: ClassRef, env: Environment): (accepted: bool)
    // by name: exactly the types `clz` is assignable from
    ensures b.ByName? ==> (accepted <==> env.isAssignableFrom(b.clz, t))
    // by annotation: exactly the types the matcher accepts, all of them for `any()`
    ensures b.ByAnnotations? ==> (accepted <==> Matches(b.matcher, t, env))
    ensures b.ByAnnotations? && b.matcher == AnyMatcher ==> accepted
  {
    match b
    case ByName(clz, _, _) => env.isAssignableFrom(clz, t)
    case ByAnnotations(_, matcher, _) => Matches(matcher, t, env)
  }

  /**
   * `hear(type, encounter)` of the by-name listener: look the method up on
   * the type; register a listener for it, or report the lookup failure to
   * the encounter and register nothing.
   */
  function HearByName(b: LifeCycleBinding, t: ClassRef, env: Environment): (e: Encounter<InvocationListener>)
    requires b.ByName?
    ensures e.ErrorAdded? <==> LookupMethod(t, b.mtd, env).LookupFailed?
    ensures e.ErrorAdded? ==> e.error == LookupMethod(t, b.mtd, env).error
    ensures e.ListenerRegistered? ==>
              e.listener == InvocationListener(LookupMethod(t, b.mtd, env).found, b.handler)
    ensures b.mtd.None? ==> e == ErrorAdded(NullPointerException)
  {
    match LookupMethod(t, b.mtd, env)
    case Found(m) => ListenerRegistered(InvocationListener(m, b.handler))
    case LookupFailed(ex) => ErrorAdded(ex)
  }

  /** `bindLifeCycle(clz, mtd)`: the by-name binding with no result handler. */
  function BindLifeCycleByName(clz: ClassRef, mtd: Option<string>): (b: LifeCycleBinding)
    ensures b.ByName? && b.clz == clz && b.mtd == mtd && b.handler.None?
  {
    ByName(clz, mtd, None)
  }

  /** `bindLifeCycle(annotation)`: the one annotation, every type, no result handler. */
  function BindLifeCycleByAnnotation(annotation: ClassRef): (b: LifeCycleBinding)
    ensures b.ByAnnotations? && b.annotations == [annotation]
    ensures b.matcher == AnyMatcher && b.handler.None?
  {
    ByAnnotations([annotation], AnyMatcher, None)
  }

  /** `bindLifeCycle(annotation, handler)`: the one annotation, every type. */
  function BindLifeCycleByAnnotationWithHandler(annotation: ClassRef, handler: ResultHandler): (b: LifeCycleBinding)
    ensures b.ByAnnotations? && b.annotations == [annotation]
    ensures b.matcher == AnyMatcher && b.handler == Some(handler)
  {
    ByAnnotations([annotation], AnyMatcher, Some(handler))
  }

  /** `bindLifeCycle(annotation, typeMatcher)`: the one annotation, no result handler. */
  function BindLifeCycleByAnnotationMatching(annotation: ClassRef, matcher: Matcher): (b: LifeCycleBinding)
    ensures b.ByAnnotations? && b.annotations == [annotation]
    ensures b.matcher == matcher && b.handler.None?
  {
    ByAnnotations([annotation], matcher, None)
  }

  /** `bindLifeCycle(annotations, typeMatcher)`: no result handler. */
  function BindLifeCycleByAnnotations(annotations: seq<ClassRef>, matcher: Matcher): (b: LifeCycleBinding)
    ensures b.ByAnnotations? && b.annotations == annotations
    ensures b.matcher == matcher && b.handler.None?
  {
    ByAnnotations(annotations, matcher, None)
  }

  /**
   * Without a result handler, `afterInjection` completes exactly when the
   * invocation returns normally, and then reports that no handler ran.
   */
  lemma NoHandlerCompletesOnReturn(m: Method, injectee: ObjRef, env: Environment)
    ensures (AfterInjection(InvocationListener(m, None), injectee, env).Completed? <==>
             env.invoke(m, injectee).Returned?)
    ensures env.invoke(m, injectee).Returned? ==>
              AfterInjection(InvocationListener(m, None), injectee, env) == Completed(false)
  {
  }
}
