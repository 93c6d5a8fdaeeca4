/**
 * StageableMethod: one method to invoke on one injected object, with the
 * outcome reported to a StageHandler instead of being thrown.
 */
module Stageables {
  import opened JavaModel

  /** A stageable: the method and the target object, both fixed at construction. */
  datatype Stageable = StageableMethod(stageMethod: Method, target: ObjRef)

  /** One StageHandler notification. */
  datatype StageEvent =
    | OnSuccess(target: ObjRef)
    | OnError(target: ObjRef, cause: Option<Throwable>)

  /** What one call of `stage` did: whether it reached `invoke`, and its one notification. */
  datatype StageStep = StageStep(invoked: bool, event: StageEvent)

  /** The StageHandler: an observer that sees each notification in the order it is sent. */
  class StageHandler {
    var events: seq<StageEvent>

    constructor ()
      ensures events == []
    {
      events := [];
    }

    method OnSuccess(target: ObjRef)
      modifies this
      ensures events == old(events) + [StageEvent.OnSuccess(target)]
    {
      events := events + [StageEvent.OnSuccess(target)];
    }

    method OnError(target: ObjRef, cause: Option<Throwable>)
      modifies this
      ensures events == old(events) + [StageEvent.OnError(target, cause)]
    {
      events := events + [StageEvent.OnError(target, cause)];
    }
  }

  /**
   * `stage(handler)` as a value: make the method accessible, invoke it on the
   * target, and turn how that went into exactly one notification.
   */
  function Stage(s: Stageable, env: Environment): (step: StageStep)
    // both notifications name the target stored at construction
    ensures step.event.target == s.target
    // the method is invoked exactly when the accessibility step went through
    ensures step.invoked <==> env.setAccessible(s.stageMethod).Returned?
    // success exactly when the invocation happened and returned normally
    ensures step.event.OnSuccess? <==> step.invoked && env.invoke(s.stageMethod, s.target).Returned?
    // a failed accessibility step is reported, unwrapped only if it is an InvocationTargetException
    ensures env.setAccessible(s.stageMethod).Threw? ==>
              step.event == OnError(s.target, UnwrappedCause(env.setAccessible(s.stageMethod).thrown))
    // a failed invocation is reported the same way
    ensures step.invoked && env.invoke(s.stageMethod, s.target).Threw? ==>
              step.event == OnError(s.target, UnwrappedCause(env.invoke(s.stageMethod, s.target).thrown))
  {
    match env.setAccessible(s.stageMethod)
    case Threw(t) => StageStep(false, OnError(s.target, UnwrappedCause(t)))
    case Returned =>
      match env.invoke(s.stageMethod, s.target)
      case Threw(t) => StageStep(true, OnError(s.target, UnwrappedCause(t)))
      case Returned => StageStep(true, OnSuccess(s.target))
  }

  /**
   * The wrapper is never what `onError` receives: when the invocation throws
   * an InvocationTargetException, the handler gets its cause, which is a
   * strictly smaller throwable.
   */
  lemma {:induction false} WrapperNeverReported(s: Stageable, env: Environment)
    requires env.setAccessible(s.stageMethod).Returned?
    requires env.invoke(s.stageMethod, s.target).Threw?
    requires env.invoke(s.stageMethod, s.target).thrown.InvocationTargetException?
    ensures Stage(s, env).event.OnError?
    ensures Stage(s, env).event.cause != Some(env.invoke(s.stageMethod, s.target).thrown)
    ensures Stage(s, env).event.cause == env.invoke(s.stageMethod, s.target).thrown.cause
  {
    var w := env.invoke(s.stageMethod, s.target).thrown;
    match w.cause
    case None =>
    case Some(c) =>
      assert c < w;
  }

  /**
   * `stage(handler)` as the call it is: the handler is notified once, with
   * the event `Stage` describes, and nothing escapes to the caller.
   */
  method StageInto(s: Stageable, handler: StageHandler, env: Environment)
    modifies handler
    ensures handler.events == old(handler.events) + [Stage(s, env).event]
  {
    var step := Stage(s, env);
    match step.event
    case OnSuccess(target) => handler.OnSuccess(target);
    case OnError(target, cause) => handler.OnError(target, cause);
  }
}
