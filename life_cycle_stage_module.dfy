/**
 * LifeCycleStageModule: collect stager bindings while the subclass's
 * `configureBindings` runs, then bind each stager and a type listener that
 * registers a StageableMethod with it for every matching injectee.
 */
module LifeCycleStage {
  import opened JavaModel
  import opened Stageables
  import opened Stagers

  /** A StageableTypeMapper: the no-op default, or one the user supplied. */
  datatype TypeMapper = NoOpTypeMapper | CustomTypeMapper(id: nat)

  const ReentryMessage: string := "Re-entry is not allowed"
  const StagerArgument: string := "Argument 'stager'"
  const MatcherArgument: string := "Argument 'typeMatcher'"
  const MapperArgument: string := "Argument 'typeMapper'"
  const MethodArgument: string := "Argument 'method'"

  /** `checkNotNull(object, message)`; None stands for null. */
  function CheckNotNull<T>(x: Option<T>, message: string): (r: Result<T, Throwable>)
    ensures r.Success? <==> x.Some?
    ensures r.Success? ==> r.value == x.value
    ensures r.Failure? ==> r.error == IllegalArgumentException(message + " must not be null.")
  {
    match x
    case None => Failure(IllegalArgumentException(message + " must not be null."))
    case Some(v) => Success(v)
  }

  /** Whether the stager's stage is an annotation type (annotation-based lifecycle). */
  predicate IsAnnotationStage(stager: Stager)
  {
    stager.GetStage().isAnnotation
  }

  /** The fields of a BindingBuilder at one moment. */
  datatype Binding = Binding(stager: Stager, matcher: Matcher, mapper: TypeMapper, methodName: Option<string>)

  /** A fresh builder's fields: `any()`, the no-op mapper, no method. */
  function DefaultBinding(stager: Stager): (b: Binding)
    ensures b.stager == stager && b.matcher == AnyMatcher
    ensures b.mapper == NoOpTypeMapper && b.methodName == None
  {
    Binding(stager, AnyMatcher, NoOpTypeMapper, None)
  }

  /** `mappingWith(typeMapper)`: rejects null, otherwise replaces the mapper and nothing else. */
  function SetMapper(b: Binding, m: Option<TypeMapper>): (r: Result<Binding, Throwable>)
    ensures r.Failure? <==> m.None?
    ensures r.Failure? ==> r.error == IllegalArgumentException(MapperArgument + " must not be null.")
    ensures r.Success? ==> r.value == b.(mapper := m.value)
  {
    match CheckNotNull(m, MapperArgument)
    case Failure(e) => Failure(e)
    case Success(v) => Success(b.(mapper := v))
  }

  /** `matching(typeMatcher)`: rejects null, otherwise replaces the matcher and nothing else. */
  function SetMatcher(b: Binding, m: Option<Matcher>): (r: Result<Binding, Throwable>)
    ensures r.Failure? <==> m.None?
    ensures r.Failure? ==> r.error == IllegalArgumentException(MatcherArgument + " must not be null.")
    ensures r.Success? ==> r.value == b.(matcher := m.value)
  {
    match CheckNotNull(m, MatcherArgument)
    case Failure(e) => Failure(e)
    case Success(v) => Success(b.(matcher := v))
  }

  /**
   * `withMethod(method)`: an annotation stage takes any method name, null
   * included; any other stage rejects null. Whatever it stores is the name given.
   */
  function SetMethod(b: Binding, name: Option<string>): (r: Result<Binding, Throwable>)
    ensures r.Failure? <==> !IsAnnotationStage(b.stager) && name.None?
    ensures r.Failure? ==> r.error == IllegalArgumentException(MethodArgument + " must not be null.")
    ensures r.Success? ==> r.value == b.(methodName := name)
  {
    if IsAnnotationStage(b.stager) then Success(b.(methodName := name))
    else
      match CheckNotNull(name, MethodArgument)
      case Failure(e) => Failure(e)
      case Success(v) => Success(b.(methodName := Some(v)))
  }

  /**
   * The builder `bindStager(stager, typeMatcher, typeMapper, method)` makes:
   * null stager rejected first; a null matcher or mapper keeps the default;
   * the method goes through `withMethod`.
   */
  function NewBinding(stager: Option<Stager>, matcher: Option<Matcher>, mapper: Option<TypeMapper>,
                      name: Option<string>): (r: Result<Binding, Throwable>)
    ensures r.Failure? <==> stager.None? || (!IsAnnotationStage(stager.value) && name.None?)
    ensures stager.None? ==> r == Failure(IllegalArgumentException(StagerArgument + " must not be null."))
    ensures stager.Some? && r.Failure? ==>
              r.error == IllegalArgumentException(MethodArgument + " must not be null.")
    ensures r.Success? ==> r.value.stager == stager.value && r.value.methodName == name
    ensures r.Success? ==> r.value.matcher == (if matcher.Some? then matcher.value else AnyMatcher)
    ensures r.Success? ==> r.value.mapper == (if mapper.Some? then mapper.value else NoOpTypeMapper)
  {
    match CheckNotNull(stager, StagerArgument)
    case Failure(e) => Failure(e)
    case Success(s) =>
      var b0 := DefaultBinding(s);
      var b1 := if matcher.Some? then b0.(matcher := matcher.value) else b0;
      var b2 := if mapper.Some? then b1.(mapper := mapper.value) else b1;
      SetMethod(b2, name)
  }

  /** A call a user makes on the MapperBinding that `bindStager` returned. */
  datatype FluentCall = MappingWith(mapper: Option<TypeMapper>) | Matching(matcher: Option<Matcher>)

  /** Whether a fluent call passes null, which its `checkNotNull` rejects. */
  predicate NullCall(c: FluentCall)
  {
    (c.MappingWith? && c.mapper.None?) || (c.Matching? && c.matcher.None?)
  }

  /** The IllegalArgumentException a fluent call throws when it passes null. */
  function CallError(c: FluentCall): Throwable
  {
    match c
    case MappingWith(_) => IllegalArgumentException(MapperArgument + " must not be null.")
    case Matching(_) => IllegalArgumentException(MatcherArgument + " must not be null.")
  }

  /**
   * A sequence of fluent calls on one builder, stopping at the first that
   * throws: it fails exactly when some call passes null, with the first such
   * call's error; otherwise the last `mappingWith` and the last `matching`
   * win, and a setting no call touches keeps its earlier value.
   */
  function ApplyFluent(b: Binding, calls: seq<FluentCall>): (r: Result<Binding, Throwable>)
    ensures r.Failure? <==> exists i :: 0 <= i < |calls| && NullCall(calls[i])
    ensures r.Failure? ==>
              exists i :: 0 <= i < |calls| && NullCall(calls[i]) && r.error == CallError(calls[i]) &&
                forall j :: 0 <= j < i ==> !NullCall(calls[j])
    ensures r.Success? ==> r.value.stager == b.stager && r.value.methodName == b.methodName
    ensures r.Success? && (forall i :: 0 <= i < |calls| ==> !calls[i].MappingWith?) ==> r.value.mapper == b.mapper
    ensures r.Success? ==>
              forall i :: (0 <= i < |calls| && calls[i].MappingWith? &&
                           forall j :: i < j < |calls| ==> !calls[j].MappingWith?) ==>
                calls[i].mapper == Some(r.value.mapper)
    ensures r.Success? && (forall i :: 0 <= i < |calls| ==> !calls[i].Matching?) ==> r.value.matcher == b.matcher
    ensures r.Success? ==>
              forall i :: (0 <= i < |calls| && calls[i].Matching? &&
                           forall j :: i < j < |calls| ==> !calls[j].Matching?) ==>
                calls[i].matcher == Some(r.value.matcher)
    decreases |calls|
  {
    if calls == [] then Success(b)
    else
      var step := match calls[0]
        case MappingWith(m) => SetMapper(b, m)
        case Matching(m) => SetMatcher(b, m);
      match step
      case Failure(e) => Failure(e)
      case Success(b') =>
        var rest := calls[1..];
        assert forall k :: 0 <= k < |rest| ==> rest[k] == calls[k + 1];
        assert !NullCall(calls[0]);
        ApplyFluent(b', rest)
  }

  /**
   * What the subclass's `configureBindings` does, one step at a time: bind a
   * stager (then make fluent calls on the result), call `configure` again
   * from inside, or throw.
   */
  datatype ConfigStep =
    | BindStager(stager: Option<Stager>, matcher: Option<Matcher>, mapper: Option<TypeMapper>,
                 name: Option<string>, calls: seq<FluentCall>)
    | BindStagerDefault(stager: Option<Stager>, calls: seq<FluentCall>)
    | Reenter
    | Raise(thrown: Throwable)

  /** Whether a step is a `bindStager` call (either overload). */
  predicate BindsStager(step: ConfigStep)
  {
    step.BindStager? || step.BindStagerDefault?
  }

  /** The method name a `bindStager` step passes; the one-argument overload passes null. */
  function StepMethod(step: ConfigStep): Option<string>
    requires BindsStager(step)
  {
    if step.BindStager? then step.name else None
  }

  /**
   * The builder a `bindStager` step leaves behind once its fluent calls ran:
   * it fails exactly when the stager is null, the method check rejects the
   * name, or a fluent call passes null; otherwise it holds the given stager
   * and method name.
   */
  function StepBinding(step: ConfigStep): (r: Result<Binding, Throwable>)
    requires BindsStager(step)
    ensures r.Failure? <==>
              step.stager.None? ||
              (!IsAnnotationStage(step.stager.value) && StepMethod(step).None?) ||
              exists i :: 0 <= i < |step.calls| && NullCall(step.calls[i])
    ensures r.Success? ==> r.value.stager == step.stager.value && r.value.methodName == StepMethod(step)
  {
    var matcher := if step.BindStager? then step.matcher else None;
    var mapper := if step.BindStager? then step.mapper else None;
    match NewBinding(step.stager, matcher, mapper, StepMethod(step))
    case Failure(e) => Failure(e)
    case Success(b) => ApplyFluent(b, step.calls)
  }

  /** One step of `configureBindings`, given the builders collected so far. */
  function RunStep(step: ConfigStep, pending: seq<Binding>): (r: Result<seq<Binding>, Throwable>)
    ensures step.Reenter? ==> r == Failure(IllegalStateException(ReentryMessage))
    ensures step.Raise? ==> r == Failure(step.thrown)
    // a `bindStager` step succeeds exactly when its builder passed every check ...
    ensures BindsStager(step) ==> (r.Success? <==> StepBinding(step).Success?)
    ensures BindsStager(step) && r.Failure? ==> r.error == StepBinding(step).error
    // ... and then appends that builder after the ones already collected
    ensures r.Success? ==> BindsStager(step) && r.value == pending + [StepBinding(step).value]
  {
    match step
    case Reenter => Failure(IllegalStateException(ReentryMessage))
    case Raise(t) => Failure(t)
    case _ =>
      match StepBinding(step)
      case Failure(e) => Failure(e)
      case Success(b) => Success(pending + [b])
  }

  /** `configureBindings` as a whole: its steps in order, stopping at the first that throws. */
  function RunSteps(steps: seq<ConfigStep>, pending: seq<Binding>): (r: Result<seq<Binding>, Throwable>)
    decreases |steps|
  {
    if steps == [] then Success(pending)
    else
      match RunStep(steps[0], pending)
      case Failure(e) => Failure(e)
      case Success(p) => RunSteps(steps[1..], p)
  }

  /** The builders of the `bindStager` steps whose checks pass, in call order. */
  function Collected(steps: seq<ConfigStep>): seq<Binding>
  {
    if steps == [] then []
    else
      (if BindsStager(steps[0]) && StepBinding(steps[0]).Success? then [StepBinding(steps[0]).value] else []) +
      Collected(steps[1..])
  }

  /**
   * `configureBindings` returns normally exactly when every step is a
   * `bindStager` call whose checks pass.
   */
  lemma {:induction false} RunStepsSucceeds(steps: seq<ConfigStep>, pending: seq<Binding>)
    ensures RunSteps(steps, pending).Success? <==>
              forall i :: 0 <= i < |steps| ==> BindsStager(steps[i]) && StepBinding(steps[i]).Success?
  {
    if steps != [] {
      var rest := steps[1..];
      assert forall k :: 0 <= k < |rest| ==> rest[k] == steps[k + 1];
      match RunStep(steps[0], pending)
      case Failure(_) =>
      case Success(p) =>
        RunStepsSucceeds(rest, p);
    }
  }

  /**
   * After a normal return, the pending list is the earlier builders followed
   * by each `bindStager` call's builder, in call order.
   */
  lemma {:induction false} RunStepsCollects(steps: seq<ConfigStep>, pending: seq<Binding>)
    ensures RunSteps(steps, pending).Success? ==> RunSteps(steps, pending).value == pending + Collected(steps)
  {
    if steps != [] {
      match RunStep(steps[0], pending)
      case Failure(_) =>
      case Success(p) =>
        RunStepsCollects(steps[1..], p);
        assert p == pending + [StepBinding(steps[0]).value];
        assert Collected(steps) == [StepBinding(steps[0]).value] + Collected(steps[1..]);
    }
  }

  /** The exception a failing step throws. */
  function StepError(step: ConfigStep): Throwable
    requires !BindsStager(step) || StepBinding(step).Failure?
  {
    match step
    case Reenter => IllegalStateException(ReentryMessage)
    case Raise(t) => t
    case _ => StepBinding(step).error
  }

  /** Whether a step returns normally: a `bindStager` call whose checks pass. */
  predicate StepPasses(step: ConfigStep)
  {
    BindsStager(step) && StepBinding(step).Success?
  }

  /** One step of `RunSteps` from position `i`: a step that does not pass ends it with its exception. */
  lemma RunStepsUnfold(steps: seq<ConfigStep>, i: nat, pending: seq<Binding>)
    requires i < |steps|
    ensures !StepPasses(steps[i]) ==> RunSteps(steps[i..], pending) == Failure(StepError(steps[i]))
    ensures StepPasses(steps[i]) ==>
              RunSteps(steps[i..], pending) == RunSteps(steps[i + 1..], pending + [StepBinding(steps[i]).value])
  {
    assert steps[i..][1..] == steps[i + 1..];
  }

  /** When `configureBindings` throws, the exception is that of the first step that does not pass. */
  lemma {:induction false} RunStepsFirstError(steps: seq<ConfigStep>, pending: seq<Binding>)
    ensures RunSteps(steps, pending).Failure? ==>
              exists i :: 0 <= i < |steps| && !StepPasses(steps[i]) &&
                RunSteps(steps, pending).error == StepError(steps[i]) &&
                forall j :: 0 <= j < i ==> StepPasses(steps[j])
  {
    if steps != [] {
      if !StepPasses(steps[0]) {
        RunStepsUnfold(steps, 0, pending);
        assert steps[0..] == steps;
      } else {
        var rest := steps[1..];
        RunStepsUnfold(steps, 0, pending);
        assert steps[0..] == steps;
        var p := pending + [StepBinding(steps[0]).value];
        RunStepsFirstError(rest, p);
        if RunSteps(steps, pending).Failure? {
          var i :| 0 <= i < |rest| && !StepPasses(rest[i]) &&
                   RunSteps(rest, p).error == StepError(rest[i]) &&
                   forall j :: 0 <= j < i ==> StepPasses(rest[j]);
          assert rest[i] == steps[i + 1];
          forall j | 0 <= j < i + 1
            ensures StepPasses(steps[j])
          {
            if j > 0 {
              assert steps[j] == rest[j - 1];
            }
          }
        }
      }
    }
  }

  /** The builders a normally returning `configureBindings` leaves are `Collected(steps)`. */
  lemma CollectedOnSuccess(steps: seq<ConfigStep>)
    requires RunSteps(steps, []).Success?
    ensures RunSteps(steps, []).value == Collected(steps)
  {
    RunStepsCollects(steps, []);
  }

  /**
   * A nested `configure` call always fails the outer one: if any step of
   * `configureBindings` re-enters, configuration throws (IllegalStateException
   * unless an earlier step threw first).
   */
  lemma {:induction false} ReentryFails(steps: seq<ConfigStep>, pending: seq<Binding>)
    requires Reenter in steps
    ensures RunSteps(steps, pending).Failure?
    ensures steps[0] == Reenter ==> RunSteps(steps, pending).error == IllegalStateException(ReentryMessage)
  {
    if steps[0] != Reenter {
      match RunStep(steps[0], pending)
      case Failure(_) =>
      case Success(p) =>
        assert Reenter in steps[1..];
        ReentryFails(steps[1..], p);
    }
  }

  /** The listener `bind` installs for one builder. */
  datatype StageListener =
    | AnnotatedMethodListener(annotation: ClassRef, stager: Stager, mapper: TypeMapper)
    | NamedMethodListener(methodName: Option<string>, stager: Stager, mapper: TypeMapper)

  /** What `bind` hands to Guice's binder. */
  datatype BinderEntry =
    | StagerInstance(stage: ClassRef, stager: Stager)
    | ListenerBinding(matcher: Matcher, listener: StageListener)

  /**
   * `bind(binding)`: bind the stager under its stage, then a listener with the
   * builder's matcher: the annotation-based one when the stage is an
   * annotation type, the method-name one otherwise.
   */
  function Bind(b: Binding): (entries: seq<BinderEntry>)
    ensures |entries| == 2
    ensures entries[0] == StagerInstance(b.stager.GetStage(), b.stager)
    ensures entries[1].ListenerBinding? && entries[1].matcher == b.matcher
    ensures entries[1].listener.stager == b.stager && entries[1].listener.mapper == b.mapper
    ensures entries[1].listener.AnnotatedMethodListener? <==> IsAnnotationStage(b.stager)
    ensures entries[1].listener.AnnotatedMethodListener? ==> entries[1].listener.annotation == b.stager.GetStage()
    ensures entries[1].listener.NamedMethodListener? ==> entries[1].listener.methodName == b.methodName
  {
    var listener :=
      if IsAnnotationStage(b.stager) then AnnotatedMethodListener(b.stager.GetStage(), b.stager, b.mapper)
      else NamedMethodListener(b.methodName, b.stager, b.mapper);
    [StagerInstance(b.stager.GetStage(), b.stager), ListenerBinding(b.matcher, listener)]
  }

  /** `bind` applied to every builder, in order. */
  function BindAll(bs: seq<Binding>): (entries: seq<BinderEntry>)
  {
    if bs == [] then [] else BindAll(bs[..|bs| - 1]) + Bind(bs[|bs| - 1])
  }

  /** Every builder is bound, in the order it was added: builder k owns entries 2k and 2k+1. */
  lemma {:induction false} BindAllInOrder(bs: seq<Binding>)
    ensures |BindAll(bs)| == 2 * |bs|
    ensures forall k :: 0 <= k < |bs| ==> BindAll(bs)[2 * k..2 * k + 2] == Bind(bs[k])
  {
    if bs != [] {
      var init := bs[..|bs| - 1];
      BindAllInOrder(init);
      var prefix := BindAll(init);
      assert BindAll(bs) == prefix + Bind(bs[|bs| - 1]);
      forall k | 0 <= k < |bs|
        ensures BindAll(bs)[2 * k..2 * k + 2] == Bind(bs[k])
      {
        if k < |init| {
          assert bs[k] == init[k];
          assert (prefix + Bind(bs[|bs| - 1]))[2 * k..2 * k + 2] == prefix[2 * k..2 * k + 2];
        } else {
          assert (prefix + Bind(bs[|bs| - 1]))[2 * k..2 * k + 2] == Bind(bs[|bs| - 1]);
        }
      }
    }
  }

  lemma BindAllExtend(bs: seq<Binding>, b: Binding)
    ensures BindAll(bs + [b]) == BindAll(bs) + Bind(b)
  {
    assert (bs + [b])[..|bs|] == bs;
  }

  /** An outbound call of an injection listener, recorded in the order it is made. */
  datatype InjectionCall =
    | Registered(stager: Stager, stageable: Stageable)
    | TypeRegistered(mapper: TypeMapper, stageable: Stageable, parentType: ClassRef)

  /**
   * How `registerType` ends: the no-op mapper returns; a user mapper does
   * what `custom` says for its identity.
   */
  function RegisterTypeOutcome(custom: (nat, Stageable, ClassRef) -> CallOutcome, mapper: TypeMapper,
                               s: Stageable, parentType: ClassRef): (o: CallOutcome)
    ensures mapper.NoOpTypeMapper? ==> o.Returned?
  {
    match mapper
    case NoOpTypeMapper => Returned
    case CustomTypeMapper(id) => custom(id, s, parentType)
  }

  /** The outbound calls the injection listeners made, in order, and how user mappers behave. */
  class InjectionTrace {
    var calls: seq<InjectionCall>
    const custom: (nat, Stageable, ClassRef) -> CallOutcome

    constructor (custom: (nat, Stageable, ClassRef) -> CallOutcome)
      ensures calls == [] && this.custom == custom
    {
      calls := [];
      this.custom := custom;
    }

    /** `stager.register(stageable)`, recorded. */
    method Register(stager: Stager, s: Stageable)
      modifies this`calls, stager`registered
      ensures stager.registered == old(stager.registered) + [s]
      ensures calls == old(calls) + [Registered(stager, s)]
    {
      stager.Register(s);
      calls := calls + [Registered(stager, s)];
    }

    /** `typeMapper.registerType(stageable, type)`, recorded; a user mapper's exception is returned. */
    method RegisterType(mapper: TypeMapper, s: Stageable, parentType: ClassRef) returns (thrown: Option<Throwable>)
      modifies this`calls
      ensures calls == old(calls) + [TypeRegistered(mapper, s, parentType)]
      ensures RegisterTypeOutcome(custom, mapper, s, parentType).Returned? ==> thrown == None
      ensures RegisterTypeOutcome(custom, mapper, s, parentType).Threw? ==>
                thrown == Some(RegisterTypeOutcome(custom, mapper, s, parentType).thrown)
    {
      calls := calls + [TypeRegistered(mapper, s, parentType)];
      match RegisterTypeOutcome(custom, mapper, s, parentType) {
        case Returned => thrown := None;
        case Threw(t) => thrown := Some(t);
      }
    }
  }

  /** The injection listener `hear` registers: which method, found on which type, for which stager. */
  datatype StageRegistration = StageRegistration(stageMethod: Method, parentType: ClassRef, stager: Stager, mapper: TypeMapper)

  /** `hear(stageMethod, parentType, ...)` of the annotation-based listener: always registers. */
  function HearAnnotated(l: StageListener, stageMethod: Method, parentType: ClassRef): (e: Encounter<StageRegistration>)
    requires l.AnnotatedMethodListener?
    ensures e.ListenerRegistered?
    ensures e.listener.stageMethod == stageMethod && e.listener.parentType == parentType
    ensures e.listener.stager == l.stager && e.listener.mapper == l.mapper
  {
    ListenerRegistered(StageRegistration(stageMethod, parentType, l.stager, l.mapper))
  }

  /**
   * `hear(type, encounter)` of the method-name listener: look the method up
   * on the type; a failed lookup is added to the encounter as an error and
   * no listener is registered.
   */
  function HearNamed(l: StageListener, t: ClassRef, env: Environment): (e: Encounter<StageRegistration>)
    requires l.NamedMethodListener?
    ensures e.ErrorAdded? <==> LookupMethod(t, l.methodName, env).LookupFailed?
    ensures e.ErrorAdded? ==> e.error == LookupMethod(t, l.methodName, env).error
    ensures e.ListenerRegistered? ==>
              e.listener == StageRegistration(LookupMethod(t, l.methodName, env).found, t, l.stager, l.mapper)
  {
    match LookupMethod(t, l.methodName, env)
    case Found(m) => ListenerRegistered(StageRegistration(m, t, l.stager, l.mapper))
    case LookupFailed(ex) => ErrorAdded(ex)
  }

  /**
   * `afterInjection(injectee)` of either listener: register one new
   * StageableMethod for the injectee with the stager, then tell the mapper
   * which type produced it. A mapper that throws does so after the
   * registration, and its exception escapes.
   */
  method AfterInjection(l: StageRegistration, injectee: ObjRef, trace: InjectionTrace) returns (thrown: Option<Throwable>)
    modifies l.stager`registered, trace`calls
    ensures l.stager.registered == old(l.stager.registered) + [StageableMethod(l.stageMethod, injectee)]
    ensures trace.calls == old(trace.calls) +
              [Registered(l.stager, StageableMethod(l.stageMethod, injectee)),
               TypeRegistered(l.mapper, StageableMethod(l.stageMethod, injectee), l.parentType)]
    ensures RegisterTypeOutcome(trace.custom, l.mapper, StageableMethod(l.stageMethod, injectee), l.parentType).Returned? ==>
              thrown == None
    ensures RegisterTypeOutcome(trace.custom, l.mapper, StageableMethod(l.stageMethod, injectee), l.parentType).Threw? ==>
              thrown == Some(RegisterTypeOutcome(trace.custom, l.mapper, StageableMethod(l.stageMethod, injectee), l.parentType).thrown)
  {
    var stageable := StageableMethod(l.stageMethod, injectee);
    trace.Register(l.stager, stageable);
    thrown := trace.RegisterType(l.mapper, stageable, l.parentType);
  }

  /** BindingBuilder: the fields `bindStager` fills in and the fluent calls update. */
  class BindingBuilder {
    var typeMatcher: Matcher
    const stager: Stager
    var typeMapper: TypeMapper
    var methodName: Option<string>

    constructor (stager: Stager)
      ensures Value() == DefaultBinding(stager)
    {
      this.stager := stager;
      typeMatcher := AnyMatcher;
      typeMapper := NoOpTypeMapper;
      methodName := None;
    }

    function Value(): Binding
      reads this
    {
      Binding(stager, typeMatcher, typeMapper, methodName)
    }

    method MappingWith(m: Option<TypeMapper>) returns (thrown: Option<Throwable>)
      modifies this`typeMapper
      ensures SetMapper(old(Value()), m).Success? ==>
                thrown == None && Value() == SetMapper(old(Value()), m).value
      ensures SetMapper(old(Value()), m).Failure? ==>
                thrown == Some(SetMapper(old(Value()), m).error) && Value() == old(Value())
    {
      match CheckNotNull(m, MapperArgument)
      case Failure(e) => thrown := Some(e);
      case Success(v) => typeMapper := v; thrown := None;
    }

    method Matching(m: Option<Matcher>) returns (thrown: Option<Throwable>)
      modifies this`typeMatcher
      ensures SetMatcher(old(Value()), m).Success? ==>
                thrown == None && Value() == SetMatcher(old(Value()), m).value
      ensures SetMatcher(old(Value()), m).Failure? ==>
                thrown == Some(SetMatcher(old(Value()), m).error) && Value() == old(Value())
    {
      match CheckNotNull(m, MatcherArgument)
      case Failure(e) => thrown := Some(e);
      case Success(v) => typeMatcher := v; thrown := None;
    }

    method WithMethod(name: Option<string>) returns (thrown: Option<Throwable>)
      modifies this`methodName
      ensures SetMethod(old(Value()), name).Success? ==>
                thrown == None && Value() == SetMethod(old(Value()), name).value
      ensures SetMethod(old(Value()), name).Failure? ==>
                thrown == Some(SetMethod(old(Value()), name).error) && Value() == old(Value())
    {
      if IsAnnotationStage(stager) {
        methodName := name;
        thrown := None;
      } else {
        match CheckNotNull(name, MethodArgument)
        case Failure(e) => thrown := Some(e);
        case Success(v) => methodName := Some(v); thrown := None;
      }
    }

    /** The fluent calls of one step, stopping at the first that throws. */
    method ApplyCalls(calls: seq<FluentCall>) returns (thrown: Option<Throwable>)
      modifies this`typeMatcher, this`typeMapper
      ensures ApplyFluent(old(Value()), calls).Success? ==>
                thrown == None && Value() == ApplyFluent(old(Value()), calls).value
      ensures ApplyFluent(old(Value()), calls).Failure? ==>
                thrown == Some(ApplyFluent(old(Value()), calls).error)
    {
      thrown := None;
      var i := 0;
      while i < |calls|
        invariant 0 <= i <= |calls|
        invariant thrown == None
        invariant ApplyFluent(old(Value()), calls) == ApplyFluent(Value(), calls[i..])
      {
        match calls[i] {
          case MappingWith(m) => thrown := MappingWith(m);
          case Matching(m) => thrown := Matching(m);
        }
        if thrown.Some? {
          return;
        }
        assert calls[i..][1..] == calls[i + 1..];
        i := i + 1;
      }
      assert calls[i..] == [];
    }
  }

  /** The module: the pending builders while `configure` runs, and what it handed to the binder. */
  class LifeCycleStageModule {
    /** null (None) outside `configure`; the builders collected so far inside it. */
    var bindings: Option<seq<BindingBuilder>>
    /** Everything `configure` bound, in order. */
    var binder: seq<BinderEntry>

    constructor ()
      ensures bindings == None && binder == []
    {
      bindings := None;
      binder := [];
    }

    /**
     * `bindStager(stager, typeMatcher, typeMapper, method)`. Outside
     * `configure` the list is null, so a builder that passed its checks
     * ends in a NullPointerException when it is added.
     */
    method BindStagerWith(stager: Option<Stager>, matcher: Option<Matcher>, mapper: Option<TypeMapper>,
                          name: Option<string>)
      returns (thrown: Option<Throwable>, builder: BindingBuilder?)
      modifies this`bindings
      ensures NewBinding(stager, matcher, mapper, name).Failure? ==>
                thrown == Some(NewBinding(stager, matcher, mapper, name).error) && bindings == old(bindings)
      ensures NewBinding(stager, matcher, mapper, name).Success? && old(bindings).None? ==>
                thrown == Some(NullPointerException) && bindings == old(bindings)
      ensures NewBinding(stager, matcher, mapper, name).Success? && old(bindings).Some? ==>
                thrown == None && builder != null && fresh(builder) &&
                builder.Value() == NewBinding(stager, matcher, mapper, name).value &&
                bindings == Some(old(bindings).value + [builder])
    {
      builder := null;
      match CheckNotNull(stager, StagerArgument)
      case Failure(e) =>
        thrown := Some(e);
      case Success(s) =>
        var b := new BindingBuilder(s);
        if matcher.Some? {
          var ignored := b.Matching(matcher);
        }
        if mapper.Some? {
          var ignored := b.MappingWith(mapper);
        }
        thrown := b.WithMethod(name);
        if thrown.None? {
          match bindings
          case None =>
            thrown := Some(NullPointerException);
          case Some(pending) =>
            bindings := Some(pending + [b]);
            builder := b;
        }
    }

    /** `bindStager(stager)`: the four-argument form with every other argument null. */
    method BindStagerDefault(stager: Option<Stager>) returns (thrown: Option<Throwable>, builder: BindingBuilder?)
      modifies this`bindings
      ensures NewBinding(stager, None, None, None).Failure? ==>
                thrown == Some(NewBinding(stager, None, None, None).error) && bindings == old(bindings)
      ensures NewBinding(stager, None, None, None).Success? && old(bindings).None? ==>
                thrown == Some(NullPointerException) && bindings == old(bindings)
      ensures NewBinding(stager, None, None, None).Success? && old(bindings).Some? ==>
                thrown == None && builder != null && fresh(builder) &&
                builder.Value() == NewBinding(stager, None, None, None).value &&
                bindings == Some(old(bindings).value + [builder])
    {
      thrown, builder := BindStagerWith(stager, None, None, None);
    }

    /** The loop of `configure`: `bind` every collected builder, in the order it was added. */
    method BindBuilders(builders: seq<BindingBuilder>, ghost values: seq<Binding>)
      requires |builders| == |values|
      requires forall k :: 0 <= k < |builders| ==> builders[k].Value() == values[k]
      modifies this`binder
      ensures binder == old(binder) + BindAll(values)
    {
      for j := 0 to |builders|
        invariant binder == old(binder) + BindAll(values[..j])
      {
        BindAllExtend(values[..j], values[j]);
        assert values[..j + 1] == values[..j] + [values[j]];
        binder := binder + Bind(builders[j].Value());
      }
      assert values[..|builders|] == values;
    }

    /**
     * `configure()`: refuse a nested call; otherwise run `configureBindings`
     * (the steps), bind every collected builder in the order it was added,
     * and in every case leave `bindings` null again.
     */
    method Configure(steps: seq<ConfigStep>) returns (thrown: Option<Throwable>)
      modifies this
      decreases if bindings.None? then 1 else 0, 1
      ensures old(bindings).Some? ==>
                thrown == Some(IllegalStateException(ReentryMessage)) &&
                bindings == old(bindings) && binder == old(binder)
      ensures old(bindings).None? ==> bindings.None?
      ensures old(bindings).None? && RunSteps(steps, []).Failure? ==>
                thrown == Some(RunSteps(steps, []).error) && binder == old(binder)
      ensures old(bindings).None? && RunSteps(steps, []).Success? ==>
                thrown == None && binder == old(binder) + BindAll(RunSteps(steps, []).value)
      // the builders bound are those of the `bindStager` calls, in call order
      ensures old(bindings).None? && thrown.None? ==> binder == old(binder) + BindAll(Collected(steps))
    {
      if bindings.Some? {
        return Some(IllegalStateException(ReentryMessage));
      }
      bindings := Some([]);
      thrown := RunConfigureBindings(steps);
      if thrown.None? {
        BindBuilders(bindings.value, RunSteps(steps, []).value);
        CollectedOnSuccess(steps);
      }
      bindings := None;
    }

    /**
     * One step of `configureBindings`: a nested `configure` call, a thrown
     * exception, or a `bindStager` call followed by the fluent calls on the
     * builder it returns. A step that passes collects its builder; any other
     * returns its exception.
     */
    method RunConfigStep(step: ConfigStep) returns (thrown: Option<Throwable>, b: BindingBuilder?)
      requires bindings.Some?
      modifies this
      decreases 0, 2
      ensures bindings.Some? && binder == old(binder)
      ensures !StepPasses(step) ==> thrown == Some(StepError(step))
      ensures StepPasses(step) ==>
                thrown == None && b != null && fresh(b) && b.Value() == StepBinding(step).value &&
                bindings == Some(old(bindings).value + [b])
    {
      b := null;
      match step {
        case Reenter =>
          // the pending list is set, so the nested call throws before it runs any step
          thrown := Configure([step]);
        case Raise(t) =>
          thrown := Some(t);
        case BindStager(stager, matcher, mapper, name, calls) =>
          thrown, b := BindStagerWith(stager, matcher, mapper, name);
          if thrown.None? {
            ghost var nb := NewBinding(stager, matcher, mapper, name);
            thrown := b.ApplyCalls(calls);
            assert StepBinding(step) == ApplyFluent(nb.value, calls);
          }
        case BindStagerDefault(stager, calls) =>
          thrown, b := BindStagerDefault(stager);
          if thrown.None? {
            ghost var nb := NewBinding(stager, None, None, None);
            thrown := b.ApplyCalls(calls);
            assert StepBinding(step) == ApplyFluent(nb.value, calls);
          }
      }
    }

    /** `configureBindings()` followed by nothing: the steps, in order, until one throws. */
    method RunConfigureBindings(steps: seq<ConfigStep>) returns (thrown: Option<Throwable>)
      requires bindings == Some([])
      modifies this
      decreases 0, 3
      ensures bindings.Some? && binder == old(binder)
      ensures RunSteps(steps, []).Failure? ==> thrown == Some(RunSteps(steps, []).error)
      ensures RunSteps(steps, []).Success? ==>
                thrown == None &&
                |bindings.value| == |RunSteps(steps, []).value| &&
                forall k :: 0 <= k < |bindings.value| ==> bindings.value[k].Value() == RunSteps(steps, []).value[k]
    {
      thrown := None;
      ghost var values: seq<Binding> := [];
      var i := 0;
      while i < |steps|
        invariant 0 <= i <= |steps|
        invariant bindings.Some? && binder == old(binder)
        invariant |bindings.value| == |values|
        invariant forall k :: 0 <= k < |values| ==> fresh(bindings.value[k])
        invariant forall k :: 0 <= k < |values| ==> bindings.value[k].Value() == values[k]
        invariant thrown == None
        invariant RunSteps(steps, []) == RunSteps(steps[i..], values)
      {
        RunStepsUnfold(steps, i, values);
        var b;
        thrown, b := RunConfigStep(steps[i]);
        if thrown.Some? {
          return;
        }
        values := values + [b.Value()];
        i := i + 1;
      }
      assert steps[i..] == [];
    }
  }

  /**
   * A client of `Configure`: the guard only refuses nested calls, so a
   * second, sequential `configure` runs again and ends the same way; a
   * configuration that re-enters fails.
   */
  method ConfigureTwiceScenario(steps: seq<ConfigStep>) returns (first: Option<Throwable>, second: Option<Throwable>)
    ensures second == first
    ensures Reenter in steps ==> first.Some?
    ensures first.None? ==> RunSteps(steps, []).Success?
  {
    var m := new LifeCycleStageModule();
    first := m.Configure(steps);
    second := m.Configure(steps);
    if Reenter in steps {
      ReentryFails(steps, []);
    }
  }

  /**
   * A client of `bindStager` outside `configure`: with no pending list, a
   * call that passes every argument check throws NullPointerException.
   */
  method BindOutsideConfigureScenario(stager: Stager, name: Option<string>) returns (thrown: Option<Throwable>)
    ensures IsAnnotationStage(stager) || name.Some? ==> thrown == Some(NullPointerException)
    ensures !IsAnnotationStage(stager) && name.None? ==>
              thrown == Some(IllegalArgumentException(MethodArgument + " must not be null."))
  {
    var m := new LifeCycleStageModule();
    var b;
    thrown, b := m.BindStagerWith(Some(stager), None, None, name);
  }

  /**
   * A client of the method-name lifecycle: bind a stager for a non-annotation
   * stage, let its listener hear a type and see one injectee. Either the
   * lookup fails and the encounter gets the error with nothing registered,
   * or exactly one StageableMethod for the injectee is registered and then
   * the default mapper is told about it.
   */
  method NamedInjectionScenario(stage: ClassRef, order: Order, name: string, t: ClassRef, injectee: ObjRef,
                                env: Environment)
    returns (registered: seq<Stageable>, calls: seq<InjectionCall>, error: Option<Throwable>)
    requires !stage.isAnnotation
    ensures env.getMethod(t, name).LookupFailed? ==>
              error == Some(env.getMethod(t, name).error) && registered == [] && calls == []
    ensures env.getMethod(t, name).Found? ==>
              error == None &&
              registered == [StageableMethod(env.getMethod(t, name).found, injectee)] &&
              |calls| == 2 && calls[0].Registered? && calls[0].stageable == registered[0] &&
              calls[1] == TypeRegistered(NoOpTypeMapper, registered[0], t)
  {
    var stager := new Stager(stage, order);
    var trace := new InjectionTrace((id: nat, s: Stageable, p: ClassRef) => Returned);
    var binding := NewBinding(Some(stager), None, None, Some(name));
    var listener := Bind(binding.value)[1].listener;
    match HearNamed(listener, t, env) {
      case ErrorAdded(e) =>
        error := Some(e);
      case ListenerRegistered(l) =>
        error := AfterInjection(l, injectee, trace);
    }
    registered := stager.registered;
    calls := trace.calls;
  }

  /**
   * A client with a user mapper whose `registerType` throws: the exception
   * escapes `afterInjection`, but the stageable is already registered with
   * the stager, so the next pass still stages it.
   */
  method ThrowingMapperScenario(stage: ClassRef, order: Order, m: Method, injectee: ObjRef, t: ClassRef,
                                failure: Throwable)
    returns (registered: seq<Stageable>, thrown: Option<Throwable>)
    ensures thrown == Some(failure)
    ensures registered == [StageableMethod(m, injectee)]
  {
    var stager := new Stager(stage, order);
    var trace := new InjectionTrace((id: nat, s: Stageable, p: ClassRef) => Threw(failure));
    thrown := AfterInjection(StageRegistration(m, t, stager, CustomTypeMapper(0)), injectee, trace);
    registered := stager.registered;
  }
}
