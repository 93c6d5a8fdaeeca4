# Onami lifecycle: staged resource registry, in Dafny

This project models the core of Apache Onami Lifecycle. It covers four parts:

- **Stager.** A mini-container that collects *stageables*. When staged, it calls each one's `stage(handler)` in the order its `Order` fixes: first-in-first-out, or first-in-last-out for teardown.
- **StageableMethod.** The one stageable of the core. It invokes a method on an injected object and reports the outcome to a `StageHandler`, so a failure of the reflective calls (`setAccessible`, `invoke`) never escapes to the caller.
- **LifeCycleStageModule.** The Guice module that collects stager bindings while its subclass's `configureBindings` runs. It refuses nested re-entry, checks the builder arguments for null, and then binds each stager together with a type listener. That listener registers a `StageableMethod` for every matching injectee.
- **LifeCycleModule.** Invokes a lifecycle method right after injection. It turns every failure of `invoke` and of the result handler into a `ProvisionException` of one of three kinds.

Files, one module each:

- `java_model.dfy` (`JavaModel`): the Java values the core handles.
  - Throwables are modelled by the catch clause that takes them. Each named kind stands for its class and all its subclasses, because a Java catch clause also takes subclasses. `OtherThrowable` covers only throwables outside those hierarchies.
  - Classes, methods and injectees are modelled by identity.
  - Whether a stage is an annotation type (`Annotation.class.isAssignableFrom(stage)`) is a fixed property of the class, so it is the `isAnnotation` field of `ClassRef`. By contrast, `clz.isAssignableFrom(type)` relates two arbitrary user classes, so it is a function of `Environment`.
  - `Environment` is one record of everything the core calls but cannot see: `setAccessible`, `Method.invoke`, `Class.getMethod`, `Class.isAssignableFrom`, custom matchers and the user's `InvocationResultHandler`.
- `stageable_method.dfy` (`Stageables`): `StageableMethod.stage` as a function from the environment to exactly one handler notification, plus the method that delivers that notification to a handler object.
- `stager.dfy` (`Stagers`): the `Stager` class with its registration sequence and its order. Its `lastPass` field has no counterpart in `Stager.java`. It is a specification device that records the steps of the most recent pass, so that `StageWith` can state what the pass did. It also holds the specification functions of a staging pass and the lemmas about the pass's order and coverage.
- `life_cycle_module.dfy` (`LifeCycle`): `afterInjection`, the `hear` method lookup, the name matcher and the convenience overloads.
- `life_cycle_stage_module.dfy` (`LifeCycleStage`): three parts.
  - Value-level specifications of the builder and of `configureBindings`.
  - The `BindingBuilder` and `LifeCycleStageModule` classes, whose methods are proved against those specifications.
  - The listeners and their `afterInjection`.

Policies the model fixes where the visible code does not:

- **Repeated staging.** The concrete stager (`DefaultStager`) is not part of this model. So `stage` is given one explicit policy: a pass takes every pending registration and leaves none behind. A second pass therefore stages nothing, and a registration made after a pass waits for the next one.
- **Unwrapping depth.** `onError` receives `e.getCause()` of the `InvocationTargetException` (`StageableMethod.java:73-77`), so the wrapper is unwrapped exactly one level. A cause that is itself an `InvocationTargetException` reaches the handler as it is.

## Model

| member | source | states |
|---|---|---|
| `Stageables.Stage` | core/src/main/java/org/apache/onami/lifecycle/core/StageableMethod.java:56-84 | exactly one notification, naming the stored target; the method is invoked iff the accessibility step returned; success iff the invocation also returned normally; a throwable from either step goes to onError, one-level unwrapped if it is an InvocationTargetException and unchanged otherwise |
| `Stageables.WrapperNeverReported` | core/src/main/java/org/apache/onami/lifecycle/core/StageableMethod.java:73-77 | when the invocation throws an InvocationTargetException, onError gets its cause and never the wrapper itself |
| `Stageables.StageInto` | core/src/main/java/org/apache/onami/lifecycle/core/StageableMethod.java:56-84 | the handler receives exactly one new notification, the one `Stage` describes; a failure of the reflective calls does not escape |
| `Stagers.Traversal` | core/src/main/java/org/apache/onami/lifecycle/core/Stager.java:22-26 | the visiting order is a permutation of the registrations: registration order for FirstInFirstOut, entry k is registration n-1-k for FirstInLastOut |
| `Stagers.PassSteps` | core/src/main/java/org/apache/onami/lifecycle/core/Stager.java:45-51 | one step per entry; step k is that entry's own `stage` outcome, whatever the others did |
| `Stagers.Notifications` | core/src/main/java/org/apache/onami/lifecycle/core/Stager.java:45-51 | the handler sees one notification per step, in step order |
| `Stagers.PassNotifiesEachRegistrationOnce` | core/src/main/java/org/apache/onami/lifecycle/core/Stager.java:22-24 | a pass notifies exactly as many times as there are registrations; notification k is entry k's own outcome (failure isolation); each target is named exactly as often as it was registered |
| `Stagers.PassOrder` | core/src/main/java/org/apache/onami/lifecycle/core/Stager.java:22-26 | targets are notified in registration order under FirstInFirstOut and in reverse registration order under FirstInLastOut |
| `Stagers.Stager.constructor` | core/src/main/java/org/apache/onami/lifecycle/core/Stager.java:53-58 | the stage identity and the order are fixed at construction; nothing is registered yet |
| `Stagers.Stager.GetStage` | core/src/main/java/org/apache/onami/lifecycle/core/Stager.java:53-58 | returns the stage identity given at construction, with no effect on the stager |
| `Stagers.Stager.Register` | core/src/main/java/org/apache/onami/lifecycle/core/Stager.java:33-38 | the stageable is appended after every earlier registration, so the next pass stages it |
| `Stagers.Stager.StageWith` | core/src/main/java/org/apache/onami/lifecycle/core/Stager.java:45-51 | the pass runs `stage` on every pending registration in traversal order, with the caller's handler, which receives exactly the notifications of that pass; nothing is left pending |
| `Stagers.Stager.StageDefault` | core/src/main/java/org/apache/onami/lifecycle/core/Stager.java:40-43 | the same pass as `StageWith`, reported to a handler the caller never sees |
| `Stagers.FirstInLastOutScenario` | guava/src/main/java/org/apache/onami/lifecycle/guava/GuavaServiceStopModule.java:40-41 | on a FIRST_IN_LAST_OUT stager, registrations a, b, c are notified as c, b, a |
| `Stagers.StageTwiceScenario` | core/src/main/java/org/apache/onami/lifecycle/core/Stager.java:40-51 | the first pass notifies once per registration, covering every target; a second pass notifies nothing |
| `LifeCycle.ProvisionFailure` | core/src/main/java/org/apache/onami/lifecycle/core/LifeCycleModule.java:100-116 | every caught throwable becomes a ProvisionException; IllegalArgumentException and IllegalAccessException get their own kinds and are kept as the cause; an InvocationTargetException is replaced by its cause; anything else is the cause itself |
| `LifeCycle.AfterInjection` | core/src/main/java/org/apache/onami/lifecycle/core/LifeCycleModule.java:89-116 | completes iff the invocation and the non-null handler both returned normally; the handler runs only after a normal return and only if non-null; a failure from either goes through the catch clauses in order |
| `LifeCycle.FailureThrownNotSwallowed` | core/src/main/java/org/apache/onami/lifecycle/core/LifeCycleModule.java:184-218 | where StageableMethod reports a failed invocation through onError, afterInjection throws a ProvisionException carrying the same cause |
| `LifeCycle.NoHandlerCompletesOnReturn` | core/src/main/java/org/apache/onami/lifecycle/core/LifeCycleModule.java:89-98 | with a null handler, injection completes iff the invocation returns normally, and no handler runs |
| `LifeCycle.Listens` | core/src/main/java/org/apache/onami/lifecycle/core/LifeCycleModule.java:68-73 | the by-name listener hears exactly the types that `clz` is assignable from; the by-annotation listener hears exactly the types its matcher accepts (all of them for `any()`) |
| `LifeCycle.HearByName` | core/src/main/java/org/apache/onami/lifecycle/core/LifeCycleModule.java:76-124 | a found method gets one listener carrying the binding's handler; a failed lookup (a null name included) is added to the encounter as an error, and no listener is registered |
| `LifeCycle.BindLifeCycleByName` | core/src/main/java/org/apache/onami/lifecycle/core/LifeCycleModule.java:59-62 | delegates with a null result handler |
| `LifeCycle.BindLifeCycleByAnnotation` | core/src/main/java/org/apache/onami/lifecycle/core/LifeCycleModule.java:133-136 | delegates with the single annotation, `any()` and a null handler |
| `LifeCycle.BindLifeCycleByAnnotationWithHandler` | core/src/main/java/org/apache/onami/lifecycle/core/LifeCycleModule.java:138-141 | delegates with the single annotation, `any()` and the given handler |
| `LifeCycle.BindLifeCycleByAnnotationMatching` | core/src/main/java/org/apache/onami/lifecycle/core/LifeCycleModule.java:149-152 | delegates with the single annotation, the given matcher and a null handler |
| `LifeCycle.BindLifeCycleByAnnotations` | core/src/main/java/org/apache/onami/lifecycle/core/LifeCycleModule.java:160-163 | delegates with the given annotations and matcher and a null handler |
| `LifeCycleStage.CheckNotNull` | core/src/main/java/org/apache/onami/lifecycle/core/LifeCycleStageModule.java:255-262 | a null argument throws IllegalArgumentException("<message> must not be null."); a non-null one is returned unchanged |
| `LifeCycleStage.DefaultBinding` | core/src/main/java/org/apache/onami/lifecycle/core/LifeCycleStageModule.java:216-227 | a new builder has the `any()` matcher, the no-op mapper and a null method |
| `LifeCycleStage.SetMapper` | core/src/main/java/org/apache/onami/lifecycle/core/LifeCycleStageModule.java:229-234 | a null mapper is rejected with its message; otherwise only the mapper changes |
| `LifeCycleStage.SetMatcher` | core/src/main/java/org/apache/onami/lifecycle/core/LifeCycleStageModule.java:236-240 | a null matcher is rejected with its message; otherwise only the matcher changes |
| `LifeCycleStage.SetMethod` | core/src/main/java/org/apache/onami/lifecycle/core/LifeCycleStageModule.java:242-252 | fails iff the stage is not an annotation type and the method is null; otherwise stores the given method (null included) and nothing else |
| `LifeCycleStage.NewBinding` | core/src/main/java/org/apache/onami/lifecycle/core/LifeCycleStageModule.java:169-188 | a null stager is rejected first with its message; a null matcher or mapper keeps the default; the method is checked as `withMethod` checks it; nothing else fails |
| `LifeCycleStage.ApplyFluent` | core/src/main/java/org/apache/onami/lifecycle/core/LifeCycleStageModule.java:190-208 | fluent `mappingWith`/`matching` calls fail iff some call passes null, with the first such call's IllegalArgumentException; otherwise the last `mappingWith` decides the mapper and the last `matching` the matcher (the earlier value when there is none), and the stager and method are never changed |
| `LifeCycleStage.StepBinding` | core/src/main/java/org/apache/onami/lifecycle/core/LifeCycleStageModule.java:164-188 | a `bindStager` call and its fluent calls fail iff the stager is null, a non-annotation stage gets a null method, or a fluent call passes null; otherwise the builder holds the given stager and method |
| `LifeCycleStage.RunStep` | core/src/main/java/org/apache/onami/lifecycle/core/LifeCycleStageModule.java:162-188 | a nested `configure` fails with "Re-entry is not allowed"; a thrown exception propagates; a `bindStager` step succeeds iff its builder passes every check, and then appends exactly that builder after those already pending |
| `LifeCycleStage.RunStepsSucceeds` | core/src/main/java/org/apache/onami/lifecycle/core/LifeCycleStageModule.java:85-88 | `configureBindings` returns normally iff every step is a `bindStager` call whose builder passes every check |
| `LifeCycleStage.RunStepsCollects` | core/src/main/java/org/apache/onami/lifecycle/core/LifeCycleStageModule.java:85-92 | after a normal return, the pending list is the earlier builders followed by each `bindStager` call's builder, in call order |
| `LifeCycleStage.RunStepsFirstError` | core/src/main/java/org/apache/onami/lifecycle/core/LifeCycleStageModule.java:85-88 | when `configureBindings` throws, the exception is that of the first step that does not return normally, every earlier step having passed |
| `LifeCycleStage.CollectedOnSuccess` | core/src/main/java/org/apache/onami/lifecycle/core/LifeCycleStageModule.java:85-92 | after a normal return, the collected builders are exactly the `bindStager` calls' builders, in call order |
| `LifeCycleStage.ReentryFails` | core/src/main/java/org/apache/onami/lifecycle/core/LifeCycleStageModule.java:81-84 | a configuration that calls `configure` from inside always fails, with IllegalStateException when the nested call comes first |
| `LifeCycleStage.Bind` | core/src/main/java/org/apache/onami/lifecycle/core/LifeCycleStageModule.java:100-160 | binds the stager under its stage, then one listener with the builder's matcher and mapper: the annotation-based listener, scanning for the stage annotation itself, iff the stage is an annotation type, otherwise the method-name listener carrying the builder's method |
| `LifeCycleStage.BindAllInOrder` | core/src/main/java/org/apache/onami/lifecycle/core/LifeCycleStageModule.java:89-92 | every pending builder is bound, in insertion order: builder k gives entries 2k and 2k+1 |
| `LifeCycleStage.HearAnnotated` | core/src/main/java/org/apache/onami/lifecycle/core/LifeCycleStageModule.java:114-128 | the annotation listener always registers one injection listener for the given method and parent type, with its stager and mapper |
| `LifeCycleStage.HearNamed` | core/src/main/java/org/apache/onami/lifecycle/core/LifeCycleStageModule.java:136-157 | a failed method lookup is added to the encounter as an error and no listener is registered; otherwise one listener for the found method and the heard type |
| `LifeCycleStage.AfterInjection` | core/src/main/java/org/apache/onami/lifecycle/core/LifeCycleStageModule.java:121-126 | each injection first registers exactly one new StageableMethod for the injectee with the stager, then makes exactly one registerType call with it and the type; the two calls appear in that order in one trace; an exception from a user mapper escapes, with the stageable already registered |
| `LifeCycleStage.InjectionTrace.Register` | core/src/main/java/org/apache/onami/lifecycle/core/LifeCycleStageModule.java:124 | the stageable is appended after the stager's earlier registrations, and the registration is recorded as the next call in the trace |
| `LifeCycleStage.InjectionTrace.RegisterType` | core/src/main/java/org/apache/onami/lifecycle/core/LifeCycleStageModule.java:125 | the call is recorded; the no-op mapper returns normally, a user mapper's exception is returned |
| `LifeCycleStage.ThrowingMapperScenario` | core/src/main/java/org/apache/onami/lifecycle/core/LifeCycleStageModule.java:121-126 | when a user mapper's registerType throws, afterInjection throws that exception and the stageable stays registered |
| `LifeCycleStage.NamedInjectionScenario` | core/src/main/java/org/apache/onami/lifecycle/core/LifeCycleStageModule.java:140-156 | for a non-annotation stage, one injectee gives either the lookup error and no call, or one registration followed by one call to the default mapper |
| `LifeCycleStage.BindingBuilder.constructor` | core/src/main/java/org/apache/onami/lifecycle/core/LifeCycleStageModule.java:216-227 | the builder starts with the given stager and the defaults |
| `LifeCycleStage.BindingBuilder.MappingWith` | core/src/main/java/org/apache/onami/lifecycle/core/LifeCycleStageModule.java:229-234 | updates the builder as `SetMapper` says, and on a throw leaves it unchanged |
| `LifeCycleStage.BindingBuilder.Matching` | core/src/main/java/org/apache/onami/lifecycle/core/LifeCycleStageModule.java:236-240 | updates the builder as `SetMatcher` says, and on a throw leaves it unchanged |
| `LifeCycleStage.BindingBuilder.WithMethod` | core/src/main/java/org/apache/onami/lifecycle/core/LifeCycleStageModule.java:242-252 | updates the builder as `SetMethod` says, and on a throw leaves it unchanged |
| `LifeCycleStage.BindingBuilder.ApplyCalls` | core/src/main/java/org/apache/onami/lifecycle/core/LifeCycleStageModule.java:190-208 | runs the fluent calls in order up to the first throw, as `ApplyFluent` says |
| `LifeCycleStage.LifeCycleStageModule.constructor` | core/src/main/java/org/apache/onami/lifecycle/core/LifeCycleStageModule.java:47 | the pending list starts null and nothing is bound |
| `LifeCycleStage.LifeCycleStageModule.BindStagerWith` | core/src/main/java/org/apache/onami/lifecycle/core/LifeCycleStageModule.java:169-188 | a rejected argument throws and adds nothing; a builder that passes every check is appended to the pending list, or throws NullPointerException when called outside `configure` |
| `LifeCycleStage.LifeCycleStageModule.BindStagerDefault` | core/src/main/java/org/apache/onami/lifecycle/core/LifeCycleStageModule.java:164-167 | behaves as the four-argument form with null matcher, mapper and method |
| `LifeCycleStage.LifeCycleStageModule.Configure` | core/src/main/java/org/apache/onami/lifecycle/core/LifeCycleStageModule.java:78-98 | a nested call throws IllegalStateException("Re-entry is not allowed") and changes nothing; otherwise it binds every collected builder in order, or binds nothing and rethrows; in both cases the pending list is null again afterwards; what is bound is the `bindStager` calls' builders in call order |
| `LifeCycleStage.LifeCycleStageModule.RunConfigStep` | core/src/main/java/org/apache/onami/lifecycle/core/LifeCycleStageModule.java:164-188 | one step of `configureBindings`: a nested `configure` throws IllegalStateException, a raised exception propagates, and a `bindStager` call with its fluent calls either appends the builder `StepBinding` describes or returns the first exception |
| `LifeCycleStage.LifeCycleStageModule.BindBuilders` | core/src/main/java/org/apache/onami/lifecycle/core/LifeCycleStageModule.java:89-92 | the binder receives `bind` of every collected builder, in the order they were added |
| `LifeCycleStage.LifeCycleStageModule.RunConfigureBindings` | core/src/main/java/org/apache/onami/lifecycle/core/LifeCycleStageModule.java:85-88 | the pending builders after `configureBindings` hold exactly the values `RunSteps` computes, or the first exception thrown is returned |
| `LifeCycleStage.ConfigureTwiceScenario` | core/src/main/java/org/apache/onami/lifecycle/core/LifeCycleStageModule.java:94-97 | a second, sequential `configure` is not refused and ends as the first did; a configuration that re-enters fails |
| `LifeCycleStage.BindOutsideConfigureScenario` | core/src/main/java/org/apache/onami/lifecycle/core/LifeCycleStageModule.java:183-185 | outside `configure`, a call that passes its argument checks throws NullPointerException; a null method for a non-annotation stage throws the method's IllegalArgumentException first |

## Left out

- Guice plumbing is left out: `key`/`type` (the `Key` and `TypeLiteral` of a stager), `bindListener` and `TypeEncounter`. Each `bind` is recorded as a list of binder entries, and a `hear` as an `Encounter` value.
- `AbstractMethodTypeListener` (which methods carry the stage annotation) is not part of this model. `HearAnnotated` takes the method it would pass.
- `DefaultStager`, `DisposingStager`, `AbstractBasicStageable` and `NoOpStageableTypeMapper` are not part of this model. Repeated staging follows the policy stated above. A `registerType` call is recorded as an outbound call in the injection trace. The default no-op mapper returns normally; what a user mapper returns or throws is a parameter of the trace (`custom`), since its code is not part of the core.
- Reflection and security are given as the functions of `Environment`: `setAccessible` inside `doPrivileged`, `invoke`, `getMethod` and `isAssignableFrom`. Each call's outcome is a fixed function of its arguments, so a method that behaves differently on a second call is not modelled. In particular, `invoke` has the same outcome whether or not `setAccessible(true)` ran before it: `stage` makes the method accessible first and `afterInjection` does not, and the model does not capture that effect on whether `invoke` throws `IllegalAccessException`.
- A `getMethod` that throws an `Error` instead of an `Exception` would escape the `catch (Exception)` of `hear`. The model treats every lookup failure as an exception that is caught.
- Log messages and the exact text of `ProvisionException` messages built with `String.format` are left out. Only the kind and the cause are modelled.
- Building those texts calls `injectee.toString()`: in the log lines (`LifeCycleModule.java:87`, `:93`, `:182`, `:188`) and in the `format` calls of the catch clauses (`:107-115`, `:204-217`). A `toString` that throws is not modelled. In the source, an exception from the log line before the `try` escapes `afterInjection` unchanged and the method is never invoked. One from the log line after `invoke` is classified by the catch clauses in order (an `IllegalArgumentException`, such as a `NumberFormatException`, gives the "requires arguments" `ProvisionException`), and the result handler is skipped. One from a catch clause escapes in place of the `ProvisionException`.
- A subclass of a caught exception is modelled by the kind of its catch clause (a `NumberFormatException` is an `IllegalArgumentException`), so the cause a `ProvisionException` or `onError` carries does not record its exact subclass.
- Thread-safety of registration is left out. The model is sequential.
- A stageable or handler that registers more stageables during a pass is not modelled.
- `StageHandler` and `InvocationResultHandler` implementations are left out. The handler is a recording observer, and the result handler's outcome comes from `Environment`.
- A `StageHandler` whose `onSuccess` or `onError` throws is not modelled: the model's handler never throws. In `StageableMethod.java:75`, `:80` and `:83` those calls sit outside the protected `invoke`, so such an exception escapes `stage` and stops the stager's pass. The failure isolation of `PassSteps` holds only for failures of the reflective calls.
- The stager is modelled over the core's single stageable kind, `StageableMethod`. `Stager.register` accepts any `Stageable`, and another implementation's `stage` could notify zero or several times. The one-notification-per-registration property rests on `StageableMethod`'s contract.
- The user's `configureBindings` is a list of steps: bind a stager (then make fluent calls on the returned builder), call `configure` from inside, or throw. The following are not modelled:
  - user code that catches an exception and continues;
  - fluent calls made later on an older builder;
  - other bindings the subclass makes.
