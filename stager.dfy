/**
 * The Stager: a mini-container that collects stageables and, when staged,
 * calls each one's `stage(handler)` in the order its Order fixes.
 */
module Stagers {
  import opened JavaModel
  import opened Stageables

  /** The two traversal orders a stager can be built with. */
  datatype Order = FirstInFirstOut | FirstInLastOut

  /** A sequence read newest-first. */
  function Reverse<T>(s: seq<T>): (r: seq<T>)
  {
    if s == [] then [] else [s[|s| - 1]] + Reverse(s[..|s| - 1])
  }

  lemma {:induction false} ReverseIndex<T>(s: seq<T>)
    ensures |Reverse(s)| == |s|
    ensures forall k :: 0 <= k < |s| ==> Reverse(s)[k] == s[|s| - 1 - k]
  {
    if s != [] {
      ReverseIndex(s[..|s| - 1]);
    }
  }

  lemma {:induction false} ReversePermutes<T>(s: seq<T>)
    ensures multiset(Reverse(s)) == multiset(s)
  {
    if s != [] {
      var init := s[..|s| - 1];
      ReversePermutes(init);
      assert s == init + [s[|s| - 1]];
    }
  }

  /**
   * The order in which a pass visits the registrations: registration order
   * for FirstInFirstOut, its reverse for FirstInLastOut. Either way it is a
   * permutation of the registrations.
   */
  function Traversal(order: Order, registered: seq<Stageable>): (t: seq<Stageable>)
    ensures |t| == |registered|
    ensures multiset(t) == multiset(registered)
    ensures order == FirstInFirstOut ==> t == registered
    ensures order == FirstInLastOut ==>
              forall k :: 0 <= k < |t| ==> t[k] == registered[|registered| - 1 - k]
  {
    match order
    case FirstInFirstOut => registered
    case FirstInLastOut =>
      ReverseIndex(registered);
      ReversePermutes(registered);
      Reverse(registered)
  }

  /** The step of every entry of a pass, in the order the entries are visited. */
  function PassSteps(entries: seq<Stageable>, env: Environment): (steps: seq<StageStep>)
    ensures |steps| == |entries|
    ensures forall k :: 0 <= k < |entries| ==> steps[k] == Stage(entries[k], env)
  {
    if entries == [] then []
    else PassSteps(entries[..|entries| - 1], env) + [Stage(entries[|entries| - 1], env)]
  }

  /** The notifications a handler receives from a sequence of steps. */
  function Notifications(steps: seq<StageStep>): (events: seq<StageEvent>)
    ensures |events| == |steps|
    ensures forall k :: 0 <= k < |steps| ==> events[k] == steps[k].event
  {
    if steps == [] then []
    else Notifications(steps[..|steps| - 1]) + [steps[|steps| - 1].event]
  }

  lemma PassStepsExtend(entries: seq<Stageable>, i: nat, env: Environment)
    requires i < |entries|
    ensures PassSteps(entries[..i + 1], env) == PassSteps(entries[..i], env) + [Stage(entries[i], env)]
  {
    assert entries[..i + 1][..i] == entries[..i];
  }

  lemma NotificationsExtend(steps: seq<StageStep>, step: StageStep)
    ensures Notifications(steps + [step]) == Notifications(steps) + [step.event]
  {
    assert (steps + [step])[..|steps|] == steps;
  }

  /** The targets named by a sequence of notifications. */
  function Targets(events: seq<StageEvent>): (ts: seq<ObjRef>)
    ensures |ts| == |events|
    ensures forall k :: 0 <= k < |events| ==> ts[k] == events[k].target
  {
    if events == [] then [] else Targets(events[..|events| - 1]) + [events[|events| - 1].target]
  }

  /** The target objects of a sequence of stageables. */
  function Objects(entries: seq<Stageable>): (os: seq<ObjRef>)
    ensures |os| == |entries|
    ensures forall k :: 0 <= k < |entries| ==> os[k] == entries[k].target
  {
    seq(|entries|, k requires 0 <= k < |entries| => entries[k].target)
  }

  /** The targets a handler is told about during a pass over `registered`. */
  function PassTargets(order: Order, registered: seq<Stageable>, env: Environment): seq<ObjRef>
  {
    Targets(Notifications(PassSteps(Traversal(order, registered), env)))
  }

  /**
   * A pass notifies the handler once per registration, whatever each entry
   * reports: entry k of the traversal gets exactly the notification its own
   * `stage` produces, and every registered target is named as many times as
   * it was registered.
   */
  lemma {:induction false} PassNotifiesEachRegistrationOnce(order: Order, registered: seq<Stageable>, env: Environment)
    ensures |Notifications(PassSteps(Traversal(order, registered), env))| == |registered|
    ensures forall k :: 0 <= k < |registered| ==>
              Notifications(PassSteps(Traversal(order, registered), env))[k]
                == Stage(Traversal(order, registered)[k], env).event
    ensures multiset(PassTargets(order, registered, env)) == multiset(Objects(registered))
  {
    PassOrder(order, registered, env);
    if order == FirstInLastOut {
      ReversePermutes(Objects(registered));
    }
  }

  /**
   * The order of a pass: registration order under FirstInFirstOut, and
   * newest first under FirstInLastOut, so the last registered is staged first.
   */
  lemma {:induction false} PassOrder(order: Order, registered: seq<Stageable>, env: Environment)
    ensures order == FirstInFirstOut ==> PassTargets(order, registered, env) == Objects(registered)
    ensures order == FirstInLastOut ==> PassTargets(order, registered, env) == Reverse(Objects(registered))
  {
    var t := Traversal(order, registered);
    var ts := PassTargets(order, registered, env);
    assert |ts| == |registered|;
    if order == FirstInFirstOut {
      assert forall k :: 0 <= k < |ts| ==> ts[k] == Objects(registered)[k];
    } else {
      ReverseIndex(Objects(registered));
      assert forall k :: 0 <= k < |ts| ==> ts[k] == Reverse(Objects(registered))[k];
    }
  }

  class Stager {
    /** The stage identity this stager represents (the `A` of `Stager<A>`). */
    const stage: ClassRef
    const order: Order
    /** The registrations not yet staged, oldest first. */
    var registered: seq<Stageable>
    /** The steps of the most recent pass, in the order they ran. */
    var lastPass: seq<StageStep>

    constructor (stage: ClassRef, order: Order)
      ensures this.stage == stage && this.order == order
      ensures registered == [] && lastPass == []
    {
      this.stage := stage;
      this.order := order;
      registered := [];
      lastPass := [];
    }

    /** `getStage()`: the identity given at construction; reading it changes nothing. */
    function GetStage(): (s: ClassRef)
      ensures s == stage
    {
      stage
    }

    /** `register(stageable)`: the stageable joins the next pass, after every earlier registration. */
    method Register(s: Stageable)
      modifies this`registered
      ensures registered == old(registered) + [s]
    {
      registered := registered + [s];
    }

    /**
     * `stage(handler)`: visits every pending registration once, in the
     * stager's order, calls its `stage(handler)` with the caller's handler
     * whatever the earlier entries reported, and leaves nothing pending.
     */
    method StageWith(handler: StageHandler, env: Environment)
      modifies this`registered, this`lastPass, handler
      ensures lastPass == PassSteps(Traversal(order, old(registered)), env)
      ensures handler.events == old(handler.events) + Notifications(lastPass)
      ensures registered == []
    {
      var entries := Traversal(order, registered);
      registered := [];
      var steps: seq<StageStep> := [];
      for i := 0 to |entries|
        invariant registered == []
        invariant steps == PassSteps(entries[..i], env)
        invariant handler.events == old(handler.events) + Notifications(steps)
      {
        StageInto(entries[i], handler, env);
        PassStepsExtend(entries, i, env);
        NotificationsExtend(steps, Stage(entries[i], env));
        steps := steps + [Stage(entries[i], env)];
      }
      assert entries[..|entries|] == entries;
      lastPass := steps;
    }

    /** `stage()`: the same pass, reported to a handler of the stager's own that the caller never sees. */
    method StageDefault(env: Environment)
      modifies this`registered, this`lastPass
      ensures lastPass == PassSteps(Traversal(order, old(registered)), env)
      ensures registered == []
    {
      var discard := new StageHandler();
      StageWith(discard, env);
    }
  }

  /**
   * A client of the contracts above: three registrations on a
   * FirstInLastOut stager are staged newest first.
   */
  method FirstInLastOutScenario(stage: ClassRef, a: Stageable, b: Stageable, c: Stageable, env: Environment)
    returns (notified: seq<ObjRef>)
    ensures notified == [c.target, b.target, a.target]
  {
    var stager := new Stager(stage, FirstInLastOut);
    stager.Register(a);
    stager.Register(b);
    stager.Register(c);
    var handler := new StageHandler();
    stager.StageWith(handler, env);
    notified := Targets(handler.events);
  }

  /**
   * A client that registers `entries` and stages twice: the first pass
   * notifies once per registration, the second finds nothing left to stage.
   */
  method StageTwiceScenario(stage: ClassRef, order: Order, entries: seq<Stageable>, env: Environment)
    returns (first: seq<StageEvent>, second: seq<StageEvent>)
    ensures |first| == |entries|
    ensures multiset(Targets(first)) == multiset(Objects(entries))
    ensures second == []
  {
    var stager := new Stager(stage, order);
    for i := 0 to |entries|
      invariant stager.registered == entries[..i]
    {
      stager.Register(entries[i]);
      assert entries[..i + 1] == entries[..i] + [entries[i]];
    }
    assert entries[..|entries|] == entries;
    var handler := new StageHandler();
    stager.StageWith(handler, env);
    first := handler.events;
    PassNotifiesEachRegistrationOnce(order, entries, env);
    assert first == Notifications(PassSteps(Traversal(order, entries), env));
    assert stager.registered == [];
    var again := new StageHandler();
    stager.StageWith(again, env);
    assert PassSteps(Traversal(order, []), env) == [];
    second := again.events;
  }
}
