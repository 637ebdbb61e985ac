/** The dependency-tracking engine: the shared read log and subscriber graph,
    the observable wrapper that intercepts field reads and writes, and
    reactions whose `track` turns the reads of a function into subscriptions. */
module Reactive {
  import opened Identity
  import opened Graph

  /** A field value of a plain record. Functions are references, compared by id. */
  datatype Value = Undefined | Number(n: int) | Text(s: string) | Function(code: nat) {
    /** `typeof v === "function"` */
    predicate IsFunction() {
      Function?
    }
  }

  /** Property access on a record: a missing key reads as `undefined`. Inherited
      members (the prototype chain) are not part of the model. */
  function Lookup(m: map<string, Value>, key: string): Value {
    if key in m then m[key] else Undefined
  }

  /** The two pieces of module-level state every tracked object and reaction share. */
  class Engine {
    /** accessedProperties: identities read since the last `track` began, in read order. */
    var accessed: seq<PropertyId>
    /** derivationGraph: identity to the callbacks to invoke when it is written. */
    var graph: SubscriberGraph

    constructor ()
      ensures accessed == [] && graph == map[]
    {
      accessed := [];
      graph := map[];
    }

    /** The last step of `track`: for each logged identity, in log order, create its
        list if missing and append `cb` unless it is already listed. */
    method RecordReads(cb: CallbackId)
      modifies this`graph
      ensures graph == Subscribe(old(graph), accessed, cb)
      ensures WellFormed(old(graph)) ==> WellFormed(graph)
    {
      var j := 0;
      while j < |accessed|
        invariant 0 <= j <= |accessed|
        invariant graph == Subscribe(old(graph), accessed[..j], cb)
      {
        var id := accessed[j];
        assert accessed[..j + 1][..j] == accessed[..j];
        if id !in graph {
          graph := graph[id := []];
        }
        if cb !in graph[id] {
          graph := graph[id := graph[id] + [cb]];
        }
        j := j + 1;
      }
      assert accessed[..j] == accessed;
      if WellFormed(old(graph)) {
        SubscribeKeepsWellFormed(old(graph), accessed, cb);
      }
    }
  }

  /** The plain record that a tracked object wraps, shared by reference. */
  class Target {
    var fields: map<string, Value>

    constructor (fields: map<string, Value>)
      ensures this.fields == fields
    {
      this.fields := fields;
    }
  }

  /** The keys intercepted when `target` is wrapped: those present and not holding a function. */
  function InterceptedIds(instance: nat, fields: map<string, Value>): (r: map<string, PropertyId>)
    ensures forall k :: k in r ==> k in fields && !fields[k].IsFunction() && r[k] == PropertyIdOf(instance, k)
    ensures forall k :: k in fields && !fields[k].IsFunction() ==> k in r
  {
    map k | k in fields && !fields[k].IsFunction() :: PropertyIdOf(instance, k)
  }

  /** The function-valued keys, copied onto the wrapper by reference. */
  function CopiedMethods(fields: map<string, Value>): (r: map<string, Value>)
    ensures forall k :: k in r ==> k in fields && r[k] == fields[k] && r[k].IsFunction()
    ensures forall k :: k in fields && fields[k].IsFunction() ==> k in r
  {
    map k | k in fields && fields[k].IsFunction() :: fields[k]
  }

  /** Wrapping splits the fields present: each key is either intercepted or copied,
      never both, and distinct intercepted keys get distinct identities. */
  lemma WrapPartitionsFields(instance: nat, fields: map<string, Value>)
    ensures InterceptedIds(instance, fields).Keys !! CopiedMethods(fields).Keys
    ensures InterceptedIds(instance, fields).Keys + CopiedMethods(fields).Keys == fields.Keys
    ensures forall k, j :: k in InterceptedIds(instance, fields) && j in InterceptedIds(instance, fields) && k != j ==>
              InterceptedIds(instance, fields)[k] != InterceptedIds(instance, fields)[j]
  {
    var ids := InterceptedIds(instance, fields);
    forall k, j | k in ids && j in ids && k != j
      ensures ids[k] != ids[j]
    {
      PropertyIdInjective(instance, k, instance, j);
    }
  }

  /** Handling one more key of the wrap loop extends the split by that key alone. */
  lemma WrapStep(instance: nat, fields: map<string, Value>, remaining: set<string>, key: string)
    requires key in remaining && remaining <= fields.Keys
    ensures InterceptedIds(instance, fields - (remaining - {key})) ==
              if fields[key].IsFunction() then InterceptedIds(instance, fields - remaining)
              else InterceptedIds(instance, fields - remaining)[key := PropertyIdOf(instance, key)]
  {
  }

  /** The same for the copied methods. */
  lemma CopyStep(fields: map<string, Value>, remaining: set<string>, key: string)
    requires key in remaining && remaining <= fields.Keys
    ensures CopiedMethods(fields - (remaining - {key})) ==
              if fields[key].IsFunction() then CopiedMethods(fields - remaining)[key := fields[key]]
              else CopiedMethods(fields - remaining)
  {
  }

  /** The object `observable(target)` returns. */
  class ObservableObject {
    /** The per-instance id (Math.random() in the source). */
    const instance: nat
    const target: Target
    /** The keys with a getter and setter, each with its property identity. */
    const identities: map<string, PropertyId>
    /** The wrapper's own plain properties: the copied methods, and anything
        later assigned to a key without a setter. */
    var own: map<string, Value>

    /** `observable(target)`: walks the keys present in `target` now; a key holding a
        function is copied as it is, every other key gets an interceptor. */
    constructor (instance: nat, target: Target)
      ensures this.instance == instance && this.target == target
      ensures identities == InterceptedIds(instance, target.fields)
      ensures own == CopiedMethods(target.fields)
      ensures forall k :: k in identities <==> k in target.fields && !target.fields[k].IsFunction()
      ensures forall k :: k in identities ==> identities[k] == PropertyIdOf(instance, k)
    {
      var fields := target.fields;
      var remaining := fields.Keys;
      var ids: map<string, PropertyId> := map[];
      var copied: map<string, Value> := map[];
      while remaining != {}
        invariant remaining <= fields.Keys
        invariant ids == InterceptedIds(instance, fields - remaining)
        invariant copied == CopiedMethods(fields - remaining)
        decreases remaining
      {
        var key :| key in remaining;
        var id := PropertyIdOf(instance, key);
        WrapStep(instance, fields, remaining, key);
        CopyStep(fields, remaining, key);
        if !fields[key].IsFunction() {
          ids := ids[key := id];
        } else {
          copied := copied[key := fields[key]];
        }
        remaining := remaining - {key};
      }
      assert fields - remaining == fields;
      this.instance := instance;
      this.target := target;
      identities := ids;
      own := copied;
    }

    /** Reading `wrapper[key]`. An intercepted key logs its identity and returns the
        target's current value; any other key reads the wrapper's own property. */
    method Get(engine: Engine, key: string) returns (v: Value)
      modifies engine`accessed
      ensures key in identities ==>
                engine.accessed == old(engine.accessed) + [identities[key]] &&
                v == Lookup(target.fields, key)
      ensures key !in identities ==>
                engine.accessed == old(engine.accessed) && v == Lookup(own, key)
    {
      if key in identities {
        engine.accessed := engine.accessed + [identities[key]];
        v := Lookup(target.fields, key);
      } else {
        v := Lookup(own, key);
      }
    }

    /** Writing `wrapper[key] = val`. An intercepted key stores `val` in the target
        first and then invokes the callbacks subscribed to its identity, in list
        order; `fired` is that sequence of invocations. Any other key just sets the
        wrapper's own property and invokes nothing. */
    method Set(engine: Engine, key: string, val: Value) returns (fired: seq<CallbackId>)
      modifies target`fields, this`own
      ensures key in identities ==>
                target.fields == old(target.fields)[key := val] && own == old(own) &&
                fired == Subscribers(engine.graph, identities[key])
      ensures key !in identities ==>
                target.fields == old(target.fields) && own == old(own)[key := val] && fired == []
    {
      fired := [];
      if key in identities {
        var id := identities[key];
        target.fields := target.fields[key := val];
        if id in engine.graph {
          var subscribers := engine.graph[id];
          var i := 0;
          while i < |subscribers|
            invariant 0 <= i <= |subscribers|
            invariant fired == subscribers[..i]
          {
            fired := fired + [subscribers[i]];
            i := i + 1;
          }
        }
      } else {
        own := own[key := val];
      }
    }
  }

  /** One step of a tracked function: reading or writing a field of a wrapper. */
  datatype Event =
    | Read(obj: ObservableObject, key: string)
    | Write(obj: ObservableObject, key: string, value: Value)

  function Objects(fn: seq<Event>): set<ObservableObject> {
    set e | e in fn :: e.obj
  }

  /** Every object a tracked function may change: the wrappers and their targets. */
  function Footprint(fn: seq<Event>): set<object> {
    (set e | e in fn :: e.obj) + (set e | e in fn :: e.obj.target)
  }

  /** The identity a single event appends to the read log: one for a read through
      an interceptor, none otherwise. */
  function Logged(e: Event): seq<PropertyId> {
    if e.Read? && e.key in e.obj.identities then [e.obj.identities[e.key]] else []
  }

  /** The callbacks a single event invokes when the graph is `g`. */
  function Notified(e: Event, g: SubscriberGraph): seq<CallbackId> {
    if e.Write? && e.key in e.obj.identities then Subscribers(g, e.obj.identities[e.key]) else []
  }

  /** The fields of target `t` after one event. */
  function TargetStep(t: Target, e: Event, m: map<string, Value>): map<string, Value> {
    if e.Write? && e.obj.target == t && e.key in e.obj.identities then m[e.key := e.value] else m
  }

  /** The own properties of wrapper `o` after one event. */
  function OwnStep(o: ObservableObject, e: Event, m: map<string, Value>): map<string, Value> {
    if e.Write? && e.obj == o && e.key !in e.obj.identities then m[e.key := e.value] else m
  }

  /** The identities a function's reads append to the read log, in order, repeats kept. */
  function ReadLog(fn: seq<Event>): seq<PropertyId>
    decreases |fn|
  {
    if fn == [] then [] else ReadLog(fn[..|fn| - 1]) + Logged(fn[|fn| - 1])
  }

  /** The callbacks a function's writes invoke, in order, when the graph is `g`. */
  function FiredBy(fn: seq<Event>, g: SubscriberGraph): seq<CallbackId>
    decreases |fn|
  {
    if fn == [] then [] else FiredBy(fn[..|fn| - 1], g) + Notified(fn[|fn| - 1], g)
  }

  /** The fields of target `t` after the function's intercepted writes to it. */
  function TargetAfter(t: Target, fn: seq<Event>, init: map<string, Value>): map<string, Value>
    decreases |fn|
  {
    if fn == [] then init else TargetStep(t, fn[|fn| - 1], TargetAfter(t, fn[..|fn| - 1], init))
  }

  /** The own properties of wrapper `o` after the function's plain writes to it. */
  function OwnAfter(o: ObservableObject, fn: seq<Event>, init: map<string, Value>): map<string, Value>
    decreases |fn|
  {
    if fn == [] then init else OwnStep(o, fn[|fn| - 1], OwnAfter(o, fn[..|fn| - 1], init))
  }

  /** Performs one event through the wrapper's getter or setter. */
  method Perform(engine: Engine, e: Event, ghost wrappers: set<ObservableObject>) returns (fired: seq<CallbackId>)
    modifies engine`accessed, e.obj`own, e.obj.target`fields
    ensures engine.accessed == old(engine.accessed) + Logged(e)
    ensures fired == Notified(e, engine.graph)
    ensures e.obj.target.fields == TargetStep(e.obj.target, e, old(e.obj.target.fields))
    ensures e.obj.own == OwnStep(e.obj, e, old(e.obj.own))
    ensures forall o :: o in wrappers ==> o.target.fields == TargetStep(o.target, e, old(o.target.fields))
    ensures forall o :: o in wrappers ==> o.own == OwnStep(o, e, old(o.own))
  {
    match e {
      case Read(o, key) =>
        var _ := o.Get(engine, key);
        fired := [];
      case Write(o, key, value) =>
        fired := o.Set(engine, key, value);
    }
  }

  /** The object `createReaction(onChange)` returns. */
  class Reaction {
    /** whatShouldWeRunOnChange */
    const onChange: CallbackId

    constructor (onChange: CallbackId)
      ensures this.onChange == onChange
    {
      this.onChange := onChange;
    }

    /** `track(fn)`: clear the read log, run `fn`, then subscribe `onChange` to every
        identity in the log. `fired` lists the callbacks that `fn`'s own writes invoke.
        The new read log and the new edges come from the reads of `fn`'s own events,
        not from what the log held before. */
    method Track(engine: Engine, fn: seq<Event>) returns (fired: seq<CallbackId>)
      modifies engine, Footprint(fn)
      ensures engine.accessed == ReadLog(fn)
      ensures engine.graph == Subscribe(old(engine.graph), ReadLog(fn), onChange)
      ensures fired == FiredBy(fn, old(engine.graph))
      ensures forall o :: o in Objects(fn) ==>
                o.target.fields == TargetAfter(o.target, fn, old(o.target.fields)) &&
                o.own == OwnAfter(o, fn, old(o.own))
      ensures forall id :: id in ReadLog(fn) ==> id in engine.graph && onChange in engine.graph[id]
      ensures forall id :: id in old(engine.graph) ==> id in engine.graph && old(engine.graph)[id] <= engine.graph[id]
      ensures WellFormed(old(engine.graph)) ==> WellFormed(engine.graph)
    {
      SubscribeRegisters(engine.graph, ReadLog(fn), onChange);
      SubscribeOnlyAppends(engine.graph, ReadLog(fn), onChange);
      engine.accessed := [];
      fired := Run(engine, fn);
      assert engine.accessed == [] + ReadLog(fn) == ReadLog(fn);
      assert engine.graph == old(engine.graph);
      engine.RecordReads(onChange);
    }
  }

  /** Runs a tracked function against the wrappers: each read goes through the getter,
      each write through the setter. The graph is not changed, since the callbacks the
      writes invoke are returned rather than run. */
  method Run(engine: Engine, fn: seq<Event>) returns (fired: seq<CallbackId>)
    modifies engine`accessed, Footprint(fn)
    ensures engine.accessed == old(engine.accessed) + ReadLog(fn)
    ensures fired == FiredBy(fn, engine.graph)
    ensures forall o :: o in Objects(fn) ==>
              o.target.fields == TargetAfter(o.target, fn, old(o.target.fields)) &&
              o.own == OwnAfter(o, fn, old(o.own))
  {
    assert engine !in Footprint(fn);
    fired := [];
    var i := 0;
    while i < |fn|
      invariant 0 <= i <= |fn|
      invariant engine.accessed == old(engine.accessed) + ReadLog(fn[..i])
      invariant fired == FiredBy(fn[..i], engine.graph)
      invariant forall o :: o in Objects(fn) ==>
                  o.target.fields == TargetAfter(o.target, fn[..i], old(o.target.fields)) &&
                  o.own == OwnAfter(o, fn[..i], old(o.own))
    {
      var e := fn[i];
      assert e in fn;
      assert e.obj in Objects(fn) && e.obj in Footprint(fn) && e.obj.target in Footprint(fn);
      ghost var log := engine.accessed;
      var f := Perform(engine, e, Objects(fn));
      fired := fired + f;
      EventStep(fn, i, engine.graph);
      assert engine.accessed == old(engine.accessed) + ReadLog(fn[..i + 1]) by {
        assert engine.accessed == log + Logged(e);
        assert log + Logged(e) == old(engine.accessed) + (ReadLog(fn[..i]) + Logged(e));
      }
      assert fired == FiredBy(fn[..i + 1], engine.graph);
      i := i + 1;
      forall o | o in Objects(fn)
        ensures o.target.fields == TargetAfter(o.target, fn[..i], old(o.target.fields)) &&
                o.own == OwnAfter(o, fn[..i], old(o.own))
      {
        StateStep(o, fn, i - 1, old(o.target.fields), old(o.own));
      }
    }
    assert fn[..i] == fn;
  }

  /** One more event extends the read log and the invoked callbacks by that event's part. */
  lemma EventStep(fn: seq<Event>, i: nat, g: SubscriberGraph)
    requires i < |fn|
    ensures ReadLog(fn[..i + 1]) == ReadLog(fn[..i]) + Logged(fn[i])
    ensures FiredBy(fn[..i + 1], g) == FiredBy(fn[..i], g) + Notified(fn[i], g)
  {
    assert fn[..i + 1][..i] == fn[..i];
  }

  /** One more event extends a target's fields and a wrapper's own properties by one step. */
  lemma StateStep(o: ObservableObject, fn: seq<Event>, i: nat, fields: map<string, Value>, own: map<string, Value>)
    requires i < |fn|
    ensures TargetAfter(o.target, fn[..i + 1], fields) == TargetStep(o.target, fn[i], TargetAfter(o.target, fn[..i], fields))
    ensures OwnAfter(o, fn[..i + 1], own) == OwnStep(o, fn[i], OwnAfter(o, fn[..i], own))
  {
    assert fn[..i + 1][..i] == fn[..i];
  }

  /** `autorun(body)`: a reaction whose callback is `body` itself, tracked once now. */
  method Autorun(engine: Engine, body: CallbackId, effects: seq<Event>) returns (fired: seq<CallbackId>)
    modifies engine, Footprint(effects)
    ensures engine.accessed == ReadLog(effects)
    ensures engine.graph == Subscribe(old(engine.graph), ReadLog(effects), body)
    ensures fired == FiredBy(effects, old(engine.graph))
    ensures forall o :: o in Objects(effects) ==>
              o.target.fields == TargetAfter(o.target, effects, old(o.target.fields)) &&
              o.own == OwnAfter(o, effects, old(o.own))
  {
    var reaction := new Reaction(body);
    fired := reaction.Track(engine, effects);
  }

  /** The read log holds exactly the identities of the intercepted reads the function
      made: reading a copied method, or a key absent at wrap time, logs nothing. */
  lemma {:induction false} ReadLogExact(fn: seq<Event>, p: PropertyId)
    ensures p in ReadLog(fn) <==>
              exists e :: e in fn && e.Read? && e.key in e.obj.identities && e.obj.identities[e.key] == p
    decreases |fn|
  {
    if fn != [] {
      var init, e := fn[..|fn| - 1], fn[|fn| - 1];
      assert fn == init + [e];
      ReadLogExact(init, p);
    }
  }

  /** Each callback a function's writes invoke is subscribed to the identity of one of
      its intercepted writes; so writes that hit no subscribed identity invoke nothing. */
  lemma {:induction false} FiredByExact(fn: seq<Event>, g: SubscriberGraph, x: CallbackId)
    ensures x in FiredBy(fn, g) <==>
              exists e :: e in fn && e.Write? && e.key in e.obj.identities && x in Subscribers(g, e.obj.identities[e.key])
    decreases |fn|
  {
    if fn != [] {
      var init, e := fn[..|fn| - 1], fn[|fn| - 1];
      assert fn == init + [e];
      FiredByExact(init, g, x);
    }
  }

  lemma ReadLogOfOneRead(o: ObservableObject, key: string)
    requires key in o.identities
    ensures ReadLog([Read(o, key)]) == [o.identities[key]]
  {
  }

  /** Instance isolation: the interceptors of two wrappers share an identity only for
      the same key of the same instance. */
  lemma InstancesIsolated(a: nat, fa: map<string, Value>, k: string, b: nat, fb: map<string, Value>, j: string)
    requires k in InterceptedIds(a, fa) && j in InterceptedIds(b, fb)
    ensures InterceptedIds(a, fa)[k] == InterceptedIds(b, fb)[j] <==> a == b && k == j
  {
    PropertyIdInjective(a, k, b, j);
  }
}
