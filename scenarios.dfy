/** Clients of the engine: the behaviour the design promises, stated for
    arbitrary reactions and objects, and the concrete counter examples. */
module Scenarios {
  import opened Identity
  import opened Graph
  import opened Reactive

  /** Dependency registration: once a reaction has tracked a function that reads
      `key` of `o`, any write to `key` invokes the reaction's callback exactly once. */
  method TrackedReadFiresOnce(engine: Engine, r: Reaction, o: ObservableObject, key: string,
                              fn: seq<Event>, v: Value) returns (fired: seq<CallbackId>)
    requires Read(o, key) in fn && key in o.identities
    requires WellFormed(engine.graph)
    modifies engine, Footprint(fn)
    ensures key in o.target.fields && o.target.fields[key] == v
    ensures multiset(fired)[r.onChange] == 1
  {
    var id := o.identities[key];
    ReadLogExact(fn, id);
    FiresExactlyOnce(engine.graph, ReadLog(fn), r.onChange, id);
    var _ := r.Track(engine, fn);
    fired := o.Set(engine, key, v);
  }

  /** No spurious triggers: a write to a field whose identity has no subscribers
      invokes nothing and leaves the graph as it was. */
  method UnreadWriteIsSilent(engine: Engine, o: ObservableObject, key: string, v: Value)
      returns (fired: seq<CallbackId>)
    requires key in o.identities ==> o.identities[key] !in engine.graph
    modifies o.target, o
    ensures fired == []
    ensures engine.graph == old(engine.graph)
  {
    fired := o.Set(engine, key, v);
  }

  /** An autorun whose body reads `key`: the first run invokes nothing, a later write
      to `key` invokes the autorun exactly once and a read then sees the new value,
      and a write to a field the body did not read invokes nothing. */
  method AutorunThenWrite(engine: Engine, store: ObservableObject, key: string, other: string,
                          cb: CallbackId, v: Value)
      returns (initial: seq<CallbackId>, onWrite: seq<CallbackId>, seen: Value, onOther: seq<CallbackId>)
    requires engine.graph == map[]
    requires key in store.identities && other in store.identities
    requires store.identities[key] != store.identities[other]
    modifies engine, store, store.target
    ensures initial == [] && onWrite == [cb] && seen == v && onOther == []
  {
    var id := store.identities[key];
    ReadLogOfOneRead(store, key);
    SubscribeSingleRead(map[], id, cb);
    assert Subscribers(map[], id) == [] && Subscribers(map[], store.identities[other]) == [];
    initial := Autorun(engine, cb, [Read(store, key)]);
    assert ReadLog([Read(store, key)]) == [id];
    onWrite := store.Set(engine, key, v);
    seen := store.Get(engine, key);
    onOther := store.Set(engine, other, v);
  }

  /** The demo store: `count` and `somethingElse` are intercepted and `increment`, a
      method, is copied; an autorun logging `count` behaves as above when `count` is
      set to 5. */
  method CounterScenario() {
    var engine := new Engine();
    var t := new Target(map["count" := Number(0), "somethingElse" := Number(0), "increment" := Function(0)]);
    var store := new ObservableObject(1, t);
    assert "count" in t.fields && "somethingElse" in t.fields && "increment" in t.fields;
    assert "count" in store.identities && "somethingElse" in store.identities;
    assert "increment" !in store.identities;
    assert store.identities["count"] != store.identities["somethingElse"] by {
      PropertyIdInjective(1, "somethingElse", 1, "count");
    }
    var initial, onWrite, seen, onOther := AutorunThenWrite(engine, store, "count", "somethingElse", 7, Number(5));
    assert onWrite == [7] && seen == Number(5);
  }

  /** Reading a copied method goes past the interceptors: nothing is logged. */
  method MethodScenario() {
    var engine := new Engine();
    var t := new Target(map["count" := Number(0), "increment" := Function(0)]);
    var store := new ObservableObject(1, t);
    assert "increment" in t.fields && t.fields["increment"].IsFunction();
    assert "increment" !in store.identities;
    assert store.own["increment"] == Function(0);
    var m := store.Get(engine, "increment");
    assert m == Function(0) && engine.accessed == [];
  }

  /** Two autoruns reading the same field fire in the order they were set up. */
  method TwoAutorunsInOrder(engine: Engine, store: ObservableObject, key: string,
                            cb1: CallbackId, cb2: CallbackId, v: Value) returns (fired: seq<CallbackId>)
    requires engine.graph == map[] && key in store.identities && cb1 != cb2
    modifies engine, store, store.target
    ensures fired == [cb1, cb2]
  {
    var id := store.identities[key];
    ReadLogOfOneRead(store, key);
    assert ReadLog([Read(store, key)]) == [id];
    ReactionsFireInTrackOrder(map[], [id], cb1, [id], cb2, id);
    assert Subscribers(map[], id) == [];
    var f1 := Autorun(engine, cb1, [Read(store, key)]);
    var f2 := Autorun(engine, cb2, [Read(store, key)]);
    fired := store.Set(engine, key, v);
  }

  method OrderScenario() {
    var engine := new Engine();
    var t := new Target(map["count" := Number(0)]);
    var store := new ObservableObject(3, t);
    assert "count" in t.fields && "count" in store.identities;
    var fired := TwoAutorunsInOrder(engine, store, "count", 1, 2, Number(1));
    assert fired == [1, 2];
  }

  /** Instance isolation: after an autorun reads `key` of `first`, writing the same
      key of a wrapper with another identity invokes nothing. */
  method OtherInstanceIsSilent(engine: Engine, first: ObservableObject, second: ObservableObject,
                               key: string, cb: CallbackId, v: Value)
      returns (onSecond: seq<CallbackId>, onFirst: seq<CallbackId>)
    requires engine.graph == map[]
    requires key in first.identities && key in second.identities
    requires first.identities[key] != second.identities[key]
    modifies engine, first, first.target, second, second.target
    ensures onSecond == [] && onFirst == [cb]
  {
    var firstId := first.identities[key];
    ReadLogOfOneRead(first, key);
    SubscribeSingleRead(map[], firstId, cb);
    assert Subscribers(map[], firstId) == [] && Subscribers(map[], second.identities[key]) == [];
    var f := Autorun(engine, cb, [Read(first, key)]);
    assert ReadLog([Read(first, key)]) == [firstId];
    onSecond := second.Set(engine, key, v);
    onFirst := first.Set(engine, key, v);
  }

  /** Two wrappers over structurally identical records. */
  method IsolationScenario() {
    var engine := new Engine();
    var t1 := new Target(map["count" := Number(0)]);
    var t2 := new Target(map["count" := Number(0)]);
    var first := new ObservableObject(1, t1);
    var second := new ObservableObject(2, t2);
    assert "count" in t1.fields && "count" in first.identities;
    assert "count" in t2.fields && "count" in second.identities;
    assert first.identities["count"] != second.identities["count"] by {
      PropertyIdInjective(1, "count", 2, "count");
    }
    var onSecond, onFirst := OtherInstanceIsSilent(engine, first, second, "count", 5, Number(9));
    assert onSecond == [] && onFirst == [5];
  }
}
