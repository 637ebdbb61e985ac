/** The subscriber graph (derivationGraph) as a value: a map from property
    identity to the ordered list of reaction callbacks subscribed to it, and
    what one `track` pass does to it. */
module Graph {
  import opened Identity

  /** A reaction callback, identified by reference. */
  type CallbackId = nat

  type SubscriberGraph = map<PropertyId, seq<CallbackId>>

  predicate NoDuplicates(s: seq<CallbackId>) {
    forall i, j :: 0 <= i < j < |s| ==> s[i] != s[j]
  }

  predicate WellFormed(g: SubscriberGraph) {
    forall id :: id in g ==> NoDuplicates(g[id])
  }

  /** The callbacks a write to `id` invokes, in order; none when `id` has no entry. */
  function Subscribers(g: SubscriberGraph, id: PropertyId): seq<CallbackId> {
    if id in g then g[id] else []
  }

  /** `list.indexOf(cb) < 0` guarding `list.push(cb)`. */
  function AddOnce(list: seq<CallbackId>, cb: CallbackId): (r: seq<CallbackId>)
    ensures list <= r && cb in r
    ensures forall x :: x in r ==> x in list || x == cb
    ensures NoDuplicates(list) ==> NoDuplicates(r)
  {
    if cb in list then list else list + [cb]
  }

  /** One turn of the subscription loop: create the entry if it is missing,
      then append `cb` unless it is already there. */
  function SubscribeOne(g: SubscriberGraph, id: PropertyId, cb: CallbackId): SubscriberGraph {
    g[id := AddOnce(Subscribers(g, id), cb)]
  }

  /** The lookup a write makes: a list is reported only for an identity that has an
      entry, and on a well-formed graph it holds each callback once. */
  lemma SubscribersLookup(g: SubscriberGraph, id: PropertyId)
    ensures Subscribers(g, id) != [] ==> id in g
    ensures id in g ==> Subscribers(g, id) == g[id]
    ensures WellFormed(g) ==> NoDuplicates(Subscribers(g, id))
  {
  }

  /** One turn creates the entry for `id` if needed, and its list only gains `cb`,
      at the end and at most once; every other entry is left as it was. */
  lemma SubscribeOneEffect(g: SubscriberGraph, id: PropertyId, cb: CallbackId)
    ensures SubscribeOne(g, id, cb).Keys == g.Keys + {id}
    ensures Subscribers(g, id) <= SubscribeOne(g, id, cb)[id] && cb in SubscribeOne(g, id, cb)[id]
    ensures |SubscribeOne(g, id, cb)[id]| <= |Subscribers(g, id)| + 1
    ensures forall x :: x in g && x != id ==> SubscribeOne(g, id, cb)[x] == g[x]
  {
  }

  /** The subscription loop of `track` over the read log `ids`, in log order. */
  function Subscribe(g: SubscriberGraph, ids: seq<PropertyId>, cb: CallbackId): SubscriberGraph
    decreases |ids|
  {
    if ids == [] then g
    else SubscribeOne(Subscribe(g, ids[..|ids| - 1], cb), ids[|ids| - 1], cb)
  }

  /** Reference definition: every identity in the log gets `cb` added once,
      every other entry is left alone. */
  function SubscribeSpec(g: SubscriberGraph, ids: seq<PropertyId>, cb: CallbackId): SubscriberGraph {
    map id | id in g.Keys + (set x | x in ids) ::
      if id in ids then AddOnce(Subscribers(g, id), cb) else g[id]
  }

  lemma {:induction false} SubscribeMatchesSpec(g: SubscriberGraph, ids: seq<PropertyId>, cb: CallbackId)
    ensures Subscribe(g, ids, cb) == SubscribeSpec(g, ids, cb)
    decreases |ids|
  {
    if ids == [] {
      assert SubscribeSpec(g, ids, cb) == g;
    } else {
      var init := ids[..|ids| - 1];
      assert ids == init + [ids[|ids| - 1]];
      SubscribeMatchesSpec(g, init, cb);
      SpecStep(g, init, ids[|ids| - 1], cb);
    }
  }

  /** One more read extends the reference definition by one subscription step. */
  lemma SpecStep(g: SubscriberGraph, init: seq<PropertyId>, last: PropertyId, cb: CallbackId)
    ensures SubscribeOne(SubscribeSpec(g, init, cb), last, cb) == SubscribeSpec(g, init + [last], cb)
  {
  }

  /** A pass that read a single identity. */
  lemma SubscribeSingleRead(g: SubscriberGraph, id: PropertyId, cb: CallbackId)
    ensures Subscribers(Subscribe(g, [id], cb), id) == AddOnce(Subscribers(g, id), cb)
    ensures forall x :: x != id ==> Subscribers(Subscribe(g, [id], cb), x) == Subscribers(g, x)
  {
  }

  /** A pass leaves exactly the old entries plus one for each identity it read. */
  lemma {:induction false} SubscribeKeys(g: SubscriberGraph, ids: seq<PropertyId>, cb: CallbackId)
    ensures Subscribe(g, ids, cb).Keys == g.Keys + (set x | x in ids)
  {
    SubscribeMatchesSpec(g, ids, cb);
  }

  /** Every identity read during the pass ends up with the callback subscribed. */
  lemma {:induction false} SubscribeRegisters(g: SubscriberGraph, ids: seq<PropertyId>, cb: CallbackId)
    ensures forall id :: id in ids ==> id in Subscribe(g, ids, cb) && cb in Subscribe(g, ids, cb)[id]
  {
    SubscribeMatchesSpec(g, ids, cb);
  }

  /** A pass only appends: every list that existed is a prefix of its new list. */
  lemma {:induction false} SubscribeOnlyAppends(g: SubscriberGraph, ids: seq<PropertyId>, cb: CallbackId)
    ensures g.Keys <= Subscribe(g, ids, cb).Keys
    ensures forall id :: id in g ==> g[id] <= Subscribe(g, ids, cb)[id]
  {
    SubscribeMatchesSpec(g, ids, cb);
  }

  /** Identities not read during the pass keep their entry, or their absence. */
  lemma {:induction false} SubscribeFramesUnread(g: SubscriberGraph, ids: seq<PropertyId>, cb: CallbackId, id: PropertyId)
    requires id !in ids
    ensures id in Subscribe(g, ids, cb) <==> id in g
    ensures Subscribers(Subscribe(g, ids, cb), id) == Subscribers(g, id)
  {
    SubscribeMatchesSpec(g, ids, cb);
  }

  /** The only callback a pass can add anywhere is its own. */
  lemma {:induction false} SubscribeAddsOnlyItsCallback(g: SubscriberGraph, ids: seq<PropertyId>, cb: CallbackId)
    ensures forall id, x :: id in Subscribe(g, ids, cb) && x in Subscribe(g, ids, cb)[id] ==>
              x == cb || x in Subscribers(g, id)
  {
    SubscribeMatchesSpec(g, ids, cb);
  }

  /** No subscriber list ever holds the same callback twice. */
  lemma {:induction false} SubscribeKeepsWellFormed(g: SubscriberGraph, ids: seq<PropertyId>, cb: CallbackId)
    requires WellFormed(g)
    ensures WellFormed(Subscribe(g, ids, cb))
  {
    SubscribeMatchesSpec(g, ids, cb);
  }

  /** Reading a field once or many times, in any order, records the same edges. */
  lemma {:induction false} SubscribeDependsOnlyOnReadSet(g: SubscriberGraph, ids1: seq<PropertyId>, ids2: seq<PropertyId>, cb: CallbackId)
    requires forall x :: x in ids1 <==> x in ids2
    ensures Subscribe(g, ids1, cb) == Subscribe(g, ids2, cb)
  {
    SubscribeMatchesSpec(g, ids1, cb);
    SubscribeMatchesSpec(g, ids2, cb);
    var r1, r2 := SubscribeSpec(g, ids1, cb), SubscribeSpec(g, ids2, cb);
    assert r1.Keys == r2.Keys;
    forall id | id in r1
      ensures r1[id] == r2[id]
    {
      assert id in ids1 <==> id in ids2;
    }
  }

  /** Tracking the same reads again changes nothing. */
  lemma {:induction false} SubscribeIdempotent(g: SubscriberGraph, ids: seq<PropertyId>, cb: CallbackId)
    ensures Subscribe(Subscribe(g, ids, cb), ids, cb) == Subscribe(g, ids, cb)
  {
    var once := Subscribe(g, ids, cb);
    SubscribeMatchesSpec(g, ids, cb);
    SubscribeMatchesSpec(once, ids, cb);
    assert SubscribeSpec(once, ids, cb) == once;
  }

  /** After a pass that read `id`, a write to `id` invokes `cb` exactly once. */
  lemma {:induction false} FiresExactlyOnce(g: SubscriberGraph, ids: seq<PropertyId>, cb: CallbackId, id: PropertyId)
    requires WellFormed(g)
    requires id in ids
    ensures multiset(Subscribers(Subscribe(g, ids, cb), id))[cb] == 1
  {
    SubscribeMatchesSpec(g, ids, cb);
    var list := Subscribers(Subscribe(g, ids, cb), id);
    assert NoDuplicates(list);
    var k :| 0 <= k < |list| && list[k] == cb;
    CountOfUnique(list, k);
  }

  lemma {:induction false} CountOfUnique(s: seq<CallbackId>, k: nat)
    requires NoDuplicates(s) && k < |s|
    ensures multiset(s)[s[k]] == 1
    decreases |s|
  {
    var x := s[k];
    assert s == s[..|s| - 1] + [s[|s| - 1]];
    if k == |s| - 1 {
      assert x !in s[..|s| - 1];
    } else {
      CountOfUnique(s[..|s| - 1], k);
    }
  }

  /** What a pass leaves in one identity's list. */
  lemma {:induction false} SubscribersAfter(g: SubscriberGraph, ids: seq<PropertyId>, cb: CallbackId, id: PropertyId)
    ensures Subscribers(Subscribe(g, ids, cb), id) ==
              if id in ids then AddOnce(Subscribers(g, id), cb) else Subscribers(g, id)
  {
    SubscribeMatchesSpec(g, ids, cb);
  }

  /** Two reactions that both read `id`, tracked first `cb1` then `cb2`, are invoked
      by a write to `id` in that order, after whatever was subscribed before. */
  lemma {:induction false} ReactionsFireInTrackOrder(g: SubscriberGraph, ids1: seq<PropertyId>, cb1: CallbackId,
                                  ids2: seq<PropertyId>, cb2: CallbackId, id: PropertyId)
    requires id in ids1 && id in ids2 && cb1 != cb2
    requires cb1 !in Subscribers(g, id) && cb2 !in Subscribers(g, id)
    ensures Subscribers(Subscribe(Subscribe(g, ids1, cb1), ids2, cb2), id) == Subscribers(g, id) + [cb1, cb2]
  {
    var g1 := Subscribe(g, ids1, cb1);
    SubscribersAfter(g, ids1, cb1, id);
    SubscribersAfter(g1, ids2, cb2, id);
    assert Subscribers(g1, id) == Subscribers(g, id) + [cb1];
  }

  /** One completed `track` pass: the reaction's callback and its read log. */
  datatype TrackPass = TrackPass(callback: CallbackId, log: seq<PropertyId>)

  /** The graph after a history of passes, starting from the empty graph. */
  function Replay(h: seq<TrackPass>): SubscriberGraph
    decreases |h|
  {
    if h == [] then map[]
    else
      var last := h[|h| - 1];
      Subscribe(Replay(h[..|h| - 1]), last.log, last.callback)
  }

  /** The callbacks of the passes that read `id`, in pass order, repeats kept. */
  function Interested(h: seq<TrackPass>, id: PropertyId): seq<CallbackId>
    decreases |h|
  {
    if h == [] then []
    else
      var last := h[|h| - 1];
      Interested(h[..|h| - 1], id) + (if id in last.log then [last.callback] else [])
  }

  /** The first occurrence of each element, in order. */
  function FirstOccurrences(s: seq<CallbackId>): (r: seq<CallbackId>)
    decreases |s|
  {
    if s == [] then [] else AddOnce(FirstOccurrences(s[..|s| - 1]), s[|s| - 1])
  }

  lemma {:induction false} FirstOccurrencesSound(s: seq<CallbackId>)
    ensures NoDuplicates(FirstOccurrences(s))
    ensures forall x :: x in FirstOccurrences(s) <==> x in s
    decreases |s|
  {
    if s != [] {
      FirstOccurrencesSound(s[..|s| - 1]);
      assert s == s[..|s| - 1] + [s[|s| - 1]];
    }
  }

  /** What the graph holds after any history: an identity has an entry exactly when
      some pass read it, and its list is the callbacks of those passes, each once,
      in the order they first tracked it. A pass's log here is the reads of its tracked
      function's own events, so within the model a write never invokes a callback whose
      reaction did not read the field, and a field nobody read invokes nothing. */
  lemma {:induction false} ReplayCharacterised(h: seq<TrackPass>, id: PropertyId)
    ensures id in Replay(h) <==> Interested(h, id) != []
    ensures Subscribers(Replay(h), id) == FirstOccurrences(Interested(h, id))
    decreases |h|
  {
    if h != [] {
      var init, last := h[..|h| - 1], h[|h| - 1];
      ReplayCharacterised(init, id);
      SubscribeMatchesSpec(Replay(init), last.log, last.callback);
      var before := Interested(init, id);
      if id in last.log {
        assert Interested(h, id) == before + [last.callback];
        assert (before + [last.callback])[..|before|] == before;
      } else {
        assert Interested(h, id) == before;
      }
    }
  }

  lemma {:induction false} ReplayWellFormed(h: seq<TrackPass>)
    ensures WellFormed(Replay(h))
    decreases |h|
  {
    if h != [] {
      var init, last := h[..|h| - 1], h[|h| - 1];
      ReplayWellFormed(init);
      SubscribeKeepsWellFormed(Replay(init), last.log, last.callback);
    }
  }
}
