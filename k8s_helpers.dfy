/**
  The keyed snapshot of `src/scripts/k8s-helpers.ts`: a `K8SItemData<T>` is a
  map from an object's uid to the object, built from a list response by
  `prepareData` and kept current by the change-event handler that
  `initializeLifecycleCallbacks` registers.
 */
module K8sHelpers {
  import opened ClientTypes
  import opened Kube

  /** `K8SItemData<T>`. */
  type ItemMap = map<string, KObject>

  /** `getKey(metadata)`: the uid, or `''` when the metadata or its uid is undefined. */
  function GetKey(meta: Option<ObjectMeta>): (k: string)
    ensures meta.Some? && meta.value.uid.Some? ==> k == meta.value.uid.value
    ensures meta.None? || meta.value.uid.None? ==> k == ""
  {
    if meta.Some? && meta.value.uid.Some? then meta.value.uid.value else ""
  }

  /** The key an object is stored under. */
  function KeyOf(o: KObject): (k: string)
  {
    GetKey(o.metadata)
  }

  predicate HasUid(o: KObject)
  {
    o.metadata.Some? && o.metadata.value.uid.Some?
  }

  /** Objects without a uid all share the key `''`, so a later one replaces an earlier one. */
  lemma UidlessObjectsCollide(m: ItemMap, a: KObject, b: KObject)
    requires !HasUid(a) && !HasUid(b)
    ensures KeyOf(a) == KeyOf(b) == ""
    ensures Apply(Apply(m, ObjectEvent(ADDED, a)), ObjectEvent(ADDED, b)) == m["" := b]
  {
  }

  /** Every entry is stored under its own object's key: the invariant all snapshots keep. */
  predicate KeyedByUid(m: ItemMap)
  {
    forall k :: k in m ==> KeyOf(m[k]) == k
  }

  // ---------------------------------------------------------------------------
  // The change-event rule of `initializeLifecycleCallbacks`
  // ---------------------------------------------------------------------------

  /**
    One event applied to a snapshot: ADDED and MODIFIED store the object under
    its key as a whole replacement, DELETED removes the key, and no other key
    changes.
   */
  function Apply(m: ItemMap, e: ObjectEvent): (r: ItemMap)
    ensures e.event != DELETED ==> KeyOf(e.obj) in r && r[KeyOf(e.obj)] == e.obj
    ensures e.event == DELETED ==> KeyOf(e.obj) !in r
    ensures forall k :: k != KeyOf(e.obj) ==> (k in r <==> k in m)
    ensures forall k :: k != KeyOf(e.obj) && k in r ==> r[k] == m[k]
  {
    match e.event
    case ADDED => m[KeyOf(e.obj) := e.obj]
    case MODIFIED => m[KeyOf(e.obj) := e.obj]
    case DELETED => m - {KeyOf(e.obj)}
  }

  /** The two upsert events have identical effects. */
  lemma AddedIsModified(m: ItemMap, o: KObject)
    ensures Apply(m, ObjectEvent(ADDED, o)) == Apply(m, ObjectEvent(MODIFIED, o))
  {
  }

  /** Deleting an absent key is a no-op, with no change of size. */
  lemma DeleteAbsentIsNoop(m: ItemMap, o: KObject)
    requires KeyOf(o) !in m
    ensures Apply(m, ObjectEvent(DELETED, o)) == m
  {
  }

  /** An event delivered twice in a row changes nothing more than one delivery. */
  lemma ApplyIdempotent(m: ItemMap, e: ObjectEvent)
    ensures Apply(Apply(m, e), e) == Apply(m, e)
  {
  }

  /** An upsert is a no-op when the event carries exactly the object already stored under its key. */
  lemma UpsertOfHeldObjectIsNoop(m: ItemMap, e: ObjectEvent)
    requires e.event != DELETED
    requires KeyOf(e.obj) in m && m[KeyOf(e.obj)] == e.obj
    ensures Apply(m, e) == m
  {
  }

  /**
    A redelivery is not harmless once a later event for the same key has been
    applied: an ADDED that arrives again after the DELETED of that pod brings
    the deleted pod back.
   */
  lemma LateRedeliveryResurrects(v1: KObject, v2: KObject)
    requires KeyOf(v1) == KeyOf(v2)
    ensures var added, deleted := ObjectEvent(ADDED, v1), ObjectEvent(DELETED, v2);
      && ApplyAll(map[], [added, deleted]) == map[]
      && ApplyAll(map[], [added, deleted, added]) == map[KeyOf(v1) := v1]
  {
    var added, deleted := ObjectEvent(ADDED, v1), ObjectEvent(DELETED, v2);
    assert [added, deleted][..1] == [added];
    assert [added, deleted, added][..2] == [added, deleted];
    assert ApplyAll(map[], [added]) == map[KeyOf(v1) := v1] by {
      assert [added][..0] == [];
    }
  }

  /** Applying events never breaks the uid keying. */
  lemma ApplyKeepsKeyed(m: ItemMap, e: ObjectEvent)
    requires KeyedByUid(m)
    ensures KeyedByUid(Apply(m, e))
  {
  }

  /** A sequence of events applied in arrival order. */
  function ApplyAll(m: ItemMap, es: seq<ObjectEvent>): (r: ItemMap)
    decreases |es|
  {
    if es == [] then m else Apply(ApplyAll(m, es[..|es| - 1]), es[|es| - 1])
  }

  /** The last event in `es` for key `k`, if any. */
  function LastEventFor(es: seq<ObjectEvent>, k: string): (r: Option<ObjectEvent>)
    ensures r.Some? ==> r.value in es && KeyOf(r.value.obj) == k
    ensures r.None? <==> forall i :: 0 <= i < |es| ==> KeyOf(es[i].obj) != k
    ensures r.Some? ==> exists i :: 0 <= i < |es| && es[i] == r.value && forall j :: i < j < |es| ==> KeyOf(es[j].obj) != k
    decreases |es|
  {
    if es == [] then None
    else if KeyOf(es[|es| - 1].obj) == k then Some(es[|es| - 1])
    else
      var init := es[..|es| - 1];
      var r := LastEventFor(init, k);
      assert forall i :: 0 <= i < |init| ==> init[i] == es[i];
      r
  }

  /**
    Convergence: after any event sequence a key is present exactly when its
    last event is not DELETED, and then holds that event's object; a key no
    event mentions keeps its initial entry.
   */
  lemma {:induction false} Convergence(m: ItemMap, es: seq<ObjectEvent>, k: string)
    ensures LastEventFor(es, k).Some? ==>
              (k in ApplyAll(m, es) <==> LastEventFor(es, k).value.event != DELETED)
              && (k in ApplyAll(m, es) ==> ApplyAll(m, es)[k] == LastEventFor(es, k).value.obj)
    ensures LastEventFor(es, k).None? ==>
              (k in ApplyAll(m, es) <==> k in m)
              && (k in m ==> ApplyAll(m, es)[k] == m[k])
    decreases |es|
  {
    if es != [] {
      Convergence(m, es[..|es| - 1], k);
    }
  }

  /** From an empty snapshot, exactly the keys whose last event is an upsert are present. */
  lemma ConvergenceFromEmpty(es: seq<ObjectEvent>, k: string)
    ensures k in ApplyAll(map[], es) <==> LastEventFor(es, k).Some? && LastEventFor(es, k).value.event != DELETED
    ensures k in ApplyAll(map[], es) ==> ApplyAll(map[], es)[k] == LastEventFor(es, k).value.obj
  {
    Convergence(map[], es, k);
  }

  /** Snapshots built by event application keep the uid keying. */
  lemma {:induction false} ApplyAllKeepsKeyed(m: ItemMap, es: seq<ObjectEvent>)
    requires KeyedByUid(m)
    ensures KeyedByUid(ApplyAll(m, es))
    decreases |es|
  {
    if es != [] {
      ApplyAllKeepsKeyed(m, es[..|es| - 1]);
      ApplyKeepsKeyed(ApplyAll(m, es[..|es| - 1]), es[|es| - 1]);
    }
  }

  /** The closure registered by `initializeLifecycleCallbacks`, over the map it mutates. */
  class ItemData {
    var items: ItemMap

    constructor (items: ItemMap)
      ensures this.items == items
    {
      this.items := items;
    }

    /** One call of the registered handler: index assignment or `delete` on the shared map. */
    method OnMessage(message: ObjectEvent)
      modifies this
      ensures items == Apply(old(items), message)
    {
      if message.event == ADDED {
        items := items[GetKey(message.obj.metadata) := message.obj];
      }
      if message.event == MODIFIED {
        items := items[GetKey(message.obj.metadata) := message.obj];
      }
      if message.event == DELETED {
        items := items - {GetKey(message.obj.metadata)};
      }
    }
  }

  // ---------------------------------------------------------------------------
  // `prepareData`
  // ---------------------------------------------------------------------------

  /** What `prepareData` returns. */
  datatype PreparedData = PreparedData(active: bool, metadata: Option<ListMeta>, items: ItemMap)

  /** The map a list's items fill in list order: a later item with the same key overwrites. */
  function Collect(items: seq<KObject>): (r: ItemMap)
    decreases |items|
  {
    if items == [] then map[]
    else Collect(items[..|items| - 1])[KeyOf(items[|items| - 1]) := items[|items| - 1]]
  }

  /** The keys of a list's items. */
  function KeysOf(items: seq<KObject>): (ks: set<string>)
  {
    set o | o in items :: KeyOf(o)
  }

  /** Collecting stores exactly one entry per distinct key of the list. */
  lemma {:induction false} CollectKeys(items: seq<KObject>)
    ensures Collect(items).Keys == KeysOf(items)
    decreases |items|
  {
    if items != [] {
      var init, last := items[..|items| - 1], items[|items| - 1];
      CollectKeys(init);
      assert items == init + [last];
      assert KeysOf(items) == KeysOf(init) + {KeyOf(last)};
    }
  }

  /** For duplicate keys the last item in list order wins. */
  lemma {:induction false} CollectLastWins(items: seq<KObject>, j: nat)
    requires j < |items|
    requires forall j' :: j < j' < |items| ==> KeyOf(items[j']) != KeyOf(items[j])
    ensures KeyOf(items[j]) in Collect(items) && Collect(items)[KeyOf(items[j])] == items[j]
    decreases |items|
  {
    if j < |items| - 1 {
      var init := items[..|items| - 1];
      assert forall j' :: j < j' < |init| ==> init[j'] == items[j'];
      CollectLastWins(init, j);
    }
  }

  /** Every collected entry is one of the list's items, stored under its own key. */
  lemma {:induction false} CollectKeyed(items: seq<KObject>)
    ensures KeyedByUid(Collect(items))
    ensures forall k :: k in Collect(items) ==> Collect(items)[k] in items
    decreases |items|
  {
    if items != [] {
      var init := items[..|items| - 1];
      CollectKeyed(init);
      assert forall o :: o in init ==> o in items;
    }
  }

  /** The ADDED events a list response corresponds to. */
  function AddedEvents(items: seq<KObject>): (es: seq<ObjectEvent>)
    ensures |es| == |items|
    ensures forall i :: 0 <= i < |items| ==> es[i] == ObjectEvent(ADDED, items[i])
    decreases |items|
  {
    if items == [] then [] else AddedEvents(items[..|items| - 1]) + [ObjectEvent(ADDED, items[|items| - 1])]
  }

  /** Seeding from a list is the same as replaying its items as ADDED events on an empty snapshot. */
  lemma {:induction false} CollectIsReplayOfAdds(items: seq<KObject>)
    ensures Collect(items) == ApplyAll(map[], AddedEvents(items))
    decreases |items|
  {
    if items != [] {
      var init := items[..|items| - 1];
      CollectIsReplayOfAdds(init);
      assert AddedEvents(items)[..|items| - 1] == AddedEvents(init);
    }
  }

  /**
    `prepareData(res)`: always active, the list metadata when present and
    `null` otherwise, and the items keyed by uid with the last duplicate winning.
   */
  method PrepareData(res: ObjectList) returns (p: PreparedData)
    ensures p.active
    ensures p.metadata == res.metadata
    ensures p.items == Collect(res.items)
    ensures p.items.Keys == KeysOf(res.items)
    ensures KeyedByUid(p.items)
  {
    var items: ItemMap := map[];
    for i := 0 to |res.items|
      invariant items == Collect(res.items[..i])
    {
      var item := res.items[i];
      var objKey := GetKey(item.metadata);
      assert res.items[..i + 1][..i] == res.items[..i];
      items := items[objKey := item];
    }
    assert res.items[..|res.items|] == res.items;
    CollectKeys(res.items);
    CollectKeyed(res.items);
    p := PreparedData(true, res.metadata, items);
  }

  // ---------------------------------------------------------------------------
  // `Object.values` over a snapshot
  // ---------------------------------------------------------------------------

  /** With uid keying no two keys hold the same object, so the values lose nothing. */
  lemma {:induction false} ValuesCount(m: ItemMap)
    requires KeyedByUid(m)
    ensures |m.Values| == |m|
    decreases |m|
  {
    if m != map[] {
      var k :| k in m;
      var rest := m - {k};
      assert KeyedByUid(rest);
      ValuesCount(rest);
      assert m[k] !in rest.Values;
      forall v | v in m.Values ensures v in rest.Values + {m[k]} {
        var k' :| k' in m && m[k'] == v;
        if k' != k { assert rest[k'] == v; }
      }
      assert rest.Values + {m[k]} <= m.Values;
      assert m.Values == rest.Values + {m[k]};
      assert |m.Values| == |rest.Values| + 1;
      assert m.Keys == rest.Keys + {k};
      assert |m| == |rest| + 1;
    }
  }
}
