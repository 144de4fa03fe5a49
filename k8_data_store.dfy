/**
  The presentation-side store of `src/stores/k8-data-store.ts` (a pinia store)
  as a class: its state fields, its getters as functions, and its actions as
  methods.  Each `.then` / `.catch` continuation of an action that calls the
  privileged side is a method of its own, and the privileged call itself is
  represented by what the action asks for.
 */
module K8DataStore {
  import opened ClientTypes
  import opened Kube
  import opened K8sHelpers

  /** One `{ shouldRefresh, items }` record of the state. */
  datatype ResourceData = ResourceData(shouldRefresh: bool, items: ItemMap)

  /** A record as the state starts and as a namespace change leaves it. */
  const Unloaded := ResourceData(true, map[])

  /** The whole state of the store, for stating what an action leaves alone. */
  datatype StoreState = StoreState(
    initSuccess: bool,
    status: bool,
    message: string,
    selectedNamespace: string,
    namespaceData: ResourceData,
    podData: ResourceData,
    svcData: ResourceData,
    deploymentData: ResourceData)

  const InitialState := StoreState(false, false, "Loading", "default", Unloaded, Unloaded, Unloaded, Unloaded)

  /** What `deletePod` does: call `window.kube.deletePods(namespace, name)`, or reject without a call. */
  datatype DeleteRequest = DeletePods(namespace: string, name: string) | Rejected(err: Error)

  /** `metadata?.namespace ?? ''`. */
  function NamespaceOf(o: KObject): (namespace: string)
  {
    if o.metadata.Some? then OrEmpty(o.metadata.value.namespace) else ""
  }

  /** `metadata?.name ?? ''`. */
  function NameOfObject(o: KObject): (name: string)
  {
    if o.metadata.Some? then OrEmpty(o.metadata.value.name) else ""
  }

  class Store {
    var initSuccess: bool
    var status: bool
    var message: string
    var selectedNamespace: string
    var namespaceData: ResourceData
    var podData: ResourceData
    var svcData: ResourceData
    var deploymentData: ResourceData

    function State(): (s: StoreState)
      reads this
    {
      StoreState(initSuccess, status, message, selectedNamespace, namespaceData, podData, svcData, deploymentData)
    }

    /** Every snapshot of the store is keyed by the uid of the object it holds. */
    ghost predicate Valid()
      reads this
    {
      && KeyedByUid(namespaceData.items)
      && KeyedByUid(podData.items)
      && KeyedByUid(svcData.items)
      && KeyedByUid(deploymentData.items)
    }

    /** `state: () => ({ … })`. */
    constructor ()
      ensures Valid()
      ensures State() == InitialState
      ensures !status && message == "Loading" && selectedNamespace == "default" && !initSuccess
      ensures ShouldRefreshNamespaces() && ShouldRefreshPods() && ShouldRefreshSvcs() && ShouldRefreshDeployments()
      ensures GetAllNamespaceItems() == {} && GetAllPodItems() == {} && GetAllSvcItems() == {} && GetAllDeploymentItems() == {}
    {
      initSuccess := false;
      status := false;
      message := "Loading";
      selectedNamespace := "default";
      namespaceData := ResourceData(true, map[]);
      podData := ResourceData(true, map[]);
      svcData := ResourceData(true, map[]);
      deploymentData := ResourceData(true, map[]);
    }

    // -------------------------------------------------------------------------
    // Getters
    // -------------------------------------------------------------------------

    /** `Object.values(state.namespace_data.items)`, without its order. */
    function GetAllNamespaceItems(): (items: set<KObject>)
      reads this
    {
      namespaceData.items.Values
    }

    function GetAllPodItems(): (items: set<KObject>)
      reads this
    {
      podData.items.Values
    }

    /** `state.pod_data.items[podUid]`: the pod stored under that uid, `undefined` if none. */
    function GetPodData(podUid: string): (r: Option<KObject>)
      reads this
      ensures r.Some? <==> podUid in podData.items
      ensures r.Some? ==> r.value == podData.items[podUid] && r.value in GetAllPodItems()
      ensures Valid() && r.Some? ==> KeyOf(r.value) == podUid
    {
      if podUid in podData.items then Some(podData.items[podUid]) else None
    }

    function GetAllSvcItems(): (items: set<KObject>)
      reads this
    {
      svcData.items.Values
    }

    /** `state.svc_data.items[svcUid]`. */
    function GetSvcData(svcUid: string): (r: Option<KObject>)
      reads this
      ensures r.Some? <==> svcUid in svcData.items
      ensures r.Some? ==> r.value == svcData.items[svcUid] && r.value in GetAllSvcItems()
      ensures Valid() && r.Some? ==> KeyOf(r.value) == svcUid
    {
      if svcUid in svcData.items then Some(svcData.items[svcUid]) else None
    }

    function GetAllDeploymentItems(): (items: set<KObject>)
      reads this
    {
      deploymentData.items.Values
    }

    function ShouldRefreshNamespaces(): (b: bool) reads this { namespaceData.shouldRefresh }
    function ShouldRefreshPods(): (b: bool) reads this { podData.shouldRefresh }
    function ShouldRefreshSvcs(): (b: bool) reads this { svcData.shouldRefresh }
    function ShouldRefreshDeployments(): (b: bool) reads this { deploymentData.shouldRefresh }

    /** The item lists hold exactly one object per stored key: none is lost or duplicated. */
    lemma ItemListsAreExact()
      requires Valid()
      ensures |GetAllNamespaceItems()| == |namespaceData.items|
      ensures |GetAllPodItems()| == |podData.items|
      ensures |GetAllSvcItems()| == |svcData.items|
      ensures |GetAllDeploymentItems()| == |deploymentData.items|
    {
      ValuesCount(namespaceData.items);
      ValuesCount(podData.items);
      ValuesCount(svcData.items);
      ValuesCount(deploymentData.items);
    }

    // -------------------------------------------------------------------------
    // Handlers of `initializeDefaultCallbacks` and `initializePodCallbacks`
    // -------------------------------------------------------------------------

    /** The `onConnected` handler. */
    method OnConnected()
      requires Valid()
      modifies this
      ensures Valid()
      ensures State() == old(State()).(status := true, message := "Connected")
    {
      status := true;
      message := "Connected";
    }

    /** The `onError` handler. */
    method OnError(err: Error)
      requires Valid()
      modifies this
      ensures Valid()
      ensures State() == old(State()).(status := false, message := err.message)
    {
      status := false;
      message := err.message;
    }

    /** The `onPodMessage` handler: the event rule applied to the pod snapshot only. */
    method OnPodMessage(message: ObjectEvent)
      requires Valid()
      modifies this
      ensures Valid()
      ensures podData.items == Apply(old(podData.items), message)
      ensures State() == old(State()).(podData := old(podData).(items := podData.items))
    {
      ApplyKeepsKeyed(podData.items, message);
      if message.event == ADDED {
        podData := podData.(items := podData.items[GetKey(message.obj.metadata) := message.obj]);
      }
      if message.event == MODIFIED {
        podData := podData.(items := podData.items[GetKey(message.obj.metadata) := message.obj]);
      }
      if message.event == DELETED {
        podData := podData.(items := podData.items - {GetKey(message.obj.metadata)});
      }
    }

    // -------------------------------------------------------------------------
    // Refresh flags
    // -------------------------------------------------------------------------

    method SetRefreshNamespaces(shouldRefresh: bool)
      requires Valid()
      modifies this
      ensures Valid()
      ensures State() == old(State()).(namespaceData := old(namespaceData).(shouldRefresh := shouldRefresh))
      ensures ShouldRefreshNamespaces() == shouldRefresh
    {
      namespaceData := namespaceData.(shouldRefresh := shouldRefresh);
    }

    /** `setRefeshPods` in the source's spelling. */
    method SetRefreshPods(shouldRefresh: bool)
      requires Valid()
      modifies this
      ensures Valid()
      ensures State() == old(State()).(podData := old(podData).(shouldRefresh := shouldRefresh))
      ensures ShouldRefreshPods() == shouldRefresh
    {
      podData := podData.(shouldRefresh := shouldRefresh);
    }

    /** `setRefeshSvcs` in the source's spelling. */
    method SetRefreshSvcs(shouldRefresh: bool)
      requires Valid()
      modifies this
      ensures Valid()
      ensures State() == old(State()).(svcData := old(svcData).(shouldRefresh := shouldRefresh))
      ensures ShouldRefreshSvcs() == shouldRefresh
    {
      svcData := svcData.(shouldRefresh := shouldRefresh);
    }

    /** `setRefeshDeployments` in the source's spelling. */
    method SetRefreshDeployments(shouldRefresh: bool)
      requires Valid()
      modifies this
      ensures Valid()
      ensures State() == old(State()).(deploymentData := old(deploymentData).(shouldRefresh := shouldRefresh))
      ensures ShouldRefreshDeployments() == shouldRefresh
    {
      deploymentData := deploymentData.(shouldRefresh := shouldRefresh);
    }

    // -------------------------------------------------------------------------
    // `registerPodWatcher` and its continuations
    // -------------------------------------------------------------------------

    /** `registerPodWatcher()`: asks the privileged side to watch the selected namespace; no state changes until it settles. */
    method RegisterPodWatcher() returns (namespace: string)
      ensures namespace == selectedNamespace
    {
      namespace := selectedNamespace;
    }

    /** Its `.then`: connected, and the pods need no refresh. */
    method OnRegisterOk()
      requires Valid()
      modifies this
      ensures Valid()
      ensures State() == old(State()).(status := true, podData := old(podData).(shouldRefresh := false))
      ensures !ShouldRefreshPods()
    {
      status := true;
      SetRefreshPods(false);
    }

    /** Its `.catch`: disconnected with the error's message; the refresh flag stays. */
    method OnRegisterErr(err: Error)
      requires Valid()
      modifies this
      ensures Valid()
      ensures State() == old(State()).(status := false, message := err.message)
    {
      status := false;
      message := err.message;
    }

    // -------------------------------------------------------------------------
    // `fetchNamespaces` continuations
    // -------------------------------------------------------------------------

    /** Its `.then`: the namespace snapshot becomes the prepared list; the prepared data is returned. */
    method OnNamespacesOk(res: ObjectList) returns (prepared: PreparedData)
      requires Valid()
      modifies this
      ensures Valid()
      ensures prepared.active && prepared.metadata == res.metadata && prepared.items == Collect(res.items)
      ensures namespaceData.items.Keys == KeysOf(res.items)
      ensures State() == old(State()).(status := true, namespaceData := old(namespaceData).(items := prepared.items))
    {
      prepared := PrepareData(res);
      namespaceData := namespaceData.(items := prepared.items);
      status := true;
    }

    /** Its `.catch`: disconnected with the error's message; the snapshot stays; the error is returned. */
    method OnNamespacesErr(err: Error) returns (result: Error)
      requires Valid()
      modifies this
      ensures Valid()
      ensures result == err
      ensures State() == old(State()).(status := false, message := err.message)
    {
      status := false;
      message := err.message;
      result := err;
    }

    // -------------------------------------------------------------------------
    // `deletePod` and `applyNamespaceSelection`
    // -------------------------------------------------------------------------

    /**
      `deletePod(podUid)`: a known pod is deleted by its namespace and name
      (each `''` when undefined); an unknown uid is rejected with
      'Pod not found' and nothing is called.  The store never changes: it
      learns of the deletion from the DELETED event that follows.
     */
    method DeletePod(podUid: string) returns (r: DeleteRequest)
      ensures r.Rejected? <==> podUid !in podData.items
      ensures r.Rejected? ==> r.err.message == "Pod not found"
      ensures r.DeletePods? ==>
                r.namespace == NamespaceOf(podData.items[podUid]) && r.name == NameOfObject(podData.items[podUid])
    {
      var podToRemove := GetPodData(podUid);
      if podToRemove.Some? {
        var namespace := NamespaceOf(podToRemove.value);
        var name := NameOfObject(podToRemove.value);
        return DeletePods(namespace, name);
      }
      return Rejected(Error(OtherError, "Pod not found"));
    }

    /** `applyNamespaceSelection(namespace)`: the per-namespace snapshots are dropped and marked for refresh. */
    method ApplyNamespaceSelection(namespace: string)
      requires Valid()
      modifies this
      ensures Valid()
      ensures State() == old(State()).(selectedNamespace := namespace,
                                       podData := Unloaded, svcData := Unloaded, deploymentData := Unloaded)
      ensures ShouldRefreshPods() && ShouldRefreshSvcs() && ShouldRefreshDeployments()
      ensures GetAllPodItems() == {} && GetAllSvcItems() == {} && GetAllDeploymentItems() == {}
    {
      selectedNamespace := namespace;
      podData := podData.(shouldRefresh := true);
      svcData := svcData.(shouldRefresh := true);
      deploymentData := deploymentData.(shouldRefresh := true);
      podData := podData.(items := map[]);
      svcData := svcData.(items := map[]);
      deploymentData := deploymentData.(items := map[]);
    }
  }

  /**
    After a switch to another namespace, a late ADDED from the old namespace's
    watcher is applied like any other upsert: keyed by uid, it neither is
    rejected nor disturbs other entries.
   */
  method StaleEventAfterSwitchScenario(stale: KObject, current: KObject)
    requires HasUid(stale) && HasUid(current) && KeyOf(stale) != KeyOf(current)
  {
    var store := new Store();
    store.ApplyNamespaceSelection("default");
    store.OnPodMessage(ObjectEvent(ADDED, stale));
    store.ApplyNamespaceSelection("kube-system");
    store.OnPodMessage(ObjectEvent(ADDED, current));
    store.OnPodMessage(ObjectEvent(ADDED, stale));
    assert store.GetPodData(KeyOf(current)) == Some(current);
    assert store.GetPodData(KeyOf(stale)) == Some(stale);
    assert store.selectedNamespace == "kube-system";
  }

  /** ADDED, then MODIFIED (a full replace), then DELETED for one pod. */
  method PodLifecycleScenario()
  {
    var nginx := KObject(Some(ObjectMeta(Some("p1"), Some("default"), Some("nginx"))), "Pending");
    var running := KObject(Some(ObjectMeta(Some("p1"), Some("default"), Some("nginx"))), "Running");
    var store := new Store();
    store.OnPodMessage(ObjectEvent(ADDED, nginx));
    assert store.podData.items == map["p1" := nginx];
    store.ItemListsAreExact();
    assert |store.GetAllPodItems()| == 1;
    store.OnPodMessage(ObjectEvent(MODIFIED, running));
    assert store.GetPodData("p1") == Some(running);
    var request := store.DeletePod("p1");
    assert request == DeletePods("default", "nginx");
    store.OnPodMessage(ObjectEvent(DELETED, running));
    assert store.GetAllPodItems() == {};
    var rejected := store.DeletePod("p1");
    assert rejected.Rejected?;
  }
}
