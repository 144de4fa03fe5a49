# Watch-and-reconcile path of kube-dev-dashboard, in Dafny

This project models the part of the Kubernetes desktop dashboard that keeps
the pod list live. It has three pieces.

- **The privileged side** (`src-electron/scripts/kube.ts`) holds the API
  client handles and a single `podWatcher` slot. `registerPodWatcher` asks the
  previous `ListWatch` to stop, without waiting for it. It then installs a new
  watcher for `/api/v1/namespaces/<ns>/pods` and attaches one handler per
  library signal. Those handlers turn `add` / `update` / `delete` into `ADDED`
  / `MODIFIED` / `DELETED` events, pass `connect` on, and report an `error`
  only when one is present and is not an `AbortError`.
- **The keyed snapshot** (`src/scripts/k8s-helpers.ts`) is a `K8SItemData`: a
  map from an object's uid (`''` when there is none) to the object.
  `prepareData` builds one from a list response. The event handler keeps it
  current: ADDED and MODIFIED store the object, DELETED removes its key.
- **The presentation-side store** (`src/stores/k8-data-store.ts`) is a pinia
  store. It holds the connection status and message, the selected namespace,
  and four `{shouldRefresh, items}` records. The store is a class here. Its
  getters are functions and its actions are methods. Each promise
  continuation is a method of its own.

Modules, leaf first:

- `ClientTypes` (`client_types.dfy`): stand-ins for the client library's object,
  metadata, list and error types.
- `Kube` (`kube.dfy`): the event and signal types, the signal handlers and error
  classifier, the `ListWatch` handle and the module state as the class `KubeSession`,
  plus a client scenario (`RegisterTwiceScenario`). Two registrations in a row leave
  one current watcher, and the first one was asked to stop exactly once.
- `K8sHelpers` (`k8s_helpers.dfy`): `GetKey`, the event rule `Apply`, its fold
  `ApplyAll`, the handler class `ItemData`, and `PrepareData`, with the
  convergence and keying lemmas.
- `K8DataStore` (`k8_data_store.dfy`): the store class, plus two client
  scenarios. One is a pod's add/modify/delete life cycle. The other is a late
  event from the old namespace's watcher after a namespace switch.

Inputs from outside become parameters:

- the signals a watcher emits (`Signal`);
- the outcome of loading the kube config and building the client (`Setup`): the load throws, the client construction throws, or a client or `undefined` comes back;
- an exception thrown while the watcher is being built (`fault`);
- the list and error values that settle the store's promises.

Each callback of `registerPodWatcher` becomes the `Delivery` value that a
signal produces.

Notes on the code's behaviour, which the model follows:

- The old watcher's `stop()` is not awaited. Its settlement is only logged.
- A watcher whose `start()` fails stays in the slot as the current handle
  (`Kube.KubeSession.OnStartRejected`).
- A `start()` rejection goes to `errorCallback` without the `AbortError`
  filter that `error` signals get (`Kube.StartFailureUnfiltered`).
- The `error` filter looks only at the error's class. A replaced, stopped
  watcher still reports a non-`AbortError` error and still delivers its data
  signals (`Kube.KubeSession.RetiredWatcherStillReports`).
- The store's `initSuccess` field is declared but never assigned.

## Model

| member | source | states |
|---|---|---|
| `K8sHelpers.GetKey` | src/scripts/k8s-helpers.ts:13-16 | the key is `metadata.uid` when both the metadata and the uid are defined, and `''` otherwise |
| `K8sHelpers.UidlessObjectsCollide` | src/scripts/k8s-helpers.ts:13-16 | two uid-less objects share key `''`; after ADDED of one and then the other, only the later one is stored there |
| `K8sHelpers.Apply` | src/scripts/k8s-helpers.ts:37-47 | ADDED/MODIFIED leave the object under its key; DELETED leaves the key absent; every other key keeps its presence and its value |
| `K8sHelpers.AddedIsModified` | src/scripts/k8s-helpers.ts:38-43 | ADDED and MODIFIED of the same object have identical effects |
| `K8sHelpers.DeleteAbsentIsNoop` | src/scripts/k8s-helpers.ts:44-46 | DELETED for a key not in the snapshot returns the snapshot unchanged |
| `K8sHelpers.ApplyIdempotent` | src/scripts/k8s-helpers.ts:37-47 | an event delivered twice in a row changes nothing more than one delivery |
| `K8sHelpers.LateRedeliveryResurrects` | src/scripts/k8s-helpers.ts:37-47 | a redelivery after a later event for the same key is not harmless: ADDED, DELETED, then ADDED again leaves the deleted pod back in the snapshot |
| `K8sHelpers.UpsertOfHeldObjectIsNoop` | src/scripts/k8s-helpers.ts:38-43 | an ADDED/MODIFIED changes nothing when it carries exactly the object already stored under its key |
| `K8sHelpers.ApplyKeepsKeyed` | src/scripts/k8s-helpers.ts:37-47 | if every entry is stored under its own object's uid key, that still holds after any event |
| `K8sHelpers.ApplyAllKeepsKeyed` | src/scripts/k8s-helpers.ts:37-47 | uid keying survives any sequence of events |
| `K8sHelpers.LastEventFor` | src/scripts/k8s-helpers.ts:37-47 | nothing is found exactly when no event of the sequence names the key; otherwise the result is an event at some index that names the key, and no later event names it |
| `K8sHelpers.Convergence` | src/scripts/k8s-helpers.ts:37-47 | after any event sequence, a key is present exactly when its last event is not DELETED, and its value is that event's object; keys no event names keep their initial entries |
| `K8sHelpers.ConvergenceFromEmpty` | src/scripts/k8s-helpers.ts:37-47 | from an empty snapshot, exactly the keys whose last event is an upsert are present, each holding that event's object |
| `K8sHelpers.ItemData.OnMessage` | src/scripts/k8s-helpers.ts:37-47 | the registered handler changes the shared map exactly as the event rule `Apply` says |
| `K8sHelpers.PrepareData` | src/scripts/k8s-helpers.ts:18-30 | `active` is true; `metadata` is the list's metadata when present and none otherwise; the items are the list folded in order, keyed by uid, with key set exactly the items' keys |
| `K8sHelpers.CollectKeys` | src/scripts/k8s-helpers.ts:25-28 | the map built from a list has exactly the keys `getKey(i.metadata)` of its items i |
| `K8sHelpers.CollectLastWins` | src/scripts/k8s-helpers.ts:25-28 | when several items share a key, the last of them in list order is the one stored |
| `K8sHelpers.CollectKeyed` | src/scripts/k8s-helpers.ts:25-28 | every stored entry is an item of the list, stored under its own key |
| `K8sHelpers.AddedEvents` | src/scripts/k8s-helpers.ts:25-28 | one ADDED event per list item, in list order, carrying that item |
| `K8sHelpers.CollectIsReplayOfAdds` | src/scripts/k8s-helpers.ts:25-28 | seeding from a list equals replaying its items as ADDED events on an empty snapshot |
| `K8sHelpers.ValuesCount` | src/stores/k8-data-store.ts:39-61 | a uid-keyed snapshot has as many distinct values as keys, so the list of its values loses no object |
| `K8DataStore.Store.constructor` | src/stores/k8-data-store.ts:15-36 | initially: not connected, message 'Loading', namespace 'default', `initSuccess` false, all four refresh flags set, all four item maps empty |
| `K8DataStore.Store.GetPodData` | src/stores/k8-data-store.ts:47-49 | returns the pod stored under the uid, or nothing when the uid is unknown; a returned pod is one of the listed pod items and carries that uid |
| `K8DataStore.Store.GetSvcData` | src/stores/k8-data-store.ts:55-57 | the same for services |
| `K8DataStore.Store.ItemListsAreExact` | src/stores/k8-data-store.ts:39-61 | each `getAll…Items` list holds exactly one object per stored key |
| `K8DataStore.Store.OnConnected` | src/stores/k8-data-store.ts:84-87 | status becomes true and message 'Connected'; nothing else changes |
| `K8DataStore.Store.OnError` | src/stores/k8-data-store.ts:89-92 | status becomes false and the message is the error's message; nothing else changes |
| `K8DataStore.Store.OnPodMessage` | src/stores/k8-data-store.ts:96-106 | the pod items change exactly as the event rule says; the pod refresh flag, the other three records, status and message are unchanged |
| `K8DataStore.Store.SetRefreshNamespaces` | src/stores/k8-data-store.ts:109-111 | sets the namespace refresh flag, which the getter then reports, and nothing else |
| `K8DataStore.Store.SetRefreshPods` | src/stores/k8-data-store.ts:112-114 | sets the pod refresh flag and nothing else |
| `K8DataStore.Store.SetRefreshSvcs` | src/stores/k8-data-store.ts:115-117 | sets the service refresh flag and nothing else |
| `K8DataStore.Store.SetRefreshDeployments` | src/stores/k8-data-store.ts:118-120 | sets the deployment refresh flag and nothing else |
| `K8DataStore.Store.RegisterPodWatcher` | src/stores/k8-data-store.ts:123-125 | requests a watcher for the currently selected namespace and changes nothing until the call settles |
| `K8DataStore.Store.OnRegisterOk` | src/stores/k8-data-store.ts:126-129 | status becomes true and the pod refresh flag false; nothing else changes |
| `K8DataStore.Store.OnRegisterErr` | src/stores/k8-data-store.ts:130-133 | status becomes false and message the error's message; the refresh flags and items stay |
| `K8DataStore.Store.OnNamespacesOk` | src/stores/k8-data-store.ts:139-144 | the namespace items become `prepareData(res).items`, with exactly the list's keys, and status becomes true; the prepared data is returned; nothing else changes |
| `K8DataStore.Store.OnNamespacesErr` | src/stores/k8-data-store.ts:145-150 | status becomes false and message the error's message; the items stay; the error is returned |
| `K8DataStore.Store.DeletePod` | src/stores/k8-data-store.ts:153-161 | rejects with 'Pod not found', and calls nothing, exactly when the uid is unknown; otherwise it asks to delete the pod's (namespace, name), each `''` when undefined; the store is never modified |
| `K8DataStore.Store.ApplyNamespaceSelection` | src/stores/k8-data-store.ts:163-171 | the selected namespace becomes the argument; pod, service and deployment items are emptied and flagged for refresh; namespace data, status and message are untouched |
| `Kube.Handle` | src-electron/scripts/kube.ts:52-75 | `add` / `update` / `delete` produce a message with event ADDED / MODIFIED / DELETED carrying the same object; `connect` produces one connect call; an `error` reaches `errorCallback` exactly when it is defined and not an `AbortError`, and carries that error |
| `Kube.TranslationRoundTrip` | src-electron/scripts/kube.ts:52-65 | every change event is produced by exactly one data signal, which carries its object |
| `Kube.StartFailureUnfiltered` | src-electron/scripts/kube.ts:77-80 | a `start()` rejection reaches `errorCallback` as it is, even an `AbortError` that an `error` signal would suppress |
| `Kube.KubeSession.OnStartRejected` | src-electron/scripts/kube.ts:77-80 | a `start()` rejection becomes exactly one `errorCallback` call carrying that error, and it changes no state, so the failed watcher stays current in the slot |
| `Kube.KubeSession.RetiredWatcherStillReports` | src-electron/scripts/kube.ts:71-75 | a replaced watcher has been asked to stop, yet a non-`AbortError` error it emits still reaches `errorCallback`, and every other signal still gets its handler |
| `Kube.KubeSession.constructor` | src-electron/scripts/kube.ts:3-6 | no config, no client and an empty watcher slot |
| `Kube.KubeSession.Initialize` | src-electron/scripts/kube.ts:15-29 | returns true exactly when the default config loads and a client is built. If loading throws, if `makeApiClient` throws, or if it returns `undefined`, the result is false and nothing is thrown. A throwing client construction leaves the old client in place. The watcher slot is untouched |
| `Kube.KubeSession.RegisterPodWatcher` | src-electron/scripts/kube.ts:31-85 | a watcher already in the slot gets exactly one more stop request, and nothing waits on it. Then the slot holds a fresh, started watcher for `/api/v1/namespaces/<ns>/pods`, whose signals all reach the handlers, and the old one is retired. When building the watcher throws, the error is rethrown and the (stopped) old watcher stays. Either way, every retired watcher has been asked to stop. |
| `Kube.ListWatch.Stop` | src-electron/scripts/kube.ts:41-44 | a stop request is counted and changes nothing else; it has no error path, so repeated or early stops are harmless |

## Left out

- `ListWatch` internals (list-then-watch, resourceVersion resync, HTTP streaming) and `KubeConfig.loadFromDefault`: these are foreign library calls. The handle only records what was asked of it. The library's outcomes are inputs.
- Asynchrony: a stopping watcher's events can interleave with its successor's, and promises are scheduled later. Each handler and continuation is modelled as one sequential step. A replaced watcher keeps its handlers, so its late signals still produce deliveries (see `KubeSession.Valid`).
- `console.log` / `console.error`: the stop continuations of `kube.ts:43-44` only log, so they have no modelled effect.
- `getPods`, `deletePod` and `getAllNamespaces` of `kube.ts:87-108`: these forward straight into the client library.
- The store's `initialize` action (`k8-data-store.ts:79-81`) only returns the privileged call's promise and changes no state. The `initializeDefaultCallbacks` / `initializePodCallbacks` registrations are callback wiring; their handlers are modelled as methods.
- K8DataStore.Store.GetAllNamespaceItems, GetAllPodItems, GetAllSvcItems, GetAllDeploymentItems: these return the set of the map's values, not the array `Object.values` returns. Object key order is not modelled. `ItemListsAreExact` shows no object is lost.
- The `shouldRefresh…` getters are one-field projections with no contract of their own. The constructor and the `SetRefresh…` methods state them.
- JavaScript plain-object maps: prototype keys such as `constructor` or `__proto__` are not modelled, and neither is the truthiness of `pod_data.items[podUid]` for such keys. The snapshot is a plain map from strings.
- The kind-specific payload of every object is an uninterpreted string. Pods, namespaces, services and deployments share one object type.
- Electron main/preload IPC wiring, the route table, type declarations, the hot-module-reload block and the commented-out legacy store are not part of this model. Deployment scaling and deployment watchers are declared but not implemented, so they are not modelled either.
