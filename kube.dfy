/**
  The privileged side of the watch path (`src-electron/scripts/kube.ts`): the
  module-level client handles, the single `podWatcher` slot, the translation
  of the watch library's signals into `K8sObjectEvent`s and the error filter.

  The library itself is not modelled.  A `ListWatch` is an opaque handle that
  records what was asked of it (its path, whether `start()` was called, how
  many times `stop()` was requested, which signal handlers are attached);
  the signals it emits are an input datatype, and the three callbacks handed
  to `registerPodWatcher` become the `Delivery` a signal produces.
 */
module Kube {
  import opened ClientTypes

  /** `type Event = 'ADDED' | 'MODIFIED' | 'DELETED'`. */
  datatype EventType = ADDED | MODIFIED | DELETED

  /** `K8sObjectEvent<T>`: one change to one object. */
  datatype ObjectEvent = ObjectEvent(event: EventType, obj: KObject)

  /** What a `ListWatch` may emit: `add`, `update`, `delete`, `connect`, `error`. */
  datatype Signal =
    | Add(obj: KObject)
    | Update(obj: KObject)
    | Delete(obj: KObject)
    | Connect
    | ErrorSignal(err: Option<Error>)

  /** The event names handlers are attached under with `on(name, handler)`. */
  datatype SignalName = AddName | UpdateName | DeleteName | ConnectName | ErrorName

  const AllSignalNames: set<SignalName> := {AddName, UpdateName, DeleteName, ConnectName, ErrorName}

  function NameOf(sig: Signal): (name: SignalName)
  {
    match sig
    case Add(_) => AddName
    case Update(_) => UpdateName
    case Delete(_) => DeleteName
    case Connect => ConnectName
    case ErrorSignal(_) => ErrorName
  }

  /** One call of `messageCallback`, `connectCallback` or `errorCallback`. */
  datatype Delivery = Message(message: ObjectEvent) | Connected | Failure(err: Error)

  /** The collection a pod watcher for `namespace` follows. */
  function PodsPath(namespace: string): (path: string)
  {
    "/api/v1/namespaces/" + namespace + "/pods"
  }

  /** The error classifier of the `error` handler: report only a present error that is not an `AbortError`. */
  predicate Reported(err: Option<Error>)
  {
    err.Some? && err.value.cls != AbortError
  }

  /** The handlers `registerPodWatcher` attaches, one per signal. */
  function Handle(sig: Signal): (d: Option<Delivery>)
    ensures (d.Some? && d.value.Message?) <==> (sig.Add? || sig.Update? || sig.Delete?)
    ensures d.Some? && d.value.Message? ==> d.value.message.obj == sig.obj
    ensures sig.Add? ==> d.value.message.event == ADDED
    ensures sig.Update? ==> d.value.message.event == MODIFIED
    ensures sig.Delete? ==> d.value.message.event == DELETED
    ensures d == Some(Connected) <==> sig.Connect?
    ensures (d.Some? && d.value.Failure?) <==> (sig.ErrorSignal? && Reported(sig.err))
    ensures d.Some? && d.value.Failure? ==> d.value.err == sig.err.value
  {
    match sig
    case Add(pod) => Some(Message(ObjectEvent(ADDED, pod)))
    case Update(pod) => Some(Message(ObjectEvent(MODIFIED, pod)))
    case Delete(pod) => Some(Message(ObjectEvent(DELETED, pod)))
    case Connect => Some(Connected)
    case ErrorSignal(err) =>
      // `err ?? new Error('Unknown error')` is never reached with `err` undefined
      if err.Some? && err.value.cls != AbortError then Some(Failure(err.value)) else None
  }

  /** The library signal that carries a given change event. */
  function SignalOf(e: ObjectEvent): (sig: Signal)
  {
    match e.event
    case ADDED => Add(e.obj)
    case MODIFIED => Update(e.obj)
    case DELETED => Delete(e.obj)
  }

  /** Every change event is produced by exactly one data signal, carrying the same object. */
  lemma TranslationRoundTrip(e: ObjectEvent, sig: Signal)
    ensures Handle(SignalOf(e)) == Some(Message(e))
    ensures Handle(sig) == Some(Message(e)) ==> sig == SignalOf(e)
  {
  }

  /** The `.catch` of `podWatcher.start()`: the rejection goes to `errorCallback` as it is. */
  function StartRejected(err: Error): (d: Delivery)
  {
    Failure(err)
  }

  /** A start failure is forwarded unfiltered, even an `AbortError` that an `error` signal would have suppressed. */
  lemma StartFailureUnfiltered(err: Error)
    ensures StartRejected(err).Failure? && StartRejected(err).err == err
    ensures err.cls == AbortError ==> Handle(ErrorSignal(Some(err))).None?
  {
  }

  /** An opaque `ListWatch<V1Pod>` handle. */
  class ListWatch {
    const path: string
    const namespace: string
    var started: bool
    var stopRequests: nat
    var handlers: set<SignalName>

    constructor (path: string, namespace: string)
      ensures this.path == path && this.namespace == namespace
      ensures !started && stopRequests == 0 && handlers == {}
    {
      this.path := path;
      this.namespace := namespace;
      started := false;
      stopRequests := 0;
      handlers := {};
    }

    /** `on(name, handler)` with the registry's handler for `name`. */
    method On(name: SignalName)
      modifies this
      ensures handlers == old(handlers) + {name}
      ensures started == old(started) && stopRequests == old(stopRequests)
    {
      handlers := handlers + {name};
    }

    /** `start()`: the call is made; its outcome arrives later, see `StartRejected`. */
    method Start()
      modifies this
      ensures started
      ensures handlers == old(handlers) && stopRequests == old(stopRequests)
    {
      started := true;
    }

    /** `stop()`, not awaited: its settlement is only logged, so it never reaches a callback. */
    method Stop()
      modifies this
      ensures stopRequests == old(stopRequests) + 1
      ensures handlers == old(handlers) && started == old(started)
    {
      stopRequests := stopRequests + 1;
    }

    /** What reaches the callbacks when the library emits `sig` on this handle. */
    function Emit(sig: Signal): (d: Option<Delivery>)
      reads this
    {
      if NameOf(sig) in handlers then Handle(sig) else None
    }
  }

  /** `KubeConfig` after `new KubeConfig()` and, if it succeeded, `loadFromDefault()`. */
  datatype KubeConfig = EmptyConfig | DefaultConfig(context: string)

  /** A `CoreV1Api` client. */
  datatype ApiClient = ApiClient(server: string)

  /**
    What the foreign calls of `initialize` yield: `loadFromDefault` throws; or
    it loads and `makeApiClient` throws; or it loads and `makeApiClient`
    returns a client or `undefined`.
   */
  datatype Setup =
    | LoadFails(err: Error)
    | ClientThrows(context: string, err: Error)
    | LoadsDefault(context: string, client: Option<ApiClient>)

  /** How a call of `registerPodWatcher` ends. */
  datatype Outcome = Returned | Threw(err: Error)

  /** The module-level state of `kube.ts`: `kc`, `k8sApi` and the `podWatcher` slot. */
  class KubeSession {
    var kc: Option<KubeConfig>
    var k8sApi: Option<ApiClient>
    var podWatcher: ListWatch?
    /** The handles that were in the slot before and have been replaced, oldest first. */
    ghost var retired: seq<ListWatch>

    /**
      The registry invariant: the current handle is wired and started, and
      every handle it replaced has had `stop()` requested.  Replaced handles
      keep their handlers, so late signals from them still reach the callbacks.
     */
    ghost predicate Valid()
      reads this, podWatcher, retired
    {
      && (podWatcher != null ==>
            podWatcher !in retired && podWatcher.started && podWatcher.handlers == AllSignalNames)
      && (forall i :: 0 <= i < |retired| ==>
            retired[i].stopRequests >= 1 && retired[i].handlers == AllSignalNames)
    }

    /**
      The filter looks at the error's class only, not at whether `stop()` was
      requested: a replaced, stopped watcher still reports a non-abort error,
      and still delivers its data signals.
     */
    lemma RetiredWatcherStillReports(i: nat, err: Error, sig: Signal)
      requires Valid()
      requires i < |retired|
      requires err.cls != AbortError
      ensures retired[i].stopRequests >= 1
      ensures retired[i].Emit(ErrorSignal(Some(err))) == Some(Failure(err))
      ensures retired[i].Emit(sig) == Handle(sig)
    {
    }

    /**
      The `.catch` of `podWatcher.start()`: the rejection reaches
      `errorCallback` as it is, and the slot is not touched, so the watcher
      that failed to start stays current.
     */
    method OnStartRejected(err: Error) returns (d: Delivery)
      requires Valid()
      ensures d == StartRejected(err) && d == Failure(err)
    {
      d := StartRejected(err);
    }

    constructor ()
      ensures Valid()
      ensures kc.None? && k8sApi.None? && podWatcher == null && retired == []
    {
      kc := None;
      k8sApi := None;
      podWatcher := null;
      retired := [];
    }

    /** `initialize()`: true exactly when a config loads and yields a client; never throws. */
    method Initialize(setup: Setup) returns (ok: bool)
      requires Valid()
      modifies this
      ensures Valid()
      ensures ok <==> setup.LoadsDefault? && setup.client.Some?
      ensures setup.LoadFails? ==> kc == Some(EmptyConfig) && k8sApi == old(k8sApi)
      ensures setup.ClientThrows? ==> kc == Some(DefaultConfig(setup.context)) && k8sApi == old(k8sApi)
      ensures setup.LoadsDefault? ==> kc == Some(DefaultConfig(setup.context)) && k8sApi == setup.client
      ensures podWatcher == old(podWatcher) && retired == old(retired)
    {
      kc := Some(EmptyConfig);
      match setup
      case LoadFails(_) =>
        ok := false;
      case ClientThrows(context, _) =>
        kc := Some(DefaultConfig(context));
        ok := false;
      case LoadsDefault(context, client) =>
        kc := Some(DefaultConfig(context));
        k8sApi := client;
        ok := client.Some?;
    }

    /**
      `registerPodWatcher(namespace, …)`.  `fault` is an exception thrown while
      the new `Watch`/`ListWatch` is constructed; the `catch` rethrows it.
     */
    method RegisterPodWatcher(namespace: string, fault: Option<Error>) returns (r: Outcome)
      requires Valid()
      modifies this, podWatcher
      ensures Valid()
      ensures kc == old(kc) && k8sApi == old(k8sApi)
      ensures old(podWatcher) != null ==>
                old(podWatcher).stopRequests == old(podWatcher.stopRequests) + 1
                && old(podWatcher).started && old(podWatcher).handlers == AllSignalNames
      ensures fault.None? ==>
                && r == Returned
                && podWatcher != null && fresh(podWatcher)
                && podWatcher.path == PodsPath(namespace) && podWatcher.namespace == namespace
                && podWatcher.stopRequests == 0
                && retired == old(retired) + (if old(podWatcher) == null then [] else [old(podWatcher)])
                && (forall sig :: podWatcher.Emit(sig) == Handle(sig))
      ensures fault.Some? ==>
                r == Threw(fault.value) && podWatcher == old(podWatcher) && retired == old(retired)
    {
      if podWatcher != null {
        podWatcher.Stop();
      }
      if fault.Some? {
        return Threw(fault.value);
      }
      var previous := podWatcher;
      var watcher := new ListWatch(PodsPath(namespace), namespace);
      podWatcher := watcher;
      if previous != null {
        retired := retired + [previous];
      }
      watcher.On(AddName);
      watcher.On(UpdateName);
      watcher.On(DeleteName);
      watcher.On(ConnectName);
      watcher.On(ErrorName);
      watcher.Start();
      r := Returned;
    }
  }

  /** Two registrations in a row leave one current handle; the first was asked to stop exactly once. */
  method RegisterTwiceScenario()
  {
    var session := new KubeSession();
    var ok := session.Initialize(LoadsDefault("dev", Some(ApiClient("https://127.0.0.1:6443"))));
    assert ok;
    var r1 := session.RegisterPodWatcher("default", None);
    var first := session.podWatcher;
    assert first.stopRequests == 0;
    var r2 := session.RegisterPodWatcher("kube-system", None);
    assert session.podWatcher != first && session.podWatcher.path == PodsPath("kube-system");
    assert first.stopRequests == 1 && session.podWatcher.stopRequests == 0;
    assert session.retired == [first];
  }
}
