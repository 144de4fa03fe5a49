/**
  Stand-ins for the few types of `@kubernetes/client-node` that the
  watch-and-reconcile path touches.  Objects are never built by the
  application: they arrive from the API server, so only the fields the code
  reads are modelled, and the kind-specific spec/status payload is an
  uninterpreted string.
 */
module ClientTypes {

  /** TypeScript's `T | undefined`. */
  datatype Option<+T> = None | Some(value: T)

  /** `x ?? ''` for an optional string. */
  function OrEmpty(o: Option<string>): (s: string)
  {
    match o
    case Some(v) => v
    case None => ""
  }

  /** `V1ObjectMeta`: the API server's identifier and the object's address. */
  datatype ObjectMeta = ObjectMeta(uid: Option<string>, namespace: Option<string>, name: Option<string>)

  /** A `KubernetesObject` (pod, namespace, service, deployment). */
  datatype KObject = KObject(metadata: Option<ObjectMeta>, payload: string)

  /** `V1ListMeta` of a list response. */
  datatype ListMeta = ListMeta(resourceVersion: Option<string>)

  /** `V1NamespaceList`: a list response with optional list metadata. */
  datatype ObjectList = ObjectList(metadata: Option<ListMeta>, items: seq<KObject>)

  /** Whether an `Error` is an instance of the client library's `AbortError`. */
  datatype ErrorClass = AbortError | OtherError

  /** A JavaScript `Error`: its class and its `message`. */
  datatype Error = Error(cls: ErrorClass, message: string)
}
