/**
 The SampleResource custom resource and the small failure-carrying datatypes the
 controller works with. Only the fields the controller reads or writes are
 modelled in detail; everything else about an object is kept as opaque data
 that must travel through a status update untouched.
 */
module ApiTypes {

  /** A value that may be absent (a key that could not be derived or split). */
  datatype Option<+T> = None | Some(value: T)

  /** Either a value or the error a collaborator reported instead. */
  datatype Result<+R, +E> = Success(value: R) | Failure(error: E)

  /** Kind and API version of an object: carried along, never inspected. */
  datatype TypeMeta = TypeMeta(kind: string, apiVersion: string)

  /** Object metadata. `namespace` and `name` form the identity; `rest` stands for
      every other metadata field (labels, resource version, owner references, ...). */
  datatype ObjectMeta = ObjectMeta(namespace: string, name: string, rest: map<string, string>)

  /** Desired state, written only by the resource's author. */
  datatype SampleResourceSpec = SampleResourceSpec(name: string)

  /** Observed state, written only by the controller. */
  datatype SampleResourceStatus = SampleResourceStatus(name: string)

  datatype SampleResource = SampleResource(
    typeMeta: TypeMeta,
    meta: ObjectMeta,
    status: SampleResourceStatus,
    spec: SampleResourceSpec)

  /** Errors reported by the cache lister or the API server. Only `NotFound`
      is distinguished by the controller; the others are all "some other error". */
  datatype ApiError = NotFound | Conflict | Unavailable | OtherError(reason: string)

  /** The status the controller wants an object to have: a mirror of `spec.name`. */
  function DesiredStatus(spec: SampleResourceSpec): SampleResourceStatus
  {
    SampleResourceStatus(spec.name)
  }

  /** True when an object's observed status already mirrors its spec. */
  predicate Reconciled(sr: SampleResource)
  {
    sr.status.name == sr.spec.name
  }

  /** True when two objects agree on everything except possibly their status. */
  predicate SameExceptStatus(a: SampleResource, b: SampleResource)
  {
    a.typeMeta == b.typeMeta && a.meta == b.meta && a.spec == b.spec
  }
}
