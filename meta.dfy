/** Object identity, the part of object metadata the controller reads or writes, and API errors. */
module Meta {
  import opened Wrappers

  /** The API errors the controller tells apart: not found, a stale write, and everything else. */
  datatype ApiError = NotFound | Conflict | Other(reason: string)

  /** A namespaced name: the key under which the API server stores an object. */
  datatype ObjectKey = ObjectKey(namespace: string, name: string)

  /**
   * Object metadata. `controller` stands for the single owner reference marked
   * as controller; it is `None` on a freshly built object.
   */
  datatype ObjectMeta = ObjectMeta(
    name: string,
    namespace: string,
    labels: map<string, string>,
    controller: Option<ObjectKey>)

  function KeyOf(meta: ObjectMeta): ObjectKey {
    ObjectKey(meta.namespace, meta.name)
  }

  /**
   * Makes `owner` the controlling owner of the object described by `obj`;
   * identity and labels are left as they were.
   */
  function SetControllerReference(owner: ObjectMeta, obj: ObjectMeta): (r: ObjectMeta)
    ensures r.controller == Some(KeyOf(owner))
    ensures KeyOf(r) == KeyOf(obj) && r.labels == obj.labels
  {
    obj.(controller := Some(KeyOf(owner)))
  }
}
