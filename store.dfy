/**
 * The API server as the controller sees it: one map per kind, keyed by
 * namespaced name. Failures of individual calls are supplied by the caller as
 * an optional error, since they come from outside the controller.
 */
module Store {
  import opened Wrappers
  import opened Meta
  import opened WebsiteTypes
  import opened Resources

  /** What a create-or-update did. */
  datatype OpResult = Created | Updated | Unchanged

  datatype Applied<T> = Applied(store: map<ObjectKey, T>, result: Result<OpResult, ApiError>)

  datatype ClusterState = ClusterState(
    websites: map<ObjectKey, Website>,
    configMaps: map<ObjectKey, ConfigMap>,
    deployments: map<ObjectKey, Deployment>,
    services: map<ObjectKey, Service>)

  ghost predicate WebsitesKeyed(m: map<ObjectKey, Website>) {
    forall k :: k in m ==> KeyOf(m[k].meta) == k
  }

  ghost predicate ConfigMapsKeyed(m: map<ObjectKey, ConfigMap>) {
    forall k :: k in m ==> KeyOf(m[k].meta) == k
  }

  ghost predicate DeploymentsKeyed(m: map<ObjectKey, Deployment>) {
    forall k :: k in m ==> KeyOf(m[k].meta) == k
  }

  ghost predicate ServicesKeyed(m: map<ObjectKey, Service>) {
    forall k :: k in m ==> KeyOf(m[k].meta) == k
  }

  /** Every stored object is stored under its own namespaced name. */
  ghost predicate Valid(s: ClusterState) {
    && WebsitesKeyed(s.websites)
    && ConfigMapsKeyed(s.configMaps)
    && DeploymentsKeyed(s.deployments)
    && ServicesKeyed(s.services)
  }

  /** A read: the call's own error if it failed, NotFound for an absent key, else the stored object. */
  function Get<T>(m: map<ObjectKey, T>, key: ObjectKey, fault: Option<ApiError>): (r: Result<T, ApiError>)
    ensures r.Success? <==> fault.None? && key in m
    ensures r.Success? ==> r.value == m[key]
    ensures fault.None? && key !in m ==> r == Failure(NotFound)
    ensures fault.Some? ==> r == Failure(fault.value)
  {
    if fault.Some? then Failure(fault.value)
    else if key in m then Success(m[key])
    else Failure(NotFound)
  }

  /** The object a create-or-update starts from: the stored one, or the locally built one when absent. */
  function Existing<T>(m: map<ObjectKey, T>, key: ObjectKey, initial: T): T {
    if key in m then m[key] else initial
  }

  /**
   * The write half of a create-or-update: create when absent, skip the write
   * when the mutated object equals the stored one, update otherwise; a failed
   * call writes nothing.
   */
  function Persist<T(==)>(m: map<ObjectKey, T>, key: ObjectKey, obj: T, fault: Option<ApiError>): (r: Applied<T>)
    ensures fault.Some? ==> r == Applied(m, Failure(fault.value))
    ensures fault.None? ==> r.result.Success? && r.store == m[key := obj]
    ensures fault.None? ==> (r.result.value == Created <==> key !in m)
    ensures fault.None? ==> (r.result.value == Unchanged <==> key in m && m[key] == obj)
  {
    if fault.Some? then Applied(m, Failure(fault.value))
    else if key !in m then Applied(m[key := obj], Success(Created))
    else if m[key] == obj then Applied(m, Success(Unchanged))
    else Applied(m[key := obj], Success(Updated))
  }

  datatype StatusWritten = StatusWritten(websites: map<ObjectKey, Website>, error: Option<ApiError>)

  /**
   * A write to the status subresource: only the status of the stored Website
   * is replaced; its identity and spec stay as stored, whatever `site` holds.
   */
  function UpdateStatus(websites: map<ObjectKey, Website>, site: Website, fault: Option<ApiError>): (r: StatusWritten)
    ensures r.websites.Keys == websites.Keys
    ensures forall k :: k in websites ==>
      r.websites[k].meta == websites[k].meta && r.websites[k].spec == websites[k].spec
    ensures r.error.None? <==> fault.None? && KeyOf(site.meta) in websites
    ensures r.error.None? ==> r.websites[KeyOf(site.meta)].status == site.status
    ensures forall k :: k in websites && (r.error.Some? || k != KeyOf(site.meta)) ==> r.websites[k] == websites[k]
    ensures fault.Some? ==> r.error == fault
  {
    var key := KeyOf(site.meta);
    if fault.Some? then StatusWritten(websites, fault)
    else if key !in websites then StatusWritten(websites, Some(NotFound))
    else StatusWritten(websites[key := websites[key].(status := site.status)], None)
  }
}
