/** The Website custom resource: its desired state, its observed state and their validation rules. */
module WebsiteTypes {
  import opened Wrappers
  import opened Meta

  /** Go's `int32`. */
  type Int32 = x: int | -0x8000_0000 <= x < 0x8000_0000

  /** The service types the schema admits for `serviceType`. */
  const ClusterIP: string := "ClusterIP"
  const NodePort: string := "NodePort"
  const LoadBalancer: string := "LoadBalancer"

  /**
   * Desired state. `image` and `serviceType` are optional strings (empty means
   * "not given"); `replicas` is a pointer and may be absent.
   */
  datatype WebsiteSpec = WebsiteSpec(
    image: string,
    replicas: Option<Int32>,
    indexHTML: string,
    serviceType: string)

  /** Observed state: three fields, each defaulting to its zero value. */
  datatype WebsiteStatus = WebsiteStatus(
    availableReplicas: Int32,
    serviceName: string,
    url: string)

  const ZeroStatus: WebsiteStatus := WebsiteStatus(0, "", "")

  /** A Website: identity metadata with separate desired and observed parts. */
  datatype Website = Website(meta: ObjectMeta, spec: WebsiteSpec, status: WebsiteStatus)

  /** The enumeration on `serviceType`; an empty value is an omitted field. */
  predicate ValidServiceType(t: string) {
    t == "" || t == ClusterIP || t == NodePort || t == LoadBalancer
  }

  /** The schema's validation markers: replicas at least 1 when present, non-empty HTML, a known service type. */
  predicate ValidSpec(spec: WebsiteSpec) {
    && (spec.replicas.Some? ==> spec.replicas.value >= 1)
    && |spec.indexHTML| >= 1
    && ValidServiceType(spec.serviceType)
  }
}
