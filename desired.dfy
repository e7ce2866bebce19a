/**
 * The pure part of the Website controller: derived names, the shared label
 * map, defaults, the mutate closures that shape the three derived objects,
 * and the status projection.
 */
module Desired {
  import opened Wrappers
  import opened Meta
  import opened WebsiteTypes
  import opened Resources

  const WebPort: Int32 := 8080
  const IndexKey: string := "index.html"
  const CmNameSuffix: string := "-content"
  const DeployNameSuffix: string := "-deploy"
  const SvcNameSuffix: string := "-svc"
  const DefaultImage: string := "nginx:1.27-alpine"
  const LabelKey: string := "app.kubernetes.io/name"

  const ContainerName: string := "nginx"
  const HtmlVolume: string := "html"
  const HtmlMountPath: string := "/usr/share/nginx/html"
  const HttpPortName: string := "http"
  const HttpPort: Int32 := 80

  // ---------------------------------------------------------------- names

  function CmName(site: string): string { site + CmNameSuffix }
  function DeployName(site: string): string { site + DeployNameSuffix }
  function SvcName(site: string): string { site + SvcNameSuffix }

  function CmKey(site: Website): ObjectKey { ObjectKey(site.meta.namespace, CmName(site.meta.name)) }
  function DeployKey(site: Website): ObjectKey { ObjectKey(site.meta.namespace, DeployName(site.meta.name)) }
  function SvcKey(site: Website): ObjectKey { ObjectKey(site.meta.namespace, SvcName(site.meta.name)) }

  /** The inverse of appending a suffix: the stem, if `s` ends in `suffix`. */
  function TrimSuffix(s: string, suffix: string): (r: Option<string>)
    ensures r.Some? ==> r.value + suffix == s
  {
    if |suffix| <= |s| && s[|s| - |suffix|..] == suffix then
      assert s == s[..|s| - |suffix|] + s[|s| - |suffix|..];
      Some(s[..|s| - |suffix|])
    else
      None
  }

  lemma {:induction false} TrimSuffixAfterAppend(stem: string, suffix: string)
    ensures TrimSuffix(stem + suffix, suffix) == Some(stem)
  {
    var s := stem + suffix;
    assert s[|s| - |suffix|..] == suffix;
    assert s[..|s| - |suffix|] == stem;
  }

  /** Each derived name gives back the site name it was derived from. */
  lemma DerivedNamesRoundTrip(site: string)
    ensures TrimSuffix(CmName(site), CmNameSuffix) == Some(site)
    ensures TrimSuffix(DeployName(site), DeployNameSuffix) == Some(site)
    ensures TrimSuffix(SvcName(site), SvcNameSuffix) == Some(site)
  {
    TrimSuffixAfterAppend(site, CmNameSuffix);
    TrimSuffixAfterAppend(site, DeployNameSuffix);
    TrimSuffixAfterAppend(site, SvcNameSuffix);
  }

  /** Two different sites never share a derived object name. */
  lemma DerivedNamesInjective(a: string, b: string)
    requires a != b
    ensures CmName(a) != CmName(b) && DeployName(a) != DeployName(b) && SvcName(a) != SvcName(b)
  {
    DerivedNamesRoundTrip(a);
    DerivedNamesRoundTrip(b);
  }

  /** The three suffixes end in different letters, so no two kinds of derived name ever coincide. */
  lemma DerivedNamesDistinct(a: string, b: string)
    ensures CmName(a) != DeployName(b) && CmName(a) != SvcName(b) && DeployName(a) != SvcName(b)
  {
    assert CmName(a)[|CmName(a)| - 1] == 't';
    assert DeployName(b)[|DeployName(b)| - 1] == 'y';
    assert SvcName(b)[|SvcName(b)| - 1] == 'c';
    assert DeployName(a)[|DeployName(a)| - 1] == 'y';
  }

  // ---------------------------------------------------------------- labels and defaults

  /** The one label map used on every object, in both selectors and on the pod template. */
  function Labels(site: string): (r: map<string, string>)
    ensures r.Keys == {LabelKey} && r[LabelKey] == site
  {
    map[LabelKey := site]
  }

  /** Replicas: the given value, or 1 when absent. */
  function DesiredReplicas(spec: WebsiteSpec): (r: Int32)
    ensures spec.replicas.Some? ==> r == spec.replicas.value
    ensures spec.replicas.None? ==> r == 1
    ensures ValidSpec(spec) ==> r >= 1
  {
    match spec.replicas
    case Some(n) => n
    case None => 1
  }

  /** Image: the given one, or the default nginx image when empty. */
  function DesiredImage(spec: WebsiteSpec): (r: string)
    ensures r != ""
    ensures spec.image != "" ==> r == spec.image
    ensures spec.image == "" ==> r == DefaultImage
  {
    if spec.image != "" then spec.image else DefaultImage
  }

  /** Service type: the given one, or ClusterIP when empty. */
  function DesiredServiceType(spec: WebsiteSpec): (r: string)
    ensures r != ""
    ensures spec.serviceType != "" ==> r == spec.serviceType
    ensures spec.serviceType == "" ==> r == ClusterIP
    ensures ValidSpec(spec) ==> ValidServiceType(r)
  {
    if spec.serviceType != "" then spec.serviceType else ClusterIP
  }

  /** The spec with every default written out. */
  function Defaulted(spec: WebsiteSpec): (r: WebsiteSpec)
    ensures r.replicas.Some? && r.image != "" && r.serviceType != ""
    ensures r.replicas == Some(DesiredReplicas(spec))
    ensures r.image == DesiredImage(spec) && r.serviceType == DesiredServiceType(spec)
    ensures r.indexHTML == spec.indexHTML
    ensures ValidSpec(spec) ==> ValidSpec(r)
  {
    spec.(replicas := Some(DesiredReplicas(spec)),
          image := DesiredImage(spec),
          serviceType := DesiredServiceType(spec))
  }

  // ---------------------------------------------------------------- the ConfigMap

  /** The object built before the ConfigMap is fetched: identity and labels only, no data. */
  function InitialConfigMap(site: Website): ConfigMap {
    ConfigMap(ObjectMeta(CmName(site.meta.name), site.meta.namespace, Labels(site.meta.name), None), None)
  }

  function DataKeys(cm: ConfigMap): set<string> {
    if cm.data.Some? then cm.data.value.Keys else {}
  }

  /**
   * The ConfigMap mutate closure: a nil map becomes an empty one, the page is
   * stored under `index.html`, every other key is kept, and the site becomes
   * the controlling owner.
   */
  function MutateConfigMap(cm: ConfigMap, site: Website): (r: ConfigMap)
    ensures r.meta == SetControllerReference(site.meta, cm.meta)
    ensures r.data.Some? && r.data.value.Keys == DataKeys(cm) + {IndexKey}
    ensures r.data.value[IndexKey] == site.spec.indexHTML
    ensures cm.data.Some? ==>
      forall k :: k in cm.data.value && k != IndexKey ==> r.data.value[k] == cm.data.value[k]
  {
    var data := if cm.data.None? then map[] else cm.data.value;
    cm.(data := Some(data[IndexKey := site.spec.indexHTML]),
        meta := SetControllerReference(site.meta, cm.meta))
  }

  // ---------------------------------------------------------------- the Deployment

  function InitialDeployment(site: Website): Deployment {
    Deployment(
      ObjectMeta(DeployName(site.meta.name), site.meta.namespace, Labels(site.meta.name), None),
      EmptyDeploymentSpec,
      DeploymentStatus(0))
  }

  /** The single nginx container: the site's image, port 8080, the `html` volume at nginx's document root. */
  function DesiredContainers(spec: WebsiteSpec): seq<Container> {
    [Container(ContainerName, DesiredImage(spec), [ContainerPort(WebPort)],
               [VolumeMount(HtmlVolume, HtmlMountPath)])]
  }

  /** The single `html` volume: key `index.html` of the named ConfigMap, projected to file `index.html`. */
  function DesiredVolumes(cmName: string): seq<Volume> {
    [Volume(HtmlVolume, Some(ConfigMapVolumeSource(cmName, [KeyToPath(IndexKey, "index.html")])))]
  }

  /** Every volume mount of every container names a volume the pod declares. */
  predicate MountsResolve(t: PodTemplate) {
    forall c, m :: c in t.containers && m in c.volumeMounts ==>
      exists v :: v in t.volumes && v.name == m.name
  }

  /** The pod serves the page: it mounts a volume drawn from `cmName`'s `index.html`, and listens on 8080. */
  predicate ServesConfigMap(t: PodTemplate, cmName: string) {
    && MountsResolve(t)
    && |t.containers| == 1
    && ContainerPort(WebPort) in t.containers[0].ports
    && VolumeMount(HtmlVolume, HtmlMountPath) in t.containers[0].volumeMounts
    && forall v :: v in t.volumes ==>
         v.configMap == Some(ConfigMapVolumeSource(cmName, [KeyToPath(IndexKey, IndexKey)]))
  }

  /** The selector picks exactly the pods the template stamps out. */
  predicate SelectorMatchesTemplate(d: Deployment) {
    d.spec.selector == Some(LabelSelector(d.spec.template.labels))
  }

  /**
   * The Deployment mutate closure: overwrites replicas, selector, template
   * labels, containers and volumes, and sets the controller reference; the
   * rollout strategy, template annotations, observed status and the rest of the
   * metadata are left as they were.
   */
  function MutateDeployment(d: Deployment, site: Website): (r: Deployment)
    ensures r.meta == SetControllerReference(site.meta, d.meta)
    ensures r.status == d.status
    ensures r.spec.strategy == d.spec.strategy
    ensures r.spec.template.annotations == d.spec.template.annotations
    ensures r.spec.replicas == Some(DesiredReplicas(site.spec))
    ensures r.spec.template.labels == Labels(site.meta.name)
    ensures SelectorMatchesTemplate(r)
    ensures ServesConfigMap(r.spec.template, CmName(site.meta.name))
    ensures r.spec.template.containers[0].name == ContainerName
    ensures r.spec.template.containers[0].image == DesiredImage(site.spec)
  {
    var labels := Labels(site.meta.name);
    var r := d.(
      spec := d.spec.(
        replicas := Some(DesiredReplicas(site.spec)),
        selector := Some(LabelSelector(labels)),
        template := d.spec.template.(
          labels := labels,
          containers := DesiredContainers(site.spec),
          volumes := DesiredVolumes(CmName(site.meta.name)))),
      meta := SetControllerReference(site.meta, d.meta));
    assert r.spec.template.volumes[0].name == HtmlVolume;
    r
  }

  // ---------------------------------------------------------------- the Service

  function InitialService(site: Website): Service {
    Service(ObjectMeta(SvcName(site.meta.name), site.meta.namespace, Labels(site.meta.name), None),
            EmptyServiceSpec)
  }

  /**
   * The Service mutate closure: overwrites type, selector and ports and sets
   * the controller reference; the server-assigned cluster IP and the rest of
   * the metadata are kept.
   */
  function MutateService(svc: Service, site: Website): (r: Service)
    ensures r.meta == SetControllerReference(site.meta, svc.meta)
    ensures r.spec.clusterIP == svc.spec.clusterIP
    ensures r.spec.serviceType == DesiredServiceType(site.spec)
    ensures r.spec.selector == Labels(site.meta.name)
    ensures r.spec.ports == [ServicePort(HttpPortName, HttpPort, WebPort)]
  {
    svc.(spec := svc.spec.(
           serviceType := DesiredServiceType(site.spec),
           selector := Labels(site.meta.name),
           ports := [ServicePort(HttpPortName, HttpPort, WebPort)]),
         meta := SetControllerReference(site.meta, svc.meta))
  }

  // ---------------------------------------------------------------- status

  /** The in-cluster address of a service. */
  function ServiceURL(svcName: string, namespace: string): string {
    "http://" + svcName + "." + namespace + ".svc.cluster.local"
  }

  /**
   * Status after a reconcile: the service name and URL are recomputed; the
   * available replica count is copied from the re-read Deployment, and kept
   * from the previous status when that read failed.
   */
  function ProjectStatus(site: Website, observed: Result<Deployment, ApiError>): (r: WebsiteStatus)
    ensures r.serviceName == SvcName(site.meta.name)
    ensures r.url == ServiceURL(r.serviceName, site.meta.namespace)
    ensures r.availableReplicas ==
      if observed.Success? then observed.value.status.availableReplicas else site.status.availableReplicas
  {
    var status := if observed.Success?
      then site.status.(availableReplicas := observed.value.status.availableReplicas)
      else site.status;
    status.(serviceName := SvcName(site.meta.name),
            url := ServiceURL(SvcName(site.meta.name), site.meta.namespace))
  }
}
