/**
 * The derived objects the controller writes: a ConfigMap, a Deployment and a
 * Service, reduced to the fields the controller sets plus a few it must leave
 * alone (template annotations, rollout strategy, observed status, cluster IP).
 */
module Resources {
  import opened Wrappers
  import opened Meta
  import opened WebsiteTypes

  /** `data` is a Go map and may be nil, which differs from an empty map. */
  datatype ConfigMap = ConfigMap(meta: ObjectMeta, data: Option<map<string, string>>)

  datatype ContainerPort = ContainerPort(containerPort: Int32)
  datatype VolumeMount = VolumeMount(name: string, mountPath: string)
  datatype Container = Container(
    name: string,
    image: string,
    ports: seq<ContainerPort>,
    volumeMounts: seq<VolumeMount>)

  datatype KeyToPath = KeyToPath(key: string, path: string)
  datatype ConfigMapVolumeSource = ConfigMapVolumeSource(name: string, items: seq<KeyToPath>)
  datatype Volume = Volume(name: string, configMap: Option<ConfigMapVolumeSource>)

  datatype PodTemplate = PodTemplate(
    labels: map<string, string>,
    annotations: map<string, string>,
    containers: seq<Container>,
    volumes: seq<Volume>)

  datatype LabelSelector = LabelSelector(matchLabels: map<string, string>)

  datatype DeploymentSpec = DeploymentSpec(
    replicas: Option<Int32>,
    selector: Option<LabelSelector>,
    template: PodTemplate,
    strategy: string)

  /** Written by the cluster, never by this controller. */
  datatype DeploymentStatus = DeploymentStatus(availableReplicas: Int32)

  datatype Deployment = Deployment(meta: ObjectMeta, spec: DeploymentSpec, status: DeploymentStatus)

  /** `targetPort` is the container port traffic is forwarded to. */
  datatype ServicePort = ServicePort(name: string, port: Int32, targetPort: Int32)

  /** `clusterIP` is assigned by the API server. */
  datatype ServiceSpec = ServiceSpec(
    serviceType: string,
    selector: map<string, string>,
    ports: seq<ServicePort>,
    clusterIP: string)

  datatype Service = Service(meta: ObjectMeta, spec: ServiceSpec)

  const EmptyPodTemplate: PodTemplate := PodTemplate(map[], map[], [], [])
  const EmptyDeploymentSpec: DeploymentSpec := DeploymentSpec(None, None, EmptyPodTemplate, "")
  const EmptyServiceSpec: ServiceSpec := ServiceSpec("", map[], [], "")
}
