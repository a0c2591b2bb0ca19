/**
 * The cluster objects the store templates build, reduced to what the rest of
 * the system relies on: names, namespaces, labels, selectors, keys, ports,
 * volume references and storage sizes. Each kind is a value; `Object` is the
 * tagged union the cluster holds.
 */
module Resources {
  import opened Wrappers

  /** Every object of one store lives in this namespace. */
  function StoreNamespace(storeId: string): (ns: string)
    ensures StorePrefix <= ns && ns[|StorePrefix|..] == storeId
  {
    StorePrefix + storeId
  }

  const StorePrefix: string := "store-"

  datatype Meta = Meta(
    name: string,
    namespace: string,
    labels: map<string, string>,
    annotations: map<string, string>)

  datatype SecretKeyRef = SecretKeyRef(secretName: string, key: string)

  /** An environment variable's value: a literal or a key of a secret. */
  datatype EnvSource = Literal(value: string) | FromSecret(ref: SecretKeyRef)

  datatype EnvVar = EnvVar(name: string, source: EnvSource)

  datatype ContainerPort = ContainerPort(containerPort: int, name: string)

  datatype VolumeMount = VolumeMount(name: string, mountPath: string)

  /** A container; `envFromConfigMaps` lists the config maps loaded whole into the environment. */
  datatype Container = Container(
    name: string,
    image: string,
    command: seq<string>,
    ports: seq<ContainerPort>,
    env: seq<EnvVar>,
    envFromConfigMaps: seq<string>,
    volumeMounts: seq<VolumeMount>)

  datatype VolumeSource =
    | ClaimVolume(claimName: string)
    | ConfigMapVolume(configMapName: string, defaultMode: int)

  datatype Volume = Volume(name: string, source: VolumeSource)

  datatype PodTemplate = PodTemplate(
    labels: map<string, string>,
    initContainers: seq<Container>,
    containers: seq<Container>,
    volumes: seq<Volume>)
  {
    function AllContainers(): seq<Container> { initContainers + containers }
  }

  datatype ClaimSpec = ClaimSpec(accessModes: seq<string>, storage: string)

  datatype ClaimTemplate = ClaimTemplate(name: string, spec: ClaimSpec)

  datatype ServicePort = ServicePort(port: int, targetPort: int, protocol: string, name: Option<string>)

  /** One routed path of an ingress rule: path, path type and the backend service and port. */
  datatype IngressPath = IngressPath(path: string, pathType: string, serviceName: string, servicePort: int)

  datatype IngressRule = IngressRule(host: string, paths: seq<IngressPath>)

  datatype Secret = Secret(meta: Meta, secretType: string, stringData: map<string, string>)

  datatype Service = Service(
    meta: Meta,
    ports: seq<ServicePort>,
    selector: map<string, string>,
    clusterIP: Option<string>,
    serviceType: Option<string>)

  datatype StatefulSet = StatefulSet(
    meta: Meta,
    serviceName: string,
    replicas: int,
    selector: map<string, string>,
    template: PodTemplate,
    claimTemplates: seq<ClaimTemplate>)

  datatype ConfigMap = ConfigMap(meta: Meta, data: map<string, string>)

  datatype PersistentVolumeClaim = PersistentVolumeClaim(meta: Meta, spec: ClaimSpec)

  datatype Deployment = Deployment(
    meta: Meta,
    replicas: int,
    selector: map<string, string>,
    template: PodTemplate)

  datatype Ingress = Ingress(meta: Meta, ingressClassName: string, rules: seq<IngressRule>)

  datatype Kind = SecretKind | ServiceKind | StatefulSetKind | ConfigMapKind | PvcKind | DeploymentKind | IngressKind

  /** Objects are identified within a namespace by kind and name. */
  datatype ObjectKey = ObjectKey(kind: Kind, name: string)

  datatype Object =
    | SecretObject(secret: Secret)
    | ServiceObject(service: Service)
    | StatefulSetObject(statefulSet: StatefulSet)
    | ConfigMapObject(configMap: ConfigMap)
    | PvcObject(pvc: PersistentVolumeClaim)
    | DeploymentObject(deployment: Deployment)
    | IngressObject(ingress: Ingress)
  {
    function Metadata(): Meta {
      match this
      case SecretObject(s) => s.meta
      case ServiceObject(s) => s.meta
      case StatefulSetObject(s) => s.meta
      case ConfigMapObject(c) => c.meta
      case PvcObject(p) => p.meta
      case DeploymentObject(d) => d.meta
      case IngressObject(i) => i.meta
    }

    function KindOf(): Kind {
      match this
      case SecretObject(_) => SecretKind
      case ServiceObject(_) => ServiceKind
      case StatefulSetObject(_) => StatefulSetKind
      case ConfigMapObject(_) => ConfigMapKind
      case PvcObject(_) => PvcKind
      case DeploymentObject(_) => DeploymentKind
      case IngressObject(_) => IngressKind
    }

    function Key(): ObjectKey { ObjectKey(KindOf(), Metadata().name) }

    predicate IsWorkload() { StatefulSetObject? || DeploymentObject? }

    function PodTemplateOf(): PodTemplate
      requires IsWorkload()
    {
      if StatefulSetObject? then statefulSet.template else deployment.template
    }
  }
}
