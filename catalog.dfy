/**
 * The nine objects created inside a store's namespace, in the order the
 * provisioning pipeline submits them, and the cross-references between them:
 * every secret key, config map, claim, service and pod selector that one object
 * names is produced by another object of the same catalog.
 */
module Catalog {
  import opened Wrappers
  import opened Resources
  import opened MysqlTemplates
  import opened WordpressTemplates
  import opened IngressTemplate

  /** The nine manifests of one store, in the order they are submitted. */
  datatype Manifests = Manifests(
    mysqlSecret: Secret,
    mysqlService: Service,
    mysqlStatefulSet: StatefulSet,
    wordpressConfig: ConfigMap,
    wordpressPvc: PersistentVolumeClaim,
    setupScript: ConfigMap,
    wordpressDeployment: Deployment,
    wordpressService: Service,
    ingress: Ingress)
  {
    function Objects(): (objs: seq<Object>)
      ensures |objs| == 9
    {
      [SecretObject(mysqlSecret), ServiceObject(mysqlService), StatefulSetObject(mysqlStatefulSet),
       ConfigMapObject(wordpressConfig), PvcObject(wordpressPvc), ConfigMapObject(setupScript),
       DeploymentObject(wordpressDeployment), ServiceObject(wordpressService), IngressObject(ingress)]
    }
  }

  /** Every manifest the templates produce for one store. */
  function StoreManifests(storeId: string, dbPassword: string, storeUrl: string,
                          sampleProducts: string, storageSizeGi: int): Manifests
  {
    Manifests(
      MysqlSecret(storeId, dbPassword),
      MysqlService(storeId),
      MysqlStatefulSet(storeId),
      WordpressConfig(storeId, dbPassword, storeUrl, sampleProducts),
      WordpressPvc(storeId, storageSizeGi),
      WpSetupScript(storeId, dbPassword, storeUrl, sampleProducts),
      WordpressDeployment(storeId, dbPassword, storeUrl),
      WordpressService(storeId),
      StoreIngress(storeId, storeUrl))
  }

  function StoreObjects(storeId: string, dbPassword: string, storeUrl: string,
                        sampleProducts: string, storageSizeGi: int): seq<Object>
  {
    StoreManifests(storeId, dbPassword, storeUrl, sampleProducts, storageSizeGi).Objects()
  }

  /** Something one object names and expects to find elsewhere. */
  datatype Reference =
    | SecretKeyReference(secretName: string, key: string)
    | ConfigMapReference(configMapName: string)
    | ClaimReference(claimName: string)
    | ServiceReference(serviceName: string, port: Option<int>)
    | PodSelection(selector: map<string, string>, targetPorts: set<int>)

  function ContainerReferences(c: Container): set<Reference> {
    (set e | e in c.env && e.source.FromSecret? :: SecretKeyReference(e.source.ref.secretName, e.source.ref.key))
    + (set n | n in c.envFromConfigMaps :: ConfigMapReference(n))
  }

  function VolumeReference(v: Volume): Reference {
    match v.source
    case ClaimVolume(claim) => ClaimReference(claim)
    case ConfigMapVolume(name, _) => ConfigMapReference(name)
  }

  function PodReferences(t: PodTemplate): set<Reference> {
    (set c, r | c in t.AllContainers() && r in ContainerReferences(c) :: r)
    + (set v | v in t.volumes :: VolumeReference(v))
  }

  function References(o: Object): set<Reference> {
    match o
    case SecretObject(_) => {}
    case ServiceObject(s) => {PodSelection(s.selector, TargetPorts(s))}
    case StatefulSetObject(s) => PodReferences(s.template) + {ServiceReference(s.serviceName, None)}
    case ConfigMapObject(_) => {}
    case PvcObject(_) => {}
    case DeploymentObject(d) => PodReferences(d.template)
    case IngressObject(i) =>
      set r, p | r in i.rules && p in r.paths :: ServiceReference(p.serviceName, Some(p.servicePort))
  }

  function ContainerPorts(t: PodTemplate): set<int> {
    set c, p | c in t.AllContainers() && p in c.ports :: p.containerPort
  }

  predicate Resolves(objs: seq<Object>, r: Reference) {
    match r
    case SecretKeyReference(name, key) =>
      exists o :: o in objs && o.SecretObject? && o.secret.meta.name == name && key in o.secret.stringData
    case ConfigMapReference(name) =>
      exists o :: o in objs && o.ConfigMapObject? && o.configMap.meta.name == name
    case ClaimReference(name) =>
      exists o :: o in objs && o.PvcObject? && o.pvc.meta.name == name
    case ServiceReference(name, port) =>
      exists o :: o in objs && o.ServiceObject? && o.service.meta.name == name &&
        (port == None || exists p :: p in o.service.ports && Some(p.port) == port)
    case PodSelection(selector, ports) =>
      exists o :: o in objs && o.IsWorkload() && o.PodTemplateOf().labels == selector &&
        ports <= ContainerPorts(o.PodTemplateOf())
  }

  /** Everything one object names is produced by some object of `objs`. */
  predicate ReferencesResolve(objs: seq<Object>, o: Object) {
    forall r :: r in References(o) ==> Resolves(objs, r)
  }

  /** No object names anything the catalog does not produce. */
  predicate Closed(objs: seq<Object>) {
    forall o :: o in objs ==> ReferencesResolve(objs, o)
  }

  /** Workloads select their own pods, and every volume mount names a volume or claim template. */
  predicate SelfConsistent(o: Object) {
    match o
    case StatefulSetObject(s) =>
      s.selector == s.template.labels &&
      forall c, m :: c in s.template.AllContainers() && m in c.volumeMounts ==>
        (exists v :: v in s.template.volumes && v.name == m.name) ||
        (exists t :: t in s.claimTemplates && t.name == m.name)
    case DeploymentObject(d) =>
      d.selector == d.template.labels &&
      forall c, m :: c in d.template.AllContainers() && m in c.volumeMounts ==>
        exists v :: v in d.template.volumes && v.name == m.name
    case _ => true
  }

  /** A catalog is closed as soon as its five referring objects are; the other four name nothing. */
  lemma ClosedFrom(m: Manifests)
    requires ReferencesResolve(m.Objects(), ServiceObject(m.mysqlService))
    requires ReferencesResolve(m.Objects(), StatefulSetObject(m.mysqlStatefulSet))
    requires ReferencesResolve(m.Objects(), DeploymentObject(m.wordpressDeployment))
    requires ReferencesResolve(m.Objects(), ServiceObject(m.wordpressService))
    requires ReferencesResolve(m.Objects(), IngressObject(m.ingress))
    ensures Closed(m.Objects())
  {
    var objs := m.Objects();
    forall o | o in objs ensures ReferencesResolve(objs, o) {
      if o.SecretObject? || o.ConfigMapObject? || o.PvcObject? {
        assert References(o) == {};
      }
    }
  }

  /** Every reference any object of the catalog makes is produced by another object of it. */
  lemma CatalogIsClosed(storeId: string, pw: string, url: string, products: string, size: int)
    ensures Closed(StoreObjects(storeId, pw, url, products, size))
  {
    var m := StoreManifests(storeId, pw, url, products, size);
    var objs := m.Objects();
    assert objs[0] in objs && objs[1] in objs && objs[2] in objs && objs[3] in objs && objs[4] in objs;
    assert objs[5] in objs && objs[6] in objs && objs[7] in objs;
    MysqlServiceReferences(objs, storeId);
    StatefulSetReferences(objs, storeId, pw);
    DeploymentReferences(objs, storeId, pw, url, products, size);
    WordpressServiceReferences(objs, storeId, pw, url);
    IngressReferences(objs, storeId, url);
    ClosedFrom(m);
  }

  function TargetPorts(s: Service): set<int> {
    set p | p in s.ports :: p.targetPort
  }

  lemma SinglePortTargets(s: Service)
    requires |s.ports| == 1
    ensures TargetPorts(s) == {s.ports[0].targetPort}
  {
    assert s.ports[0] in s.ports;
  }

  lemma ContainerPortListed(t: PodTemplate, i: nat, j: nat)
    requires i < |t.AllContainers()| && j < |t.AllContainers()[i].ports|
    ensures t.AllContainers()[i].ports[j].containerPort in ContainerPorts(t)
  {
    var c := t.AllContainers()[i];
    assert c in t.AllContainers() && c.ports[j] in c.ports;
  }

  /** The database service selects the stateful set's pods and targets the port they open. */
  lemma MysqlServiceReferences(objs: seq<Object>, storeId: string)
    requires StatefulSetObject(MysqlStatefulSet(storeId)) in objs
    ensures ReferencesResolve(objs, ServiceObject(MysqlService(storeId)))
  {
    var svc, ss := MysqlService(storeId), MysqlStatefulSet(storeId);
    SinglePortTargets(svc);
    ContainerPortListed(ss.template, 0, 0);
    assert Resolves(objs, PodSelection(svc.selector, TargetPorts(svc)));
  }

  /** The application service selects the deployment's pods and targets the port they open. */
  lemma WordpressServiceReferences(objs: seq<Object>, storeId: string, pw: string, url: string)
    requires DeploymentObject(WordpressDeployment(storeId, pw, url)) in objs
    ensures ReferencesResolve(objs, ServiceObject(WordpressService(storeId)))
  {
    var svc, d := WordpressService(storeId), WordpressDeployment(storeId, pw, url);
    SinglePortTargets(svc);
    ContainerPortListed(d.template, 1, 0);
    assert Resolves(objs, PodSelection(svc.selector, TargetPorts(svc)));
  }

  lemma SecretKeyResolves(objs: seq<Object>, s: Secret, key: string)
    requires SecretObject(s) in objs && key in s.stringData
    ensures Resolves(objs, SecretKeyReference(s.meta.name, key))
  {
  }

  lemma ConfigMapResolves(objs: seq<Object>, c: ConfigMap)
    requires ConfigMapObject(c) in objs
    ensures Resolves(objs, ConfigMapReference(c.meta.name))
  {
  }

  lemma ClaimResolves(objs: seq<Object>, p: PersistentVolumeClaim)
    requires PvcObject(p) in objs
    ensures Resolves(objs, ClaimReference(p.meta.name))
  {
  }

  /** The stateful set names four keys of the database secret and its governing service. */
  lemma StatefulSetReferenceList(storeId: string)
    ensures References(StatefulSetObject(MysqlStatefulSet(storeId))) <=
      {SecretKeyReference("mysql-secret", "mysql-root-password"), SecretKeyReference("mysql-secret", "mysql-database"),
       SecretKeyReference("mysql-secret", "mysql-user"), SecretKeyReference("mysql-secret", "mysql-password"),
       ServiceReference("mysql", None)}
  {
  }

  lemma ServiceResolves(objs: seq<Object>, svc: Service)
    requires ServiceObject(svc) in objs
    ensures Resolves(objs, ServiceReference(svc.meta.name, None))
  {
  }

  /** An object naming only present keys of one secret and one present service has its references resolved. */
  lemma GovernedResolves(objs: seq<Object>, o: Object, secret: Secret, keys: set<string>, svc: Service)
    requires SecretObject(secret) in objs && ServiceObject(svc) in objs
    requires keys <= secret.stringData.Keys
    requires forall r :: r in References(o) ==>
      || (r.SecretKeyReference? && r.secretName == secret.meta.name && r.key in keys)
      || r == ServiceReference(svc.meta.name, None)
    ensures ReferencesResolve(objs, o)
  {
    forall r | r in References(o) ensures Resolves(objs, r) {
      if r.SecretKeyReference? {
        SecretKeyResolves(objs, secret, r.key);
      } else {
        ServiceResolves(objs, svc);
      }
    }
  }

  /** The database reads its four credentials from the secret and is governed by the database service. */
  lemma StatefulSetReferences(objs: seq<Object>, storeId: string, pw: string)
    requires SecretObject(MysqlSecret(storeId, pw)) in objs
    requires ServiceObject(MysqlService(storeId)) in objs
    ensures ReferencesResolve(objs, StatefulSetObject(MysqlStatefulSet(storeId)))
  {
    StatefulSetReferenceList(storeId);
    GovernedResolves(objs, StatefulSetObject(MysqlStatefulSet(storeId)), MysqlSecret(storeId, pw),
                     {"mysql-root-password", "mysql-database", "mysql-user", "mysql-password"}, MysqlService(storeId));
  }

  /** The deployment names three keys of the database secret, the settings, the claim and the script. */
  lemma DeploymentReferenceList(storeId: string, pw: string, url: string)
    ensures References(DeploymentObject(WordpressDeployment(storeId, pw, url))) <=
      {SecretKeyReference("mysql-secret", "mysql-database"), SecretKeyReference("mysql-secret", "mysql-user"),
       SecretKeyReference("mysql-secret", "mysql-password"), ConfigMapReference("wordpress-config"),
       ClaimReference("wordpress-pvc"), ConfigMapReference("wp-setup-script")}
  {
  }

  /** An object naming only keys of one secret, two config maps and a claim, all present, has its references resolved. */
  lemma ConsumerResolves(objs: seq<Object>, o: Object, secret: Secret, keys: set<string>,
                         c1: ConfigMap, c2: ConfigMap, pvc: PersistentVolumeClaim)
    requires SecretObject(secret) in objs && ConfigMapObject(c1) in objs && ConfigMapObject(c2) in objs
    requires PvcObject(pvc) in objs
    requires keys <= secret.stringData.Keys
    requires forall r :: r in References(o) ==>
      || (r.SecretKeyReference? && r.secretName == secret.meta.name && r.key in keys)
      || r == ConfigMapReference(c1.meta.name) || r == ConfigMapReference(c2.meta.name)
      || r == ClaimReference(pvc.meta.name)
    ensures ReferencesResolve(objs, o)
  {
    forall r | r in References(o) ensures Resolves(objs, r) {
      if r.SecretKeyReference? {
        SecretKeyResolves(objs, secret, r.key);
      } else if r == ConfigMapReference(c1.meta.name) {
        ConfigMapResolves(objs, c1);
      } else if r == ConfigMapReference(c2.meta.name) {
        ConfigMapResolves(objs, c2);
      } else {
        ClaimResolves(objs, pvc);
      }
    }
  }

  /** The application reads the secret and the settings, mounts the claim and the script. */
  lemma DeploymentReferences(objs: seq<Object>, storeId: string, pw: string, url: string, products: string, size: int)
    requires SecretObject(MysqlSecret(storeId, pw)) in objs
    requires ConfigMapObject(WordpressConfig(storeId, pw, url, products)) in objs
    requires PvcObject(WordpressPvc(storeId, size)) in objs
    requires ConfigMapObject(WpSetupScript(storeId, pw, url, products)) in objs
    ensures ReferencesResolve(objs, DeploymentObject(WordpressDeployment(storeId, pw, url)))
  {
    DeploymentReferenceList(storeId, pw, url);
    ConsumerResolves(objs, DeploymentObject(WordpressDeployment(storeId, pw, url)), MysqlSecret(storeId, pw),
                     {"mysql-database", "mysql-user", "mysql-password"},
                     WordpressConfig(storeId, pw, url, products), WpSetupScript(storeId, pw, url, products),
                     WordpressPvc(storeId, size));
  }

  /** The route's backend is the application service, on a port that service exposes. */
  lemma IngressReferences(objs: seq<Object>, storeId: string, url: string)
    requires ServiceObject(WordpressService(storeId)) in objs
    ensures ReferencesResolve(objs, IngressObject(StoreIngress(storeId, url)))
  {
    var svc := WordpressService(storeId);
    assert svc.ports[0] in svc.ports;
  }

  lemma StatefulSetSelfConsistent(storeId: string)
    ensures SelfConsistent(StatefulSetObject(MysqlStatefulSet(storeId)))
  {
    var ss := MysqlStatefulSet(storeId);
    assert ss.claimTemplates[0] in ss.claimTemplates;
  }

  lemma DeploymentSelfConsistent(storeId: string, pw: string, url: string)
    ensures SelfConsistent(DeploymentObject(WordpressDeployment(storeId, pw, url)))
  {
    var d := WordpressDeployment(storeId, pw, url);
    assert d.template.volumes[0] in d.template.volumes;
    assert d.template.volumes[1] in d.template.volumes;
  }

  /** Both workloads select their own pods and mount only volumes they declare. */
  lemma CatalogSelfConsistent(storeId: string, pw: string, url: string, products: string, size: int)
    ensures forall o :: o in StoreObjects(storeId, pw, url, products, size) ==> SelfConsistent(o)
  {
    StatefulSetSelfConsistent(storeId);
    DeploymentSelfConsistent(storeId, pw, url);
  }


  /** Every object is in the store's namespace. */
  lemma CatalogNamespaces(storeId: string, pw: string, url: string, products: string, size: int)
    ensures forall o :: o in StoreObjects(storeId, pw, url, products, size) ==>
      o.Metadata().namespace == StoreNamespace(storeId)
  {
  }

  /** No two objects share a kind and a name, so none overwrites another in the namespace. */
  lemma CatalogKeysDistinct(storeId: string, pw: string, url: string, products: string, size: int)
    ensures var objs := StoreObjects(storeId, pw, url, products, size);
      forall i, j :: 0 <= i < j < |objs| ==> objs[i].Key() != objs[j].Key()
  {
  }

  /** The WordPress admin login password is the database user's password: both are the one generated password. */
  lemma SamePasswordInSecretAndConfig(storeId: string, pw: string, url: string, products: string, size: int)
    ensures var objs := StoreObjects(storeId, pw, url, products, size);
      && objs[0].secret.stringData["mysql-password"] == objs[3].configMap.data["WP_ADMIN_PASSWORD"] == pw
  {
  }
}
