/** The database tier of a store: credential secret, headless service and single-replica stateful set. */
module MysqlTemplates {
  import opened Wrappers
  import opened Resources

  const SecretName: string := "mysql-secret"
  const ServiceName: string := "mysql"
  const MysqlPort: int := 3306
  const StorageClaimName: string := "mysql-storage"
  /** The database volume size; no input changes it. */
  const MysqlStorage: string := "2Gi"

  function MysqlLabels(): map<string, string> { map["app" := "mysql"] }

  function MysqlSecret(storeId: string, password: string): Secret {
    Secret(
      Meta(SecretName, StoreNamespace(storeId), map[], map[]),
      "Opaque",
      map[
        "mysql-root-password" := "rootpassword",
        "mysql-database" := "wordpress",
        "mysql-user" := "wordpress",
        "mysql-password" := password])
  }

  function MysqlService(storeId: string): Service {
    Service(
      Meta(ServiceName, StoreNamespace(storeId), MysqlLabels(), map[]),
      [ServicePort(MysqlPort, MysqlPort, "TCP", None)],
      MysqlLabels(),
      Some("None"),
      None)
  }

  function SecretEnv(name: string, key: string): EnvVar {
    EnvVar(name, FromSecret(SecretKeyRef(SecretName, key)))
  }

  function MysqlStatefulSet(storeId: string): StatefulSet {
    StatefulSet(
      Meta(ServiceName, StoreNamespace(storeId), map[], map[]),
      ServiceName,
      1,
      MysqlLabels(),
      PodTemplate(
        MysqlLabels(),
        [],
        [Container(
          "mysql",
          "mysql:8.0",
          [],
          [ContainerPort(MysqlPort, "mysql")],
          [SecretEnv("MYSQL_ROOT_PASSWORD", "mysql-root-password"),
           SecretEnv("MYSQL_DATABASE", "mysql-database"),
           SecretEnv("MYSQL_USER", "mysql-user"),
           SecretEnv("MYSQL_PASSWORD", "mysql-password")],
          [],
          [VolumeMount(StorageClaimName, "/var/lib/mysql")])],
        []),
      [ClaimTemplate(StorageClaimName, ClaimSpec(["ReadWriteOnce"], MysqlStorage))])
  }

  /** The three database objects sit in the store's namespace. */
  lemma MysqlNamespaces(storeId: string, password: string)
    ensures MysqlSecret(storeId, password).meta.namespace == StoreNamespace(storeId)
    ensures MysqlService(storeId).meta.namespace == StoreNamespace(storeId)
    ensures MysqlStatefulSet(storeId).meta.namespace == StoreNamespace(storeId)
  {
  }

  /** The secret carries the caller's password and three fixed values, and nothing else. */
  lemma SecretContents(storeId: string, password: string)
    ensures var data := MysqlSecret(storeId, password).stringData;
      && data.Keys == {"mysql-root-password", "mysql-database", "mysql-user", "mysql-password"}
      && data["mysql-password"] == password
      && data["mysql-root-password"] == "rootpassword"
      && data["mysql-database"] == "wordpress"
      && data["mysql-user"] == "wordpress"
  {
  }

  /** Every secret reference of the stateful set names this secret and one of its keys. */
  lemma StatefulSetSecretRefsResolve(storeId: string, password: string)
    ensures var secret := MysqlSecret(storeId, password);
      forall c, e :: c in MysqlStatefulSet(storeId).template.AllContainers() && e in c.env && e.source.FromSecret? ==>
        e.source.ref.secretName == secret.meta.name && e.source.ref.key in secret.stringData
  {
  }

  /**
   * The service is headless, maps 3306 to 3306 and selects the stateful set's pods;
   * the stateful set runs one replica, is governed by that service and selects its own pods.
   */
  lemma ServiceSelectsStatefulSet(storeId: string)
    ensures var svc, ss := MysqlService(storeId), MysqlStatefulSet(storeId);
      && svc.clusterIP == Some("None")
      && svc.ports == [ServicePort(3306, 3306, "TCP", None)]
      && svc.selector == ss.template.labels == ss.selector == map["app" := "mysql"]
      && ss.replicas == 1
      && ss.serviceName == svc.meta.name
      && (forall c :: c in ss.template.AllContainers() ==> ContainerPort(3306, "mysql") in c.ports)
  {
  }

  /** The data volume is a fixed 2Gi claim, and the container mounts exactly that claim template. */
  lemma StorageClaimFixed(storeId: string)
    ensures var ss := MysqlStatefulSet(storeId);
      && ss.claimTemplates == [ClaimTemplate("mysql-storage", ClaimSpec(["ReadWriteOnce"], "2Gi"))]
      && (forall c, m :: c in ss.template.AllContainers() && m in c.volumeMounts ==>
            m.name == ss.claimTemplates[0].name)
  {
  }
}
