/**
 * The application tier of a store: the WordPress configuration, its volume
 * claim, the bootstrap-script config map, the deployment (an init container
 * that runs the bootstrap, then the serving container) and its service.
 */
module WordpressTemplates {
  import opened Wrappers
  import opened Text
  import opened Resources
  import MysqlTemplates

  const ConfigName: string := "wordpress-config"
  const ClaimName: string := "wordpress-pvc"
  const ScriptConfigMapName: string := "wp-setup-script"
  const ScriptKey: string := "wp-setup.sh"
  const ScriptMountPath: string := "/scripts"
  const AppName: string := "wordpress"
  const HttpPort: int := 80
  const DefaultStorageGi: int := 2

  /**
   * Stands for the bash bootstrap script stored under `wp-setup.sh`. The script
   * is a raw literal that interpolates none of the template's arguments; its body
   * (waiting for the database, installing WordPress and WooCommerce, importing
   * `SAMPLE_PRODUCTS`) runs inside the container and is not modelled.
   */
  const SetupScript: string := "#!/bin/bash\n# WooCommerce bootstrap: wait for the database, install, import SAMPLE_PRODUCTS\n"

  /** The shell command of the init container: PHP memory settings, then the mounted script with filtered logs. */
  const InitCommand: string :=
    "mkdir -p /tmp/conf.d\necho \"memory_limit = 512M\" > /tmp/conf.d/custom.ini\n" +
    "export PHP_INI_SCAN_DIR=:$PHP_INI_SCAN_DIR:/tmp/conf.d\n\n" +
    "# --- FIX: Filter Logs ---\n" +
    "# We redirect stderr to stdout (2>&1) and filter out the noisy warnings\n" +
    ScriptMountPath + "/" + ScriptKey + " 2>&1 | grep -v \"already loaded\""

  /** The database address the WordPress containers are given. */
  const DbHost: string := "mysql:3306"

  function AppLabels(): map<string, string> { map["app" := AppName] }

  function WordpressConfig(storeId: string, dbPassword: string, storeUrl: string, sampleProducts: string): ConfigMap {
    ConfigMap(
      Meta(ConfigName, StoreNamespace(storeId), map[], map[]),
      map[
        "WP_ADMIN_USER" := "admin",
        "WP_ADMIN_PASSWORD" := dbPassword,
        "WP_ADMIN_EMAIL" := "admin@example.com",
        "WP_SITE_TITLE" := "My WooCommerce Store",
        "WP_SITE_URL" := "http://" + storeUrl,
        "WC_STORE_NAME" := "My Awesome Store",
        "WC_STORE_ADDRESS" := "123 MG Road",
        "WC_STORE_CITY" := "Mumbai",
        "WC_STORE_POSTCODE" := "400001",
        "WC_STORE_COUNTRY" := "IN",
        "WC_STORE_CURRENCY" := "INR",
        "SAMPLE_PRODUCTS" := sampleProducts])
  }

  /** Python renders the size with `f"{n}Gi"`, so any integer is accepted. */
  function WordpressPvc(storeId: string, storageSizeGi: int := DefaultStorageGi): PersistentVolumeClaim {
    PersistentVolumeClaim(
      Meta(ClaimName, StoreNamespace(storeId), map[], map[]),
      ClaimSpec(["ReadWriteOnce"], IntToString(storageSizeGi) + "Gi"))
  }

  /** The password, url and products are accepted and ignored: the script reads them from the environment. */
  function WpSetupScript(storeId: string, dbPassword: string, storeUrl: string, sampleProducts: string): ConfigMap {
    ConfigMap(
      Meta(ScriptConfigMapName, StoreNamespace(storeId), map[], map[]),
      map[ScriptKey := SetupScript])
  }

  /** The database connection settings both WordPress containers receive. */
  function DbEnv(): seq<EnvVar> {
    [EnvVar("WORDPRESS_DB_HOST", Literal(DbHost)),
     MysqlTemplates.SecretEnv("WORDPRESS_DB_NAME", "mysql-database"),
     MysqlTemplates.SecretEnv("WORDPRESS_DB_USER", "mysql-user"),
     MysqlTemplates.SecretEnv("WORDPRESS_DB_PASSWORD", "mysql-password")]
  }

  /** `db_password` and `store_url` are accepted and unused. */
  function WordpressDeployment(storeId: string, dbPassword: string, storeUrl: string): Deployment {
    Deployment(
      Meta(AppName, StoreNamespace(storeId), AppLabels(), map[]),
      1,
      AppLabels(),
      PodTemplate(
        AppLabels(),
        [Container(
          "wp-init",
          "wordpress:cli-php8.1",
          ["/bin/bash", "-c", InitCommand],
          [],
          DbEnv(),
          [ConfigName],
          [VolumeMount("wordpress-storage", "/var/www/html"), VolumeMount("setup-script", ScriptMountPath)])],
        [Container(
          AppName,
          "wordpress:latest",
          [],
          [ContainerPort(HttpPort, "http")],
          DbEnv(),
          [ConfigName],
          [VolumeMount("wordpress-storage", "/var/www/html")])],
        [Volume("wordpress-storage", ClaimVolume(ClaimName)),
         Volume("setup-script", ConfigMapVolume(ScriptConfigMapName, 493))]))  // 0o755
  }

  function WordpressService(storeId: string): Service {
    Service(
      Meta(AppName, StoreNamespace(storeId), AppLabels(), map[]),
      [ServicePort(HttpPort, HttpPort, "TCP", Some("http"))],
      AppLabels(),
      None,
      Some("ClusterIP"))
  }

  /** The five application objects sit in the store's namespace. */
  lemma WordpressNamespaces(storeId: string, pw: string, url: string, products: string, size: int)
    ensures WordpressConfig(storeId, pw, url, products).meta.namespace == StoreNamespace(storeId)
    ensures WordpressPvc(storeId, size).meta.namespace == StoreNamespace(storeId)
    ensures WpSetupScript(storeId, pw, url, products).meta.namespace == StoreNamespace(storeId)
    ensures WordpressDeployment(storeId, pw, url).meta.namespace == StoreNamespace(storeId)
    ensures WordpressService(storeId).meta.namespace == StoreNamespace(storeId)
  {
  }

  /** The admin password, site url and product payload are exactly the arguments; the other nine keys are constants. */
  lemma ConfigContents(storeId: string, pw: string, url: string, products: string,
                       storeId': string, pw': string, url': string, products': string)
    ensures var data := WordpressConfig(storeId, pw, url, products).data;
      && data["WP_ADMIN_PASSWORD"] == pw
      && data["WP_SITE_URL"] == "http://" + url
      && data["SAMPLE_PRODUCTS"] == products
      && data["WP_ADMIN_USER"] == "admin"
    ensures var data, data' := WordpressConfig(storeId, pw, url, products).data,
                               WordpressConfig(storeId', pw', url', products').data;
      && data.Keys == data'.Keys
      && forall k :: k in data && k !in {"WP_ADMIN_PASSWORD", "WP_SITE_URL", "SAMPLE_PRODUCTS"} ==> data[k] == data'[k]
  {
  }

  /** The claim is `wordpress-pvc` and its size reads back as the requested number of Gi. */
  lemma {:induction false} PvcRequestsSize(storeId: string, size: int)
    ensures var pvc := WordpressPvc(storeId, size);
      && pvc.meta.name == "wordpress-pvc"
      && |pvc.spec.storage| >= 2
      && pvc.spec.storage[|pvc.spec.storage| - 2..] == "Gi"
      && ParseInt(pvc.spec.storage[..|pvc.spec.storage| - 2]) == size
    ensures WordpressPvc(storeId) == WordpressPvc(storeId, 2)
  {
    var digits := IntToString(size);
    var s := digits + "Gi";
    assert s[..|s| - 2] == digits;
    assert s[|s| - 2..] == "Gi";
    IntToStringRoundTrip(size);
  }

  /** The script's data is the same for every input; only the namespace follows the store id. */
  lemma SetupScriptIgnoresInputs(storeId: string, pw: string, url: string, products: string,
                                 pw': string, url': string, products': string)
    ensures WpSetupScript(storeId, pw, url, products) == WpSetupScript(storeId, pw', url', products')
    ensures WpSetupScript(storeId, pw, url, products).data == map["wp-setup.sh" := SetupScript]
  {
  }

  /** The deployment is a function of the store id alone. */
  lemma DeploymentIgnoresCredentials(storeId: string, pw: string, url: string, pw': string, url': string)
    ensures WordpressDeployment(storeId, pw, url) == WordpressDeployment(storeId, pw', url')
  {
  }

  /**
   * The deployment, its pod template and the service all use `{app: wordpress}`;
   * the service is ClusterIP and sends port 80 to the serving container's port 80;
   * every volume mount names one of the pod's volumes.
   */
  lemma DeploymentAndServiceAgree(storeId: string, pw: string, url: string)
    ensures var d, svc := WordpressDeployment(storeId, pw, url), WordpressService(storeId);
      && d.selector == d.template.labels == svc.selector == map["app" := "wordpress"]
      && d.replicas == 1
      && svc.serviceType == Some("ClusterIP")
      && svc.ports == [ServicePort(80, 80, "TCP", Some("http"))]
      && ContainerPort(80, "http") in d.template.containers[0].ports
      && (forall c, m :: c in d.template.AllContainers() && m in c.volumeMounts ==>
            exists v :: v in d.template.volumes && v.name == m.name)
  {
    var d := WordpressDeployment(storeId, pw, url);
    assert d.template.volumes[0] in d.template.volumes;
    assert d.template.volumes[1] in d.template.volumes;
  }

  /** The init container runs the script from where the script config map is mounted. */
  lemma InitRunsMountedScript(storeId: string, pw: string, url: string, products: string)
    ensures var d, script := WordpressDeployment(storeId, pw, url), WpSetupScript(storeId, pw, url, products);
      var init := d.template.initContainers[0];
      && VolumeMount("setup-script", ScriptMountPath) in init.volumeMounts
      && Volume("setup-script", ConfigMapVolume(script.meta.name, 493)) in d.template.volumes
      && ScriptKey in script.data
      && init.command[2][|init.command[2]| - |ScriptMountPath + "/" + ScriptKey + " 2>&1 | grep -v \"already loaded\""|..]
         == ScriptMountPath + "/" + ScriptKey + " 2>&1 | grep -v \"already loaded\""
  {
  }

  /** Both WordPress containers reach the database at the mysql service's name and its port 3306. */
  lemma DbHostIsMysqlService(storeId: string, pw: string, url: string)
    ensures var d, svc := WordpressDeployment(storeId, pw, url), MysqlTemplates.MysqlService(storeId);
      && svc.ports[0].port == 3306
      && forall c :: c in d.template.AllContainers() ==>
           EnvVar("WORDPRESS_DB_HOST", Literal(svc.meta.name + ":3306")) in c.env
  {
    assert MysqlTemplates.ServiceName + ":3306" == DbHost;
  }
}
