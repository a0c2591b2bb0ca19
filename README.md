# k8s-store-factory in Dafny

This project models the backend of k8s-store-factory. The backend runs one WooCommerce store per
Kubernetes namespace. Creating a store does the following:

- It draws an 8-hex-digit store id and names the namespace `store-<id>`.
- It submits ten things in a fixed order: the namespace, then the MySQL secret, service and
  stateful set, the WordPress settings config map, the WordPress volume claim, the setup-script
  config map, the WordPress deployment, the WordPress service and the ingress.
- It stops at the first submission the cluster refuses and reports that step's error message.
  Nothing already created is rolled back.
- On success it reports the store's addresses and credentials.

Listing the stores reads every namespace that carries the platform's two labels and works out
each store's readiness from its pods. Deleting a store deletes its namespace. A small SQLAlchemy
layer keeps users, quotas and store rows. The React form in front of the backend turns an
editable product table into the `name|price|description` lines the setup script reads.

The files are:

- `wrappers.dfy`: `Option`.
- `text.dfy`: Python's `str.replace(p, "")`, `str(n)`, `join`/`split` and `token_hex` rendering.
  Decimal, join and hex rendering each come with a parser that inverts them. The removal has no
  inverse; what is proved about it is when it strips a leading pattern and when it changes nothing.
- `resources.dfy`: the Kubernetes objects the templates build, as datatypes.
- `mysql.dfy`, `wordpress.dfy`, `ingress.dfy`: the three template modules, one function per
  template and lemmas about what each object contains.
- `catalog.dfy`: the nine objects of one store taken together. Every name one object refers to
  (a secret key, a config map, a claim, a service, a pod selector and its target port) is
  produced by another object of the same store.
- `kube.dfy`: `K8sClient`. The control plane is a map from namespace name to namespace contents.
  A fixed set of requests the server refuses stands for every failure the real API can give. A
  conflict (409) and a missing name (404) follow from the state. Each API method is tied to a
  pure `Status`/`After` function of the old state.
- `provisioning.dfy`: `StoreManager`. The create sequence is specified by a pure fold `RunSteps`
  over a ten-step plan and implemented by an imperative method that makes the ten client calls.
  The file also holds the fail-fast, no-rollback and isolation lemmas, the listing and the
  deletion.
- `models.dfy`, `database.dfy`: the two tables, their `to_dict` views with inverses, the usage
  query as a sum over the store table, seeding, insertion and deletion with cascade.
- `product_form.dfy`: the product-table state of `App.jsx` and its serialiser with a parser
  that inverts it. It contains both the form as written (mutable row objects shared with the
  defaults) and the form as intended (rows as values).

## Model

| member | source | states |
|---|---|---|
| Text.RemoveAll | backend/store_manager.py:102 | `replace("store-", "")` never lengthens the name |
| Text.RemoveAllLeading | backend/store_manager.py:102 | a leading occurrence of the pattern is dropped and the rest is scanned as if it stood alone |
| Text.RemoveAllWithoutLead | backend/store_manager.py:102 | a string with no occurrence of the pattern's first character comes back unchanged |
| Text.IntToString | backend/templates/wordpress.py:41 | `str(n)`: non-empty, with a leading minus exactly for negative numbers; IntToStringRoundTrip proves it reads back |
| Text.IntToStringRoundTrip | backend/templates/wordpress.py:41 | the decimal text of any integer, negatives included, reads back as that integer |
| Text.NatToStringRoundTrip | backend/templates/wordpress.py:41 | the digits of a natural number read back as that number |
| Text.SplitJoin | backend/store_manager.py:25-26 | splitting the joined text on the separator gives back the parts, when no part holds the separator |
| Text.HexRoundTrip | backend/store_manager.py:12-14 | the hex text of a byte string decodes back to those bytes |
| Resources.StoreNamespace | backend/store_manager.py:19 | the namespace is `store-` followed by exactly the store id |
| MysqlTemplates.MysqlSecret | backend/templates/mysql.py:3-17 | the `mysql-secret` manifest; its contents are stated by SecretContents and its namespace by MysqlNamespaces |
| MysqlTemplates.MysqlService | backend/templates/mysql.py:19-42 | the headless `mysql` service; stated by ServiceSelectsStatefulSet and MysqlNamespaces |
| MysqlTemplates.MysqlStatefulSet | backend/templates/mysql.py:44-140 | the one-replica MySQL stateful set; stated by ServiceSelectsStatefulSet, StatefulSetSecretRefsResolve and StorageClaimFixed |
| MysqlTemplates.MysqlNamespaces | backend/templates/mysql.py:3-140 | the secret, service and stateful set are all placed in `store-<id>` |
| MysqlTemplates.SecretContents | backend/templates/mysql.py:3-17 | the secret holds exactly four keys: the caller's password as `mysql-password`, and fixed root password, database and user |
| MysqlTemplates.StatefulSetSecretRefsResolve | backend/templates/mysql.py:76-113 | every secret reference of the stateful set names `mysql-secret` and a key it holds |
| MysqlTemplates.ServiceSelectsStatefulSet | backend/templates/mysql.py:19-75 | the service is headless and maps 3306 to 3306; service selector, pod labels and stateful-set selector are all `{app: mysql}`; one replica; governed by the service; the container exposes 3306 |
| MysqlTemplates.StorageClaimFixed | backend/templates/mysql.py:114-138 | one `ReadWriteOnce` 2Gi claim template, and every mount names it |
| WordpressTemplates.WordpressConfig | backend/templates/wordpress.py:3-28 | the `wordpress-config` map; stated by ConfigContents |
| WordpressTemplates.WordpressPvc | backend/templates/wordpress.py:30-45 | the `wordpress-pvc` claim; stated by PvcRequestsSize |
| WordpressTemplates.WpSetupScript | backend/templates/wordpress.py:47-157 | the `wp-setup-script` map; stated by SetupScriptIgnoresInputs and InitRunsMountedScript |
| WordpressTemplates.WordpressDeployment | backend/templates/wordpress.py:159-325 | the WordPress deployment; stated by DeploymentIgnoresCredentials, DeploymentAndServiceAgree, InitRunsMountedScript and DbHostIsMysqlService |
| WordpressTemplates.WordpressService | backend/templates/wordpress.py:327-351 | the `wordpress` ClusterIP service; stated by DeploymentAndServiceAgree |
| WordpressTemplates.WordpressNamespaces | backend/templates/wordpress.py:3-351 | all five WordPress objects are placed in `store-<id>` |
| WordpressTemplates.ConfigContents | backend/templates/wordpress.py:3-28 | password, site url (`http://` + url) and product payload are exactly the arguments, the admin user is `admin`, and every other key is the same whatever the inputs |
| WordpressTemplates.PvcRequestsSize | backend/templates/wordpress.py:30-45 | the claim is `wordpress-pvc`, its size is `<n>Gi` whose number reads back as the requested size, and the default is 2 |
| WordpressTemplates.SetupScriptIgnoresInputs | backend/templates/wordpress.py:47-157 | the script config map does not depend on password, url or products; it holds one key, `wp-setup.sh` |
| WordpressTemplates.DeploymentIgnoresCredentials | backend/templates/wordpress.py:159-325 | the deployment depends on the store id alone (password and url reach the pods only through the secret and the config maps) |
| WordpressTemplates.DeploymentAndServiceAgree | backend/templates/wordpress.py:165-180 | deployment selector, pod labels and service selector are `{app: wordpress}`; one replica; ClusterIP service 80 to the container's port 80; every mount names a pod volume |
| WordpressTemplates.InitRunsMountedScript | backend/templates/wordpress.py:183-247 | the init container mounts the script config map and its command runs the script from that mount path |
| WordpressTemplates.DbHostIsMysqlService | backend/templates/wordpress.py:205-208 | both containers reach the database at the mysql service's name on its port 3306 |
| IngressTemplate.StoreIngress | backend/templates/ingress.py:3-37 | the `store-ingress` manifest; stated by IngressShape |
| IngressTemplate.IngressShape | backend/templates/ingress.py:3-37 | one rule for exactly the store's hostname, path `/` prefix to service `wordpress` port 80, class `nginx`, body limit 50m, in the store's namespace |
| Catalog.CatalogIsClosed | backend/store_manager.py:31-81 | every secret key, config map, claim, service and pod selector with its target port that an object names is produced by another object of the same store |
| Catalog.ClosedFrom | backend/store_manager.py:31-81 | a store's objects are closed once its five referring objects resolve; secrets, config maps and claims refer to nothing |
| Catalog.CatalogSelfConsistent | backend/store_manager.py:31-81 | each workload selects its own pods and mounts only volumes or claim templates it declares |
| Catalog.CatalogNamespaces | backend/store_manager.py:31-81 | every object names the store's namespace, the one it is submitted to |
| Catalog.CatalogKeysDistinct | backend/store_manager.py:31-81 | no two of the store's objects share a kind and a name |
| Catalog.SamePasswordInSecretAndConfig | backend/store_manager.py:24 | the database user's password in the secret (`mysql-password`) and the WordPress admin login password in the settings (`WP_ADMIN_PASSWORD`) are the same generated password |
| Kube.PodsStatus | backend/k8s_client.py:61-80 | the readiness rule over a pod list; its four outcomes are stated by PodsStatusCases |
| Kube.ReadyCountAll | backend/k8s_client.py:67-69 | the ready count equals the pod count exactly when every pod is running with every container ready |
| Kube.PodsStatusCases | backend/k8s_client.py:61-80 | `ready` iff there are pods and all are ready; `failed` iff some pod is not ready and some pod failed; `provisioning` iff there are no pods, or some pod is not ready and none failed; never `unknown` |
| Kube.RunningWithoutStatusesIsReady | backend/k8s_client.py:67-69 | a running pod that reports no container statuses counts as ready |
| Kube.CreateNamespaceIdempotent | backend/k8s_client.py:21-41 | after an accepted creation, a second one is accepted (409 counts as success) and changes nothing |
| Kube.CreateObjectIdempotent | backend/k8s_client.py:82-171 | the same for every namespaced object |
| Kube.CreatedNamespaceIsListed | backend/k8s_client.py:23-31 | a namespace the call creates carries the labels the listing selects on |
| Kube.ExistingNamespaceKeepsLabels | backend/k8s_client.py:37-39 | creating an existing namespace is a 409: accepted, and the existing namespace is left as it is |
| Kube.DeleteRemovesEverything | backend/k8s_client.py:43-51 | deletion succeeds iff the namespace exists and is not refused; it then removes the namespace with its objects and pods; otherwise nothing changes; other namespaces are untouched |
| Kube.CreateNamespaceKeepsWellFormed | backend/k8s_client.py:21-41 | namespace creation keeps every object filed under its own key in its own namespace |
| Kube.CreateObjectKeepsWellFormed | backend/k8s_client.py:82-171 | object creation keeps the cluster well-formed |
| Kube.DeleteNamespaceKeepsWellFormed | backend/k8s_client.py:43-51 | deletion keeps the cluster well-formed |
| Kube.K8sClient.constructor | backend/k8s_client.py:6-19 | the client starts on the given cluster and refusal set |
| Kube.K8sClient.CreateNamespace | backend/k8s_client.py:21-41 | returns true iff the server created or already had the namespace, that is iff the request is not refused; the new state is the pure creation step |
| Kube.K8sClient.CreateObject | backend/k8s_client.py:82-171 | returns true iff the object was created or already existed; a false return leaves the cluster unchanged |
| Kube.K8sClient.CreateSecret | backend/k8s_client.py:82-93 | true iff created or already present (409); state is the creation step |
| Kube.K8sClient.CreateStatefulSet | backend/k8s_client.py:95-106 | as for secrets, for a stateful set |
| Kube.K8sClient.CreateDeployment | backend/k8s_client.py:108-119 | as for secrets, for a deployment |
| Kube.K8sClient.CreateService | backend/k8s_client.py:121-132 | as for secrets, for a service |
| Kube.K8sClient.CreateIngress | backend/k8s_client.py:134-145 | as for secrets, for an ingress |
| Kube.K8sClient.CreateConfigMap | backend/k8s_client.py:147-158 | as for secrets, for a config map |
| Kube.K8sClient.CreatePvc | backend/k8s_client.py:160-171 | as for secrets, for a volume claim |
| Kube.K8sClient.DeleteNamespace | backend/k8s_client.py:43-51 | true iff the namespace existed and the request was not refused; then it is gone; on false nothing changed |
| Kube.K8sClient.NamespaceExists | backend/k8s_client.py:53-59 | true iff the namespace is present and reading it is not refused |
| Kube.K8sClient.GetNamespaceStatus | backend/k8s_client.py:61-80 | `unknown` exactly when the pod listing fails, otherwise the readiness rule over the namespace's pods |
| Kube.K8sClient.ListStoreNamespaces | backend/k8s_client.py:173-181 | `[]` when the listing fails; otherwise exactly the namespaces carrying both store labels, each once |
| Provisioning.GenerateStoreId | backend/store_manager.py:12-14 | the id is 8 lower-case hex digits that decode back to the 4 random bytes |
| Provisioning.StoreUrl | backend/store_manager.py:20-23 | `store-<id>.<suffix>` for a non-empty suffix, `store-<id>.local` otherwise |
| Provisioning.RunSteps | backend/store_manager.py:31-81 | the submissions in order, stopping at the first refusal; stated by FailedAtInRange, FailureIsFinal, FailFast, NoRollback and OtherNamespacesUntouched |
| Provisioning.CreateOutcome | backend/store_manager.py:31-94 | the refused step's error, or the success record; stated by FailureNamesRefusedStep and SuccessReportsCredentials |
| Provisioning.PlanSubmitsObjects | backend/store_manager.py:31-81 | the plan creates the namespace first and then the nine objects in the order the source submits them |
| Provisioning.FailedAtInRange | backend/store_manager.py:31-81 | a failed run names one of the plan's steps |
| Provisioning.FailureIsFinal | backend/store_manager.py:31-81 | once a prefix of the plan fails, the rest of the plan changes nothing |
| Provisioning.FailFast | backend/store_manager.py:31-81 | a failure at step k means steps before k were all accepted, step k was refused, and the cluster is as steps before k left it |
| Provisioning.NoRollback | backend/store_manager.py:31-81 | a run, failed or not, removes or alters nothing already in the cluster, and every completed step's namespace or object is present afterwards |
| Provisioning.ExecuteIsRunSteps | backend/store_manager.py:31-81 | executing the plan step by step from the front gives the same run as the fold |
| Provisioning.OtherNamespacesUntouched | backend/store_manager.py:31-81 | a plan whose steps all target one namespace leaves every other namespace exactly as it was |
| Provisioning.PlanTargetsStoreNamespace | backend/store_manager.py:19-81 | every step of a store's plan targets `store-<id>`, and every object names that namespace |
| Provisioning.CreatedStoreIsComplete | backend/store_manager.py:31-81 | nothing already in the cluster is lost, and a successful run leaves every one of the store's nine objects in its namespace; when that namespace is new, it then holds each object exactly as the templates built it, and nothing else |
| Provisioning.FreshPlanFiled | backend/store_manager.py:31-81 | a successful run that creates a new namespace and then submits objects with distinct keys into it leaves there exactly those objects, each as submitted |
| Provisioning.CreateTouchesOnlyItsNamespace | backend/store_manager.py:31-81 | creating a store, successfully or not, leaves every other namespace exactly as it was |
| Provisioning.StepErrorsDistinct | backend/store_manager.py:31-81 | the ten error messages are pairwise different, so a message identifies its step |
| Provisioning.FailureNamesRefusedStep | backend/store_manager.py:31-81 | a failed creation returns the error message of the refused step, and every earlier step was accepted |
| Provisioning.SuccessReportsCredentials | backend/store_manager.py:85-94 | success reports id, namespace, `http://` url, `/wp-admin` url, user `admin`, status `provisioning`, the given time, and as password the one in the secret and in the settings |
| Provisioning.PlanUsesDefaultClaimAndProducts | backend/store_manager.py:25-26 | the plan claims the default 2Gi for WordPress and passes the given products, or the two built-in samples when none are given |
| Provisioning.SummaryRecoversStoreId | backend/store_manager.py:96-112 | for a hex id, the listing record of `store-<id>` gives back the id, the namespace and the `http://store-<id>.local` url, which is what creation reports for a store made without a domain suffix |
| Provisioning.ListedUrlIgnoresSuffix | backend/store_manager.py:20-21 | the listing always reports the `.local` url, so for a store created with a suffix other than `local` the listed url differs from the one creation reported |
| Provisioning.Summarize | backend/store_manager.py:101-110 | the listing record of one namespace; stated by SummaryRecoversStoreId and ListedUrlIgnoresSuffix |
| Provisioning.PlanPipeline | backend/store_manager.py:31-81 | the step-by-step pipeline the method follows is the plan |
| Provisioning.StoreManager.constructor | backend/store_manager.py:9-10 | the manager uses the given client |
| Provisioning.StoreManager.Perform | backend/store_manager.py:31-81 | one submission through the client call for its kind, with the result and new state of the pure step |
| Provisioning.StoreManager.Provision | backend/store_manager.py:31-81 | the ten calls, stopping at the first refusal: the final cluster and failed step are those of the pure execution |
| Provisioning.StoreManager.CreateStore | backend/store_manager.py:16-94 | the cluster ends as the fold of the store's plan leaves it, and the result is the success record or the refused step's error |
| Provisioning.StoreManager.ListStores | backend/store_manager.py:96-112 | `[]` when listing fails; otherwise one record per labelled namespace, none twice, each with the status its pods give |
| Provisioning.StoreManager.DeleteStore | backend/store_manager.py:114-127 | `Store not found` with nothing changed when the namespace cannot be read; otherwise the namespace is deleted, with success iff the deletion is not refused |
| Models.StatusFromName | backend/models.py:43 | a status read from text has that text as its name |
| Models.StatusNameRoundTrip | backend/models.py:43 | each status is stored under its own name, and no two statuses share one |
| Models.NewUser | backend/models.py:12-18 | a new user has quotas of 3 stores and 10 Gi unless given |
| Models.NewStore | backend/models.py:37-44 | a new store has 2 Gi unless given, status `initialized` and the insertion time |
| Models.UserToDict | backend/models.py:29-35 | the view has exactly the four keys id, username, max_stores, max_storage_gi |
| Models.UserDictRoundTrip | backend/models.py:29-35 | the view keeps everything about a user except the password hash |
| Models.UserDictHidesPassword | backend/models.py:29-35 | users differing only in password hash have the same view |
| Models.StoreToDict | backend/models.py:49-57 | the view has the six columns, with `created_at` as text or null |
| Models.StoreDictRoundTrip | backend/models.py:49-57 | the view of a store reads back as that store, also with an extra key added |
| Database.UsageOf | backend/database.py:26-35 | the store count and storage sum over a user's rows, 0 for none; stated by UsageCountsOwnedRows, SumNone, RegisterUsage, DeregisterUsage, UsageIgnoresStatus and CascadeUsage |
| Database.Db.GetUserUsage | backend/database.py:26-35 | `get_user_usage` on the current store table, that is UsageOf; stated by the lemmas about UsageOf |
| Database.UsageCountsOwnedRows | backend/database.py:26-35 | the usage count is the number of the user's store rows |
| Database.SumNone | backend/database.py:26-35 | a user with no rows has usage 0 stores and 0 Gi |
| Database.RegisterUsage | backend/database.py:37-45 | inserting a row adds one store and its size to its owner's usage and changes no one else's |
| Database.DeregisterUsage | backend/database.py:47-51 | deleting a row takes one store and its size off its owner's usage and changes no one else's |
| Database.UsageIgnoresStatus | backend/database.py:26-35 | changing a row's status does not change anyone's usage |
| Database.CascadeUsage | backend/models.py:21 | deleting a user removes all of that user's stores (usage 0) and changes no other user's usage |
| Database.Seeded | backend/database.py:4-18 | the users table after seeding; stated by SeedOnce |
| Database.SeedOnce | backend/database.py:4-18 | seeding is done once: afterwards the table is non-empty and seeding again changes nothing; from empty it holds `admin` (10, 50) and `demo_user` (2, 5), with distinct usernames |
| Database.StoreEntry | backend/database.py:57-65 | a row's entry is its view plus the owner's username, present exactly when the owner exists |
| Database.Db.constructor | backend/database.py:4-6 | the tables start empty |
| Database.Db.InitDb | backend/database.py:4-18 | the users table becomes the seeded table and the stores table is unchanged |
| Database.Db.GetUser | backend/database.py:20-24 | a view exactly when the user exists, and the view reads back as that user |
| Database.Db.RegisterStore | backend/database.py:37-45 | inserts the new row (name `""` unless given) iff the id is free; a duplicate changes nothing; users are unchanged |
| Database.Db.DeregisterStore | backend/database.py:47-51 | removes the row with that id, or nothing when there is none |
| Database.Db.DeleteUser | backend/models.py:21 | removes the user and, by cascade, exactly the rows the user owns |
| Database.Db.GetAllStoresWithUsers | backend/database.py:57-65 | one entry per store id, each the row's view with its owner's username |
| ProductForm.KeptRowsMembers | frontend/src/App.jsx:128-131 | the rows sent are exactly the rows with a name and a price |
| ProductForm.KeptRowsAppend | frontend/src/App.jsx:128-131 | filtering a concatenation filters each part |
| ProductForm.Lines | frontend/src/App.jsx:128-131 | one `name|price|description` line per row, in order |
| ProductForm.RowRoundTrip | frontend/src/App.jsx:128-131 | a row with no `|` or newline in its fields formats to one line that parses back to the row |
| ProductForm.LinesRoundTrip | frontend/src/App.jsx:128-131 | the formatted lines of clean rows parse back to the rows |
| ProductForm.FormatProductsRoundTrip | frontend/src/App.jsx:128-131 | the serialised text of clean rows parses back to exactly the rows kept (named and priced) |
| ProductForm.JoinNonEmpty | frontend/src/App.jsx:128-131 | joining parts whose first part is non-empty gives non-empty text |
| ProductForm.AppendEmptyRow | frontend/src/App.jsx:114-116 | one empty row added at the end, the others unchanged |
| ProductForm.RemoveAt | frontend/src/App.jsx:118-120 | the row at the index is removed; an index out of range changes nothing |
| ProductForm.AddRowKeepsFormat | frontend/src/App.jsx:114-131 | adding an empty row does not change what is sent, and removing it restores the table |
| ProductForm.DisplayedTotalMatchesTemplate | frontend/src/App.jsx:308 | the 2 Gi the form adds to its total is the MySQL template's claim size |
| ProductForm.Values | frontend/src/App.jsx:27 | the row values are those of the row objects, in order |
| ProductForm.Row.constructor | frontend/src/App.jsx:7-11 | a row object holds the given values |
| ProductForm.RowForm.constructor | frontend/src/App.jsx:26-27 | the form starts with the default row objects, storage 2 and closed |
| ProductForm.RowForm.OpenModal | frontend/src/App.jsx:91-96 | reopening puts back the shared default row objects, whatever their values now are |
| ProductForm.RowForm.HandleProductChange | frontend/src/App.jsx:108-112 | the edit is written into the shared row object: the same objects, one field of one row changed |
| ProductForm.RowForm.AddProductRow | frontend/src/App.jsx:114-116 | the existing row objects are kept in order and one new row object with empty fields is added at the end; storage size and modal state are unchanged |
| ProductForm.RowForm.RemoveProductRow | frontend/src/App.jsx:118-120 | the row object at the index is dropped (none when out of range); storage size and modal state are unchanged |
| ProductForm.ReopenAfterEditAsWritten | frontend/src/App.jsx:91-112 | open, rename the first product, reopen: the renamed row is shown, not the default |
| ProductForm.Form.constructor | frontend/src/App.jsx:26-27 | the form starts with the default rows, storage 2 and closed |
| ProductForm.Form.OpenModal | frontend/src/App.jsx:91-96 | reopening shows the default rows and storage size |
| ProductForm.Form.HandleProductChange | frontend/src/App.jsx:108-112 | one field of one row is replaced, and nothing else changes |
| ProductForm.Form.AddProductRow | frontend/src/App.jsx:114-116 | one empty row is appended, and nothing else changes |
| ProductForm.Form.RemoveProductRow | frontend/src/App.jsx:118-120 | the row at the index is removed (none when out of range), and nothing else changes |
| ProductForm.Form.DisplayedTotalGi | frontend/src/App.jsx:308 | the displayed total is the chosen size plus the database's claim |
| ProductForm.ReopenAfterEdit | frontend/src/App.jsx:91-112 | the same steps on the intended form show the default row again |

## Left out

- The Kubernetes client library, kubeconfig loading and the API server itself (backend/k8s_client.py:6-19). The server is the namespace map and the set of refused requests. Every error status other than 409 is one refusal, and admission, quotas and scheduling are not modelled.
- Kube.K8sClient.CreateNamespace, Kube.K8sClient.CreateObject, Kube.K8sClient.DeleteNamespace, Kube.K8sClient.NamespaceExists, Kube.K8sClient.GetNamespaceStatus and Kube.K8sClient.ListStoreNamespaces: only API errors are modelled, as a `false`, `unknown` or `[]` answer. The source catches only `ApiException`. A transport failure such as a refused connection escapes `create_store`, `list_stores` and `delete_store` as an exception, so no step error is returned. The model does not capture those escaping errors.
- Kube.K8sClient: the set of refused requests is fixed for the client's whole life, so a request accepted once is accepted again. The "second call is accepted" half of Kube.CreateNamespaceIdempotent and Kube.CreateObjectIdempotent follows from this abstraction, not from the API server.
- Kube.K8sClient.DeleteNamespace: the namespace disappears at once. A real delete starts the Terminating phase. During it, the namespace is still listed and readable, its pods are still listed, and creations in it are refused. Provisioning.StoreManager.DeleteStore inherits this.
- Pods are an input of the cluster state. No controller turns a deployment into pods, so readiness over time is not modelled.
- Console output (`print`), which has no effect on results.
- `secrets.token_hex(4)` and `secrets.token_urlsafe(16)`: their random bytes and password are parameters of `CreateStore`, as is the `time.time()` value.
- The 30-second `time.sleep` between the stateful set and the WordPress config map: it only delays.
- The bash and PHP body of the setup script (backend/templates/wordpress.py:49-148) is one placeholder constant. Only the script's key, mount and invocation are modelled.
- The templates are all built before the first submission, whereas the source builds each just before submitting it. They are pure, so nothing observable differs.
- Provisioning.StoreManager.CreateStore: as in the source, an object that already exists (409) counts as created and is left as it was. The model does not check whether the existing object matches the one submitted.
- Kube.K8sClient.ListStoreNamespaces: the API server's order of the namespaces is not specified. The method returns them in an arbitrary order, so ListStores promises contents and uniqueness but no order.
- Provisioning.StoreManager.ListStores: as in the source, every record carries the `http://store-<id>.local` url. The listing cannot recover a domain suffix given at creation, so for such stores its url differs from the one creation reported (Provisioning.ListedUrlIgnoresSuffix).
- Quotas, status transitions, ownership checks and deleted-marking described for the platform: the modelled code does not enforce them.
- `app.py` passes an admin password that `create_store` does not accept. `app.py` is not part of this model, and `create_store` is modelled as written.
- bcrypt hashing (`set_password`, `check_password`): hashes are opaque string parameters.
- `get_all_users` (backend/database.py:53-55): a plain listing of `to_dict` views, already covered by `UserToDict`.
- `db.create_all`, sessions and transactions: a commit either applies fully or not at all.
- Database.Db.RegisterStore: SQLite does not enforce the store's foreign key by default, so the method does not check the owner. It only promises that owners stay present when the owner exists.
- Database.Db.RegisterStore: the duplicate-id `IntegrityError` is a `false` return with nothing changed, not an exception.
- Database.Db.InitDb: the seeded rows get ids 1 and 2, the ids SQLite's autoincrement gives an empty table.
- `created_at` timestamps are the text `isoformat` gives, passed in as parameters.
- Models.StoreStatus: the status column is free text in the source. It is modelled with the five documented values, and other text does not read back as a status.
- The form's `parseInt` of the storage field (frontend/src/App.jsx:304) can give NaN. The storage size is kept as an integer.
- `generatePassword` in App.jsx, which uses `Math.random`.
- The rest of the UI, `Login.jsx` and `api.js`: rendering and HTTP calls with no logic of their own.
- `user_seeding.py`: a separate administrative script, not part of this model.
- ProductForm.RowForm.HandleProductChange: an index outside the table throws in the source. Here it is excluded by the precondition.

## Findings

| source | as written | input that shows it | evidently intended | confidence | as-written member | corrected member |
|---|---|---|---|---|---|---|
| frontend/src/App.jsx:108-112 | `handleProductChange` copies the array but not the row objects, then assigns into the row in place. While the table still holds the `DEFAULT_PRODUCTS` objects, the edit changes the defaults themselves, so `openModal` (91-96) afterwards shows the edited row | open the form, rename "Classic T-Shirt" to "My Shirt", close, open again: "My Shirt" is shown | reopening the form shows the default products | not executed | ProductForm.ReopenAfterEditAsWritten | ProductForm.ReopenAfterEdit |
