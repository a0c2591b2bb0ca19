/**
 * The cluster resource provider. The control plane is abstract: a map from
 * namespace names to their labels, objects and pods, plus a failure oracle
 * `faults`, the set of requests the API server rejects for reasons the client
 * cannot see (authorisation, validation, outages). Conflicts (409), missing
 * namespaces (404) and namespace mismatches (400) follow from the state.
 * `K8sClient` is the client: each `create_*` treats "created" and "already
 * exists" alike as success.
 */
module Kube {
  import opened Wrappers
  import opened Resources

  // ---------------------------------------------------------------------------
  // Pods and readiness
  // ---------------------------------------------------------------------------

  datatype PodPhase = Pending | Running | Succeeded | Failed | Unknown

  datatype ContainerStatus = ContainerStatus(name: string, ready: bool)

  /** `containerStatuses` is `None` when the API reports no statuses at all. */
  datatype Pod = Pod(name: string, phase: PodPhase, containerStatuses: Option<seq<ContainerStatus>>)

  /** What `get_namespace_status` reports for a namespace. */
  datatype NamespaceStatus = Provisioning | Ready | Failed | Unknown

  function StatusName(s: NamespaceStatus): string {
    match s
    case Provisioning => "provisioning"
    case Ready => "ready"
    case Failed => "failed"
    case Unknown => "unknown"
  }

  /** A missing status list is read as an empty one. */
  function Statuses(p: Pod): seq<ContainerStatus> {
    p.containerStatuses.GetOr([])
  }

  predicate PodReady(p: Pod) {
    p.phase == PodPhase.Running && forall i :: 0 <= i < |Statuses(p)| ==> Statuses(p)[i].ready
  }

  /** The number of ready pods. */
  function ReadyCount(pods: seq<Pod>): (n: nat)
    ensures n <= |pods|
  {
    if pods == [] then 0 else (if PodReady(pods[0]) then 1 else 0) + ReadyCount(pods[1..])
  }

  /** Readiness of a namespace from its pod list: empty, all ready, any failed, otherwise still coming up. */
  function PodsStatus(pods: seq<Pod>): NamespaceStatus {
    var total := |pods|;
    var ready := ReadyCount(pods);
    if total == 0 then NamespaceStatus.Provisioning
    else if ready == total then NamespaceStatus.Ready
    else if exists i :: 0 <= i < |pods| && pods[i].phase == PodPhase.Failed then NamespaceStatus.Failed
    else NamespaceStatus.Provisioning
  }

  lemma {:induction false} ReadyCountAll(pods: seq<Pod>)
    ensures ReadyCount(pods) == |pods| <==> forall i :: 0 <= i < |pods| ==> PodReady(pods[i])
    decreases |pods|
  {
    if pods != [] {
      ReadyCountAll(pods[1..]);
      assert forall i :: 1 <= i < |pods| ==> pods[i] == pods[1..][i - 1];
    }
  }

  /** The four outcomes of the readiness rule, each stated on the pods themselves. */
  lemma PodsStatusCases(pods: seq<Pod>)
    ensures PodsStatus(pods) != NamespaceStatus.Unknown
    ensures PodsStatus(pods) == NamespaceStatus.Ready <==>
      |pods| > 0 && forall i :: 0 <= i < |pods| ==> PodReady(pods[i])
    ensures PodsStatus(pods) == NamespaceStatus.Failed <==>
      (exists i :: 0 <= i < |pods| && !PodReady(pods[i])) &&
      (exists i :: 0 <= i < |pods| && pods[i].phase == PodPhase.Failed)
    ensures PodsStatus(pods) == NamespaceStatus.Provisioning <==>
      |pods| == 0 ||
      ((exists i :: 0 <= i < |pods| && !PodReady(pods[i])) &&
       forall i :: 0 <= i < |pods| ==> pods[i].phase != PodPhase.Failed)
  {
    ReadyCountAll(pods);
  }

  /** A running pod that reports no container statuses counts as ready. */
  lemma RunningWithoutStatusesIsReady(name: string, statuses: Option<seq<ContainerStatus>>)
    requires statuses == None || statuses == Some([])
    ensures PodReady(Pod(name, PodPhase.Running, statuses))
    ensures PodsStatus([Pod(name, PodPhase.Running, statuses)]) == NamespaceStatus.Ready
  {
  }

  // ---------------------------------------------------------------------------
  // The abstract control plane
  // ---------------------------------------------------------------------------

  datatype Namespace = Namespace(labels: map<string, string>, objects: map<ObjectKey, Object>, pods: seq<Pod>)

  type Cluster = map<string, Namespace>

  /** A call to the API server, as the failure oracle identifies it. */
  datatype Request =
    | CreateNamespaceRequest(name: string)
    | CreateObjectRequest(namespace: string, key: ObjectKey)
    | DeleteNamespaceRequest(name: string)
    | ReadNamespaceRequest(name: string)
    | ListPodsRequest(namespace: string)
    | ListNamespacesRequest

  const Ok: int := 200
  const Created: int := 201
  const BadRequest: int := 400
  const NotFound: int := 404
  const Conflict: int := 409
  /** Stands for every rejection the oracle injects (403, 422, 500, ...). */
  const ServerError: int := 500

  /** The labels `create_namespace` puts on every namespace it creates, and the selector listing uses. */
  function StoreLabels(): map<string, string> {
    map["app" := "store", "managed-by" := "store-platform"]
  }

  predicate HasLabels(ns: Namespace, selector: map<string, string>) {
    forall k :: k in selector ==> k in ns.labels && ns.labels[k] == selector[k]
  }

  /** Objects are filed under their own key and in the namespace they name. */
  ghost predicate WellFormed(c: Cluster) {
    forall n, k :: n in c && k in c[n].objects ==>
      c[n].objects[k].Key() == k && c[n].objects[k].Metadata().namespace == n
  }

  function CreateNamespaceStatus(c: Cluster, faults: set<Request>, name: string): int {
    if CreateNamespaceRequest(name) in faults then ServerError
    else if name in c then Conflict
    else Created
  }

  function AfterCreateNamespace(c: Cluster, faults: set<Request>, name: string): Cluster {
    if CreateNamespaceStatus(c, faults, name) == Created then c[name := Namespace(StoreLabels(), map[], [])] else c
  }

  function CreateObjectStatus(c: Cluster, faults: set<Request>, namespace: string, obj: Object): int {
    if CreateObjectRequest(namespace, obj.Key()) in faults then ServerError
    else if obj.Metadata().namespace != namespace then BadRequest
    else if namespace !in c then NotFound
    else if obj.Key() in c[namespace].objects then Conflict
    else Created
  }

  function AfterCreateObject(c: Cluster, faults: set<Request>, namespace: string, obj: Object): Cluster
    requires CreateObjectStatus(c, faults, namespace, obj) == Created ==> namespace in c
  {
    if CreateObjectStatus(c, faults, namespace, obj) == Created then
      c[namespace := c[namespace].(objects := c[namespace].objects[obj.Key() := obj])]
    else c
  }

  function DeleteNamespaceStatus(c: Cluster, faults: set<Request>, name: string): int {
    if DeleteNamespaceRequest(name) in faults then ServerError
    else if name !in c then NotFound
    else Ok
  }

  /** Deleting a namespace takes every object and pod in it along. */
  function AfterDeleteNamespace(c: Cluster, faults: set<Request>, name: string): Cluster {
    if DeleteNamespaceStatus(c, faults, name) == Ok then c - {name} else c
  }

  function ReadNamespaceStatus(c: Cluster, faults: set<Request>, name: string): int {
    if ReadNamespaceRequest(name) in faults then ServerError
    else if name !in c then NotFound
    else Ok
  }

  /** The namespaces a label-selector list returns. */
  function Selected(c: Cluster, selector: map<string, string>): set<string> {
    set n | n in c && HasLabels(c[n], selector)
  }

  /** Pods listed in a namespace; the API lists none for a namespace that does not exist. */
  function PodsIn(c: Cluster, name: string): seq<Pod> {
    if name in c then c[name].pods else []
  }

  /** Both creation calls count "created" and "already exists" as success. */
  predicate Accepted(status: int) { status == Created || status == Conflict }

  // ---------------------------------------------------------------------------
  // Properties of the provider
  // ---------------------------------------------------------------------------

  /** Creating a namespace twice: the second call succeeds and changes nothing. */
  lemma CreateNamespaceIdempotent(c: Cluster, faults: set<Request>, name: string)
    requires Accepted(CreateNamespaceStatus(c, faults, name))
    ensures var c1 := AfterCreateNamespace(c, faults, name);
      Accepted(CreateNamespaceStatus(c1, faults, name)) && AfterCreateNamespace(c1, faults, name) == c1
  {
  }

  /** Creating an object twice: the second call succeeds and changes nothing. */
  lemma CreateObjectIdempotent(c: Cluster, faults: set<Request>, namespace: string, obj: Object)
    requires Accepted(CreateObjectStatus(c, faults, namespace, obj))
    ensures var c1 := AfterCreateObject(c, faults, namespace, obj);
      Accepted(CreateObjectStatus(c1, faults, namespace, obj)) && AfterCreateObject(c1, faults, namespace, obj) == c1
  {
  }

  /** A namespace the call creates carries the store labels, so the store listing finds it. */
  lemma CreatedNamespaceIsListed(c: Cluster, faults: set<Request>, name: string)
    requires name !in c && CreateNamespaceRequest(name) !in faults
    ensures name in Selected(AfterCreateNamespace(c, faults, name), StoreLabels())
    ensures Accepted(CreateNamespaceStatus(c, faults, name))
  {
  }

  /** An existing namespace is left as it is, labels included, by a repeated creation. */
  lemma ExistingNamespaceKeepsLabels(c: Cluster, faults: set<Request>, name: string)
    requires name in c
    ensures AfterCreateNamespace(c, faults, name) == c
    ensures Accepted(CreateNamespaceStatus(c, faults, name)) <==> CreateNamespaceRequest(name) !in faults
  {
  }

  /** A successful delete removes the namespace and whatever it held; other namespaces stay as they were. */
  lemma DeleteRemovesEverything(c: Cluster, faults: set<Request>, name: string)
    ensures var c1 := AfterDeleteNamespace(c, faults, name);
      && (DeleteNamespaceStatus(c, faults, name) == Ok <==> name in c && DeleteNamespaceRequest(name) !in faults)
      && (DeleteNamespaceStatus(c, faults, name) == Ok ==> name !in c1 && PodsIn(c1, name) == [])
      && (DeleteNamespaceStatus(c, faults, name) != Ok ==> c1 == c)
      && forall n :: n != name ==> (n in c1 <==> n in c) && (n in c ==> c1[n] == c[n])
  {
  }

  lemma CreateNamespaceKeepsWellFormed(c: Cluster, faults: set<Request>, name: string)
    requires WellFormed(c)
    ensures WellFormed(AfterCreateNamespace(c, faults, name))
  {
  }

  lemma CreateObjectKeepsWellFormed(c: Cluster, faults: set<Request>, namespace: string, obj: Object)
    requires WellFormed(c)
    ensures WellFormed(AfterCreateObject(c, faults, namespace, obj))
  {
  }

  lemma DeleteNamespaceKeepsWellFormed(c: Cluster, faults: set<Request>, name: string)
    requires WellFormed(c)
    ensures WellFormed(AfterDeleteNamespace(c, faults, name))
  {
  }

  // ---------------------------------------------------------------------------
  // The client
  // ---------------------------------------------------------------------------

  class K8sClient {
    /** The cluster's namespaces as the control plane stores them. */
    var namespaces: Cluster
    /** The failure oracle: the requests the API server rejects. */
    const faults: set<Request>

    ghost predicate Valid()
      reads this
    {
      WellFormed(namespaces)
    }

    /** Stands for loading the in-cluster or local configuration and connecting to `initial`. */
    constructor(initial: Cluster, faults: set<Request>)
      requires WellFormed(initial)
      ensures Valid() && namespaces == initial && this.faults == faults
    {
      namespaces := initial;
      this.faults := faults;
    }

    /** The API server's handling of a namespace creation. */
    method ServerCreateNamespace(name: string) returns (status: int)
      requires Valid()
      modifies this
      ensures Valid()
      ensures status == CreateNamespaceStatus(old(namespaces), faults, name)
      ensures namespaces == AfterCreateNamespace(old(namespaces), faults, name)
    {
      CreateNamespaceKeepsWellFormed(namespaces, faults, name);
      if CreateNamespaceRequest(name) in faults {
        status := ServerError;
      } else if name in namespaces {
        status := Conflict;
      } else {
        namespaces := namespaces[name := Namespace(StoreLabels(), map[], [])];
        status := Created;
      }
    }

    /** The API server's handling of a namespaced object creation. */
    method ServerCreateObject(namespace: string, obj: Object) returns (status: int)
      requires Valid()
      modifies this
      ensures Valid()
      ensures status == CreateObjectStatus(old(namespaces), faults, namespace, obj)
      ensures namespaces == AfterCreateObject(old(namespaces), faults, namespace, obj)
    {
      CreateObjectKeepsWellFormed(namespaces, faults, namespace, obj);
      if CreateObjectRequest(namespace, obj.Key()) in faults {
        status := ServerError;
      } else if obj.Metadata().namespace != namespace {
        status := BadRequest;
      } else if namespace !in namespaces {
        status := NotFound;
      } else if obj.Key() in namespaces[namespace].objects {
        status := Conflict;
      } else {
        var ns := namespaces[namespace];
        namespaces := namespaces[namespace := ns.(objects := ns.objects[obj.Key() := obj])];
        status := Created;
      }
    }

    /** Creates the namespace with the store labels; an existing one counts as success. */
    method CreateNamespace(name: string) returns (ok: bool)
      requires Valid()
      modifies this
      ensures Valid()
      ensures ok <==> Accepted(CreateNamespaceStatus(old(namespaces), faults, name))
      ensures ok <==> CreateNamespaceRequest(name) !in faults
      ensures namespaces == AfterCreateNamespace(old(namespaces), faults, name)
    {
      var status := ServerCreateNamespace(name);
      if status == Created {
        ok := true;
      } else {
        ok := status == Conflict;
      }
    }

    /** The shared body of every `create_*` call: success on 201 and on 409, failure on any other status. */
    method CreateObject(namespace: string, obj: Object) returns (ok: bool)
      requires Valid()
      modifies this
      ensures Valid()
      ensures ok <==> Accepted(CreateObjectStatus(old(namespaces), faults, namespace, obj))
      ensures ok <==> CreateObjectRequest(namespace, obj.Key()) !in faults &&
                      obj.Metadata().namespace == namespace && namespace in old(namespaces)
      ensures !ok ==> namespaces == old(namespaces)
      ensures namespaces == AfterCreateObject(old(namespaces), faults, namespace, obj)
    {
      var status := ServerCreateObject(namespace, obj);
      if status == Created {
        ok := true;
      } else {
        ok := status == Conflict;
      }
    }

    method CreateSecret(namespace: string, spec: Secret) returns (ok: bool)
      requires Valid()
      modifies this
      ensures Valid()
      ensures ok <==> Accepted(CreateObjectStatus(old(namespaces), faults, namespace, SecretObject(spec)))
      ensures namespaces == AfterCreateObject(old(namespaces), faults, namespace, SecretObject(spec))
    {
      ok := CreateObject(namespace, SecretObject(spec));
    }

    method CreateStatefulSet(namespace: string, spec: StatefulSet) returns (ok: bool)
      requires Valid()
      modifies this
      ensures Valid()
      ensures ok <==> Accepted(CreateObjectStatus(old(namespaces), faults, namespace, StatefulSetObject(spec)))
      ensures namespaces == AfterCreateObject(old(namespaces), faults, namespace, StatefulSetObject(spec))
    {
      ok := CreateObject(namespace, StatefulSetObject(spec));
    }

    method CreateDeployment(namespace: string, spec: Deployment) returns (ok: bool)
      requires Valid()
      modifies this
      ensures Valid()
      ensures ok <==> Accepted(CreateObjectStatus(old(namespaces), faults, namespace, DeploymentObject(spec)))
      ensures namespaces == AfterCreateObject(old(namespaces), faults, namespace, DeploymentObject(spec))
    {
      ok := CreateObject(namespace, DeploymentObject(spec));
    }

    method CreateService(namespace: string, spec: Service) returns (ok: bool)
      requires Valid()
      modifies this
      ensures Valid()
      ensures ok <==> Accepted(CreateObjectStatus(old(namespaces), faults, namespace, ServiceObject(spec)))
      ensures namespaces == AfterCreateObject(old(namespaces), faults, namespace, ServiceObject(spec))
    {
      ok := CreateObject(namespace, ServiceObject(spec));
    }

    method CreateIngress(namespace: string, spec: Ingress) returns (ok: bool)
      requires Valid()
      modifies this
      ensures Valid()
      ensures ok <==> Accepted(CreateObjectStatus(old(namespaces), faults, namespace, IngressObject(spec)))
      ensures namespaces == AfterCreateObject(old(namespaces), faults, namespace, IngressObject(spec))
    {
      ok := CreateObject(namespace, IngressObject(spec));
    }

    method CreateConfigMap(namespace: string, spec: ConfigMap) returns (ok: bool)
      requires Valid()
      modifies this
      ensures Valid()
      ensures ok <==> Accepted(CreateObjectStatus(old(namespaces), faults, namespace, ConfigMapObject(spec)))
      ensures namespaces == AfterCreateObject(old(namespaces), faults, namespace, ConfigMapObject(spec))
    {
      ok := CreateObject(namespace, ConfigMapObject(spec));
    }

    method CreatePvc(namespace: string, spec: PersistentVolumeClaim) returns (ok: bool)
      requires Valid()
      modifies this
      ensures Valid()
      ensures ok <==> Accepted(CreateObjectStatus(old(namespaces), faults, namespace, PvcObject(spec)))
      ensures namespaces == AfterCreateObject(old(namespaces), faults, namespace, PvcObject(spec))
    {
      ok := CreateObject(namespace, PvcObject(spec));
    }

    /** Deletes the namespace and everything in it; any API error is reported as `false` with nothing changed. */
    method DeleteNamespace(name: string) returns (ok: bool)
      requires Valid()
      modifies this
      ensures Valid()
      ensures ok <==> DeleteNamespaceStatus(old(namespaces), faults, name) == Ok
      ensures ok <==> name in old(namespaces) && DeleteNamespaceRequest(name) !in faults
      ensures ok ==> name !in namespaces
      ensures !ok ==> namespaces == old(namespaces)
      ensures namespaces == AfterDeleteNamespace(old(namespaces), faults, name)
    {
      DeleteNamespaceKeepsWellFormed(namespaces, faults, name);
      if DeleteNamespaceRequest(name) in faults || name !in namespaces {
        ok := false;
      } else {
        namespaces := namespaces - {name};
        ok := true;
      }
    }

    /** True exactly when reading the namespace succeeds. */
    function NamespaceExists(name: string): (present: bool)
      reads this
      ensures present <==> ReadNamespaceStatus(namespaces, faults, name) == Ok
      ensures present <==> name in namespaces && ReadNamespaceRequest(name) !in faults
    {
      ReadNamespaceStatus(namespaces, faults, name) == Ok
    }

    /** Readiness of the namespace's pods, or `unknown` when the pod listing fails. */
    function GetNamespaceStatus(name: string): (s: NamespaceStatus)
      reads this
      ensures ListPodsRequest(name) in faults <==> s == NamespaceStatus.Unknown
      ensures ListPodsRequest(name) !in faults ==> s == PodsStatus(PodsIn(namespaces, name))
    {
      PodsStatusCases(PodsIn(namespaces, name));
      if ListPodsRequest(name) in faults then NamespaceStatus.Unknown else PodsStatus(PodsIn(namespaces, name))
    }

    /** The namespaces carrying both store labels. */
    function StoreNamespaceNames(): set<string>
      reads this
    {
      Selected(namespaces, StoreLabels())
    }

    /**
     * Names of the namespaces carrying both store labels, each once, in the order
     * the API server returns them; `[]` when the listing fails.
     */
    method ListStoreNamespaces() returns (names: seq<string>)
      ensures ListNamespacesRequest in faults ==> names == []
      ensures ListNamespacesRequest !in faults ==>
        forall n :: n in names <==> n in namespaces && HasLabels(namespaces[n], StoreLabels())
      ensures forall i, j :: 0 <= i < j < |names| ==> names[i] != names[j]
    {
      names := [];
      if ListNamespacesRequest in faults {
        return;
      }
      var remaining := StoreNamespaceNames();
      while remaining != {}
        invariant remaining <= StoreNamespaceNames()
        invariant forall n :: n in names ==> n !in remaining
        invariant forall n :: n in StoreNamespaceNames() <==> n in names || n in remaining
        invariant forall i, j :: 0 <= i < j < |names| ==> names[i] != names[j]
        decreases remaining
      {
        var n :| n in remaining;
        names := names + [n];
        remaining := remaining - {n};
      }
    }
  }
}
