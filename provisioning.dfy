/**
 * The store orchestrator. `create_store` derives a namespace and a hostname from
 * a fresh id and submits ten creation calls in a fixed order, stopping at the
 * first that fails and undoing nothing; `list_stores` turns the labelled
 * namespaces into store records; `delete_store` deletes a namespace that exists.
 * The random id, the random password and the clock are parameters.
 */
module Provisioning {
  import opened Wrappers
  import opened Text
  import opened Resources
  import opened MysqlTemplates
  import opened WordpressTemplates
  import opened IngressTemplate
  import opened Catalog
  import opened Kube

  // ---------------------------------------------------------------------------
  // Names derived from a store id
  // ---------------------------------------------------------------------------

  /** `token_hex(4)`: four random bytes written as eight lowercase hexadecimal digits. */
  function GenerateStoreId(entropy: seq<byte>): (id: string)
    requires |entropy| == 4
    ensures |id| == 8
    ensures forall i :: 0 <= i < |id| ==> id[i] in HexDigits
    ensures FromHex(id) == entropy
  {
    HexRoundTrip(entropy);
    ToHex(entropy)
  }

  /** The public hostname: the namespace, a dot, and the suffix when one is given and non-empty, else `local`. */
  function StoreUrl(storeId: string, suffix: Option<string>): (url: string)
    ensures suffix.Some? && suffix.value != "" ==> url == StoreNamespace(storeId) + "." + suffix.value
    ensures suffix.None? || suffix.value == "" ==> url == StoreNamespace(storeId) + ".local"
  {
    if suffix.Some? && suffix.value != "" then "store-" + storeId + "." + suffix.value
    else "store-" + storeId + ".local"
  }

  const DefaultSampleProducts: string :=
    "Sample Product 1|10.00|This is a sample product\nSample Product 2|20.00|Another sample product"

  function ProductsOrDefault(sampleProducts: Option<string>): string {
    sampleProducts.GetOr(DefaultSampleProducts)
  }

  // ---------------------------------------------------------------------------
  // The creation pipeline as a specification
  // ---------------------------------------------------------------------------

  /** One submission to the cluster. */
  datatype Action = MakeNamespace(name: string) | MakeObject(namespace: string, obj: Object)

  /** Whether the submission succeeds, and the cluster after it. */
  function Submit(c: Cluster, faults: set<Request>, a: Action): (bool, Cluster) {
    match a
    case MakeNamespace(n) =>
      (Accepted(CreateNamespaceStatus(c, faults, n)), AfterCreateNamespace(c, faults, n))
    case MakeObject(ns, o) =>
      (Accepted(CreateObjectStatus(c, faults, ns, o)), AfterCreateObject(c, faults, ns, o))
  }

  /** The cluster after a run, and the index of the step that failed, if any. */
  datatype Run = Run(cluster: Cluster, failedAt: Option<nat>)

  /** Runs the steps in order and stops at the first that fails; later steps are never submitted. */
  function RunSteps(c: Cluster, faults: set<Request>, plan: seq<Action>): Run
    decreases |plan|
  {
    if plan == [] then Run(c, None)
    else
      var prev := RunSteps(c, faults, plan[..|plan| - 1]);
      if prev.failedAt.Some? then prev
      else
        var (ok, c') := Submit(prev.cluster, faults, plan[|plan| - 1]);
        if ok then Run(c', None) else Run(prev.cluster, Some(|plan| - 1))
  }

  /** The ten submissions of `create_store`, in source order: the namespace, then each manifest into it. */
  function PlanFor(ns: string, m: Manifests): (plan: seq<Action>)
    ensures |plan| == 10
  {
    [MakeNamespace(ns),
     MakeObject(ns, SecretObject(m.mysqlSecret)),
     MakeObject(ns, ServiceObject(m.mysqlService)),
     MakeObject(ns, StatefulSetObject(m.mysqlStatefulSet)),
     MakeObject(ns, ConfigMapObject(m.wordpressConfig)),
     MakeObject(ns, PvcObject(m.wordpressPvc)),
     MakeObject(ns, ConfigMapObject(m.setupScript)),
     MakeObject(ns, DeploymentObject(m.wordpressDeployment)),
     MakeObject(ns, ServiceObject(m.wordpressService)),
     MakeObject(ns, IngressObject(m.ingress))]
  }

  /** After the namespace, the plan submits the store's manifests in catalogue order. */
  lemma PlanSubmitsObjects(ns: string, m: Manifests)
    ensures PlanFor(ns, m)[0] == MakeNamespace(ns)
    ensures forall i :: 1 <= i < 10 ==> PlanFor(ns, m)[i] == MakeObject(ns, m.Objects()[i - 1])
  {
  }

  /** The plan for a store; the WordPress claim always has the default 2 Gi. */
  function Plan(storeId: string, dbPassword: string, storeUrl: string, products: string): (plan: seq<Action>)
    ensures |plan| == 10
  {
    PlanFor(StoreNamespace(storeId), StoreManifests(storeId, dbPassword, storeUrl, products, DefaultStorageGi))
  }

  /** The error `create_store` returns when step k fails. */
  const StepErrors: seq<string> := [
    "Failed to create namespace",
    "Failed to create MySQL secret",
    "Failed to create MySQL service",
    "Failed to create MySQL",
    "Failed to create WordPress config",
    "Failed to create WordPress PVC",
    "Failed to create WP setup script",
    "Failed to create WordPress",
    "Failed to create WordPress service",
    "Failed to create Ingress"]

  datatype StoreInfo = StoreInfo(
    id: string,
    namespace: string,
    url: string,
    adminUrl: string,
    adminUser: string,
    adminPassword: string,
    status: string,
    createdAt: real)

  datatype CreateResult = Created(info: StoreInfo) | CreateFailed(error: string)

  /** What `create_store` returns after a run of its plan. */
  function CreateOutcome(run: Run, storeId: string, storeUrl: string, dbPassword: string, now: real): CreateResult
    requires run.failedAt.Some? ==> run.failedAt.value < |StepErrors|
  {
    if run.failedAt.Some? then CreateFailed(StepErrors[run.failedAt.value])
    else Created(StoreInfo(storeId, StoreNamespace(storeId), "http://" + storeUrl,
                           "http://" + storeUrl + "/wp-admin", "admin", dbPassword, "provisioning", now))
  }

  // ---------------------------------------------------------------------------
  // Properties of a run
  // ---------------------------------------------------------------------------

  lemma {:induction false} FailedAtInRange(c: Cluster, faults: set<Request>, plan: seq<Action>)
    ensures RunSteps(c, faults, plan).failedAt.Some? ==> RunSteps(c, faults, plan).failedAt.value < |plan|
    decreases |plan|
  {
    if plan != [] {
      FailedAtInRange(c, faults, plan[..|plan| - 1]);
    }
  }

  /** Once a prefix of the plan has failed, running more of the plan changes nothing. */
  lemma {:induction false} FailureIsFinal(c: Cluster, faults: set<Request>, plan: seq<Action>, k: nat)
    requires k <= |plan|
    requires RunSteps(c, faults, plan[..k]).failedAt.Some?
    ensures RunSteps(c, faults, plan) == RunSteps(c, faults, plan[..k])
    decreases |plan| - k
  {
    if k < |plan| {
      assert plan[..k + 1][..k] == plan[..k];
      FailureIsFinal(c, faults, plan, k + 1);
    } else {
      assert plan[..k] == plan;
    }
  }

  /**
   * Fail fast: when step k fails, steps 0..k-1 all succeeded, step k was submitted
   * and refused, and the cluster is exactly as steps 0..k-1 left it.
   */
  lemma {:induction false} FailFast(c: Cluster, faults: set<Request>, plan: seq<Action>)
    requires RunSteps(c, faults, plan).failedAt.Some?
    ensures var k := RunSteps(c, faults, plan).failedAt.value;
      && k < |plan|
      && RunSteps(c, faults, plan[..k]).failedAt == None
      && !Submit(RunSteps(c, faults, plan[..k]).cluster, faults, plan[k]).0
      && RunSteps(c, faults, plan).cluster == RunSteps(c, faults, plan[..k]).cluster
    decreases |plan|
  {
    var last := |plan| - 1;
    var prev := RunSteps(c, faults, plan[..last]);
    if prev.failedAt.Some? {
      FailFast(c, faults, plan[..last]);
      var k := prev.failedAt.value;
      FailedAtInRange(c, faults, plan[..last]);
      assert plan[..last][..k] == plan[..k];
      assert plan[..last][k] == plan[k];
    } else {
      assert plan[..last] == plan[..|plan| - 1];
    }
  }

  /** The objects and namespaces a cluster holds are all still in `c'`, unchanged. */
  ghost predicate Keeps(c: Cluster, c': Cluster) {
    forall n :: n in c ==>
      && n in c'
      && c'[n].labels == c[n].labels
      && c'[n].pods == c[n].pods
      && c[n].objects.Keys <= c'[n].objects.Keys
      && forall k :: k in c[n].objects ==> c'[n].objects[k] == c[n].objects[k]
  }

  /** What a successful submission leaves in the cluster. */
  ghost predicate Present(c: Cluster, a: Action) {
    match a
    case MakeNamespace(n) => n in c
    case MakeObject(ns, o) => ns in c && o.Key() in c[ns].objects
  }

  lemma SubmitKeeps(c: Cluster, faults: set<Request>, a: Action)
    ensures Keeps(c, Submit(c, faults, a).1)
    ensures Submit(c, faults, a).0 ==> Present(Submit(c, faults, a).1, a)
  {
  }

  lemma {:induction false} KeepsTransitive(c1: Cluster, c2: Cluster, c3: Cluster)
    requires Keeps(c1, c2) && Keeps(c2, c3)
    ensures Keeps(c1, c3)
  {
    forall n | n in c1
      ensures && n in c3 && c3[n].labels == c1[n].labels && c3[n].pods == c1[n].pods
              && c1[n].objects.Keys <= c3[n].objects.Keys
              && forall k :: k in c1[n].objects ==> c3[n].objects[k] == c1[n].objects[k]
    {
      assert n in c2;
    }
  }

  lemma PresentKept(c: Cluster, c': Cluster, a: Action)
    requires Present(c, a) && Keeps(c, c')
    ensures Present(c', a)
  {
  }

  /** Steps 0..upto-1 of the plan have all left their mark on `c`. */
  ghost predicate AllPresent(c: Cluster, plan: seq<Action>, upto: nat)
    requires upto <= |plan|
  {
    forall j :: 0 <= j < upto ==> Present(c, plan[j])
  }

  lemma AllPresentPrefix(c: Cluster, plan: seq<Action>, upto: nat)
    requires upto < |plan|
    ensures AllPresent(c, plan[..|plan| - 1], upto) <==> AllPresent(c, plan, upto)
  {
    assert forall j :: 0 <= j < upto ==> plan[..|plan| - 1][j] == plan[j];
  }

  lemma {:induction false} AllPresentKept(c: Cluster, c': Cluster, plan: seq<Action>, upto: nat)
    requires upto <= |plan|
    requires AllPresent(c, plan, upto) && Keeps(c, c')
    ensures AllPresent(c', plan, upto)
  {
    forall j | 0 <= j < upto ensures Present(c', plan[j]) {
      PresentKept(c, c', plan[j]);
    }
  }

  /** The steps that count as done in a run: all of them on success, those before the failing one otherwise. */
  function Completed(run: Run, plan: seq<Action>): nat {
    if run.failedAt.None? then |plan| else if run.failedAt.value < |plan| then run.failedAt.value else |plan|
  }

  /**
   * No rollback: a run, failed or not, removes and alters nothing that was in the
   * cluster, and every step before the failing one (all steps, on success) has left
   * its namespace or object in the cluster.
   */
  lemma {:induction false} NoRollback(c: Cluster, faults: set<Request>, plan: seq<Action>)
    ensures var run := RunSteps(c, faults, plan);
      Keeps(c, run.cluster) && AllPresent(run.cluster, plan, Completed(run, plan))
    decreases |plan|
  {
    if plan != [] {
      var last := |plan| - 1;
      var init := plan[..last];
      var prev := RunSteps(c, faults, init);
      NoRollback(c, faults, init);
      FailedAtInRange(c, faults, init);
      if prev.failedAt.None? {
        var r := Submit(prev.cluster, faults, plan[last]);
        SubmitKeeps(prev.cluster, faults, plan[last]);
        KeepsTransitive(c, prev.cluster, r.1);
        AllPresentPrefix(prev.cluster, plan, last);
        if r.0 {
          AllPresentKept(prev.cluster, r.1, plan, last);
        } else {
          AllPresentPrefix(prev.cluster, plan, last);
        }
      } else {
        AllPresentPrefix(prev.cluster, plan, prev.failedAt.value);
      }
    }
  }

  /** The plan as a list of what is still to be submitted. */
  datatype Pipeline = Done | Then(step: Action, rest: Pipeline)

  /** Steps k.. of the plan as a pipeline. */
  function PipelineFrom(plan: seq<Action>, k: nat): Pipeline
    decreases |plan| - k
  {
    if k >= |plan| then Done else Then(plan[k], PipelineFrom(plan, k + 1))
  }

  /** The same run read forwards: the remaining steps, numbered from i, submitted from cluster `c`. */
  function Execute(c: Cluster, faults: set<Request>, p: Pipeline, i: nat): Run
    decreases p
  {
    match p
    case Done => Run(c, None)
    case Then(a, rest) =>
      var (ok, c') := Submit(c, faults, a);
      if ok then Execute(c', faults, rest, i + 1) else Run(c, Some(i))
  }

  /** Running the first k steps and then the rest from step k is the whole forward run. */
  lemma {:induction false} RunSplit(c: Cluster, faults: set<Request>, plan: seq<Action>, k: nat)
    requires k <= |plan|
    ensures var prev := RunSteps(c, faults, plan[..k]);
      Execute(c, faults, PipelineFrom(plan, 0), 0)
        == if prev.failedAt.Some? then prev else Execute(prev.cluster, faults, PipelineFrom(plan, k), k)
    decreases k
  {
    if k == 0 {
      assert plan[..0] == [];
    } else {
      RunSplit(c, faults, plan, k - 1);
      assert plan[..k][..k - 1] == plan[..k - 1];
      assert plan[..k][k - 1] == plan[k - 1];
    }
  }

  /** The forward and the prefix reading of a run agree. */
  lemma ExecuteIsRunSteps(c: Cluster, faults: set<Request>, plan: seq<Action>)
    ensures Execute(c, faults, PipelineFrom(plan, 0), 0) == RunSteps(c, faults, plan)
  {
    RunSplit(c, faults, plan, |plan|);
    assert plan[..|plan|] == plan;
  }

  /** Where a submission goes. */
  function Target(a: Action): string {
    match a
    case MakeNamespace(n) => n
    case MakeObject(ns, _) => ns
  }

  /** A run whose submissions all go to one namespace leaves every other namespace as it was. */
  lemma {:induction false} OtherNamespacesUntouched(c: Cluster, faults: set<Request>, plan: seq<Action>, ns: string)
    requires forall i :: 0 <= i < |plan| ==> Target(plan[i]) == ns
    ensures var c' := RunSteps(c, faults, plan).cluster;
      forall n :: n != ns ==> (n in c' <==> n in c) && (n in c ==> c'[n] == c[n])
    decreases |plan|
  {
    if plan != [] {
      OtherNamespacesUntouched(c, faults, plan[..|plan| - 1], ns);
    }
  }

  /** Every submission of the plan goes to the store's namespace, and every object names that namespace. */
  lemma PlanTargetsStoreNamespace(storeId: string, pw: string, url: string, products: string)
    ensures var plan := Plan(storeId, pw, url, products);
      && plan[0] == MakeNamespace(StoreNamespace(storeId))
      && (forall i :: 0 <= i < |plan| ==> Target(plan[i]) == StoreNamespace(storeId))
      && (forall i :: 1 <= i < |plan| ==> plan[i].MakeObject? && plan[i].obj.Metadata().namespace == StoreNamespace(storeId))
  {
    var plan := Plan(storeId, pw, url, products);
    var objs := StoreObjects(storeId, pw, url, products, DefaultStorageGi);
    CatalogNamespaces(storeId, pw, url, products, DefaultStorageGi);
    PlanSubmitsObjects(StoreNamespace(storeId), StoreManifests(storeId, pw, url, products, DefaultStorageGi));
    forall i | 1 <= i < |plan|
      ensures plan[i] == MakeObject(StoreNamespace(storeId), objs[i - 1]) && objs[i - 1] in objs
    {
    }
  }

  /**
   * A plan that creates namespace `ns` and then submits objects into it, no two
   * under the same kind and name.
   */
  ghost predicate FreshPlan(ns: string, plan: seq<Action>) {
    && |plan| > 0
    && plan[0] == MakeNamespace(ns)
    && (forall j :: 1 <= j < |plan| ==> plan[j].MakeObject? && plan[j].namespace == ns)
    && (forall i, j :: 1 <= i < j < |plan| ==> plan[i].obj.Key() != plan[j].obj.Key())
  }

  /**
   * Namespace `ns` holds exactly the objects steps 1..k-1 submitted: each under
   * its key and equal to the submitted object, and nothing else.
   */
  ghost predicate Filed(c: Cluster, ns: string, plan: seq<Action>, k: nat)
    requires k <= |plan|
  {
    && ns in c
    && (forall j :: 1 <= j < k && plan[j].MakeObject? ==>
          plan[j].obj.Key() in c[ns].objects && c[ns].objects[plan[j].obj.Key()] == plan[j].obj)
    && (forall key :: key in c[ns].objects ==>
          exists j :: 1 <= j < k && plan[j].MakeObject? && plan[j].obj.Key() == key)
  }

  /**
   * When the namespace did not exist before, a successful run of a fresh plan
   * leaves in it exactly the submitted objects: no submission meets an "already
   * exists" answer, so none is skipped.
   */
  lemma {:induction false} FreshPlanFiled(c: Cluster, faults: set<Request>, ns: string, plan: seq<Action>)
    requires ns !in c && FreshPlan(ns, plan)
    ensures RunSteps(c, faults, plan).failedAt.None? ==> Filed(RunSteps(c, faults, plan).cluster, ns, plan, |plan|)
    decreases |plan|
  {
    var run := RunSteps(c, faults, plan);
    if run.failedAt.None? {
      var n := |plan| - 1;
      var init := plan[..n];
      var prev := RunSteps(c, faults, init);
      assert prev.failedAt.None?;
      if n == 0 {
        assert init == [];
        assert run.cluster == c[ns := Namespace(StoreLabels(), map[], [])];
      } else {
        assert forall j :: 0 <= j < n ==> init[j] == plan[j];
        assert FreshPlan(ns, init);
        FreshPlanFiled(c, faults, ns, init);
        FiledPrefix(prev.cluster, ns, plan);
        FiledStep(prev.cluster, faults, ns, plan, n);
      }
    }
  }

  /** `Filed` for the plan without its last step carries over to the whole plan. */
  lemma FiledPrefix(c: Cluster, ns: string, plan: seq<Action>)
    requires |plan| > 0
    requires Filed(c, ns, plan[..|plan| - 1], |plan| - 1)
    ensures Filed(c, ns, plan, |plan| - 1)
  {
    var init := plan[..|plan| - 1];
    assert forall j :: 0 <= j < |init| ==> init[j] == plan[j];
    forall key | key in c[ns].objects
      ensures exists j :: 1 <= j < |plan| - 1 && plan[j].MakeObject? && plan[j].obj.Key() == key
    {
      var j :| 1 <= j < |init| && init[j].MakeObject? && init[j].obj.Key() == key;
      assert init[j] == plan[j];
    }
  }

  /** An accepted submission of step n files its object, since no earlier step used its key. */
  lemma FiledStep(c: Cluster, faults: set<Request>, ns: string, plan: seq<Action>, n: nat)
    requires 1 <= n < |plan| && FreshPlan(ns, plan)
    requires Filed(c, ns, plan, n)
    requires Submit(c, faults, plan[n]).0
    ensures Filed(Submit(c, faults, plan[n]).1, ns, plan, n + 1)
  {
    var o := plan[n].obj;
    var objs := c[ns].objects;
    forall j | 1 <= j < n && plan[j].MakeObject? ensures plan[j].obj.Key() != o.Key() {
    }
    assert o.Key() !in objs;
    var c' := Submit(c, faults, plan[n]).1;
    assert c' == c[ns := c[ns].(objects := objs[o.Key() := o])];
    forall key | key in c'[ns].objects
      ensures exists j :: 1 <= j < n + 1 && plan[j].MakeObject? && plan[j].obj.Key() == key
    {
      if key == o.Key() {
        assert plan[n].obj.Key() == key;
      }
    }
  }

  /** A store's plan is fresh when its nine objects have distinct keys. */
  lemma PlanForFresh(ns: string, m: Manifests)
    requires forall i, j :: 0 <= i < j < |m.Objects()| ==> m.Objects()[i].Key() != m.Objects()[j].Key()
    ensures FreshPlan(ns, PlanFor(ns, m))
  {
    PlanSubmitsObjects(ns, m);
  }

  /**
   * A creation run removes and alters nothing that was in the cluster, and when
   * it succeeds the store's namespace holds every one of the store's objects;
   * when that namespace did not exist before, it holds each of them exactly as
   * the templates built it, and nothing else.
   */
  lemma CreatedStoreIsComplete(c: Cluster, faults: set<Request>, storeId: string, pw: string, url: string, products: string)
    ensures var run := RunSteps(c, faults, Plan(storeId, pw, url, products));
      var ns := StoreNamespace(storeId);
      && Keeps(c, run.cluster)
      && (run.failedAt.None? ==>
            && ns in run.cluster
            && forall o :: o in StoreObjects(storeId, pw, url, products, DefaultStorageGi) ==>
                 o.Key() in run.cluster[ns].objects)
    ensures var run := RunSteps(c, faults, Plan(storeId, pw, url, products));
      var ns := StoreNamespace(storeId);
      var objs := StoreObjects(storeId, pw, url, products, DefaultStorageGi);
      ns !in c && run.failedAt.None? ==>
        && ns in run.cluster
        && (forall o :: o in objs ==> o.Key() in run.cluster[ns].objects && run.cluster[ns].objects[o.Key()] == o)
        && (forall k :: k in run.cluster[ns].objects ==> exists o :: o in objs && o.Key() == k)
  {
    var ns := StoreNamespace(storeId);
    var m := StoreManifests(storeId, pw, url, products, DefaultStorageGi);
    PlanComplete(c, faults, ns, m);
    if ns !in c {
      CatalogKeysDistinct(storeId, pw, url, products, DefaultStorageGi);
      FreshStoreFiled(c, faults, ns, m);
    }
  }

  /** The first half of `CreatedStoreIsComplete`, stated over the manifests. */
  lemma PlanComplete(c: Cluster, faults: set<Request>, ns: string, m: Manifests)
    ensures var run := RunSteps(c, faults, PlanFor(ns, m));
      && Keeps(c, run.cluster)
      && (run.failedAt.None? ==>
            && ns in run.cluster
            && forall o :: o in m.Objects() ==> o.Key() in run.cluster[ns].objects)
  {
    var plan := PlanFor(ns, m);
    NoRollback(c, faults, plan);
    var run := RunSteps(c, faults, plan);
    if run.failedAt.None? {
      PlanSubmitsObjects(ns, m);
      assert Present(run.cluster, plan[0]);
      forall o | o in m.Objects() ensures o.Key() in run.cluster[ns].objects {
        var i :| 0 <= i < |m.Objects()| && m.Objects()[i] == o;
        assert Present(run.cluster, plan[i + 1]);
      }
    }
  }

  /** The fresh-namespace half of `CreatedStoreIsComplete`, stated over the manifests. */
  lemma FreshStoreFiled(c: Cluster, faults: set<Request>, ns: string, m: Manifests)
    requires ns !in c
    requires forall i, j :: 0 <= i < j < |m.Objects()| ==> m.Objects()[i].Key() != m.Objects()[j].Key()
    ensures var run := RunSteps(c, faults, PlanFor(ns, m));
      run.failedAt.None? ==>
        && ns in run.cluster
        && (forall o :: o in m.Objects() ==> o.Key() in run.cluster[ns].objects && run.cluster[ns].objects[o.Key()] == o)
        && (forall k :: k in run.cluster[ns].objects ==> exists o :: o in m.Objects() && o.Key() == k)
  {
    var plan := PlanFor(ns, m);
    var run := RunSteps(c, faults, plan);
    PlanForFresh(ns, m);
    FreshPlanFiled(c, faults, ns, plan);
    if run.failedAt.None? {
      PlanSubmitsObjects(ns, m);
      forall o | o in m.Objects()
        ensures o.Key() in run.cluster[ns].objects && run.cluster[ns].objects[o.Key()] == o
      {
        var i :| 0 <= i < |m.Objects()| && m.Objects()[i] == o;
        assert plan[i + 1].obj == o;
      }
      forall k | k in run.cluster[ns].objects ensures exists o :: o in m.Objects() && o.Key() == k {
        var j :| 1 <= j < |plan| && plan[j].MakeObject? && plan[j].obj.Key() == k;
        assert plan[j].obj == m.Objects()[j - 1];
      }
    }
  }

  /** Creating a store, whether it succeeds or not, leaves every other namespace exactly as it was. */
  lemma CreateTouchesOnlyItsNamespace(c: Cluster, faults: set<Request>, storeId: string, pw: string, url: string, products: string)
    ensures var c' := RunSteps(c, faults, Plan(storeId, pw, url, products)).cluster;
      forall n :: n != StoreNamespace(storeId) ==> (n in c' <==> n in c) && (n in c ==> c'[n] == c[n])
  {
    PlanTargetsStoreNamespace(storeId, pw, url, products);
    OtherNamespacesUntouched(c, faults, Plan(storeId, pw, url, products), StoreNamespace(storeId));
  }

  /** No two steps share an error message, so a message names its step. */
  lemma StepErrorsDistinct()
    ensures forall i, j :: 0 <= i < j < |StepErrors| ==> StepErrors[i] != StepErrors[j]
  {
  }

  /**
   * A failed creation reports the step the cluster refused, and every earlier
   * step was accepted.
   */
  lemma FailureNamesRefusedStep(c: Cluster, faults: set<Request>, plan: seq<Action>,
                                storeId: string, url: string, pw: string, now: real)
    requires |plan| == |StepErrors|
    requires RunSteps(c, faults, plan).failedAt.Some?
    ensures var run := RunSteps(c, faults, plan);
      var k := run.failedAt.value;
      && k < |StepErrors|
      && CreateOutcome(run, storeId, url, pw, now) == CreateFailed(StepErrors[k])
      && RunSteps(c, faults, plan[..k]).failedAt == None
      && !Submit(RunSteps(c, faults, plan[..k]).cluster, faults, plan[k]).0
  {
    FailFast(c, faults, plan);
  }

  /**
   * A successful creation reports the public and admin addresses of the store's
   * hostname, the `admin` user, status `provisioning`, and as admin password the
   * very password the plan puts in the database secret and the application settings.
   */
  lemma SuccessReportsCredentials(run: Run, storeId: string, url: string, pw: string, products: string, now: real)
    requires run.failedAt.None?
    ensures var r := CreateOutcome(run, storeId, url, pw, now);
      var plan := Plan(storeId, pw, url, products);
      && r.Created?
      && r.info.id == storeId && r.info.namespace == StoreNamespace(storeId)
      && r.info.url == "http://" + url && r.info.adminUrl == r.info.url + "/wp-admin"
      && r.info.adminUser == "admin" && r.info.status == "provisioning" && r.info.createdAt == now
      && plan[1].obj.secret.stringData["mysql-password"] == r.info.adminPassword
      && plan[4].obj.configMap.data["WP_ADMIN_PASSWORD"] == r.info.adminPassword
  {
    SamePasswordInSecretAndConfig(storeId, pw, url, products, DefaultStorageGi);
    PlanSubmitsObjects(StoreNamespace(storeId), StoreManifests(storeId, pw, url, products, DefaultStorageGi));
  }

  /**
   * The plan requests the WordPress claim at the default 2Gi, and the product
   * payload reaches the settings verbatim, or the two-line default when none is given.
   */
  lemma PlanUsesDefaultClaimAndProducts(storeId: string, pw: string, url: string, sampleProducts: Option<string>)
    ensures var plan := Plan(storeId, pw, url, ProductsOrDefault(sampleProducts));
      && plan[5] == MakeObject(StoreNamespace(storeId), PvcObject(WordpressPvc(storeId, 2)))
      && plan[5].obj.pvc.spec.storage == "2Gi"
      && plan[4].obj.configMap.data["SAMPLE_PRODUCTS"]
         == (if sampleProducts.Some? then sampleProducts.value else DefaultSampleProducts)
  {
    var products := ProductsOrDefault(sampleProducts);
    PlanSubmitsObjects(StoreNamespace(storeId), StoreManifests(storeId, pw, url, products, DefaultStorageGi));
    ConfigContents(storeId, pw, url, products, storeId, pw, url, products);
    assert IntToString(2) == "2";
  }

  /** `list_stores` recovers the id, and the default URL, of a store whose id is hexadecimal, as `GenerateStoreId` makes them. */
  lemma SummaryRecoversStoreId(id: string, status: NamespaceStatus)
    requires forall i :: 0 <= i < |id| ==> id[i] in HexDigits
    ensures Summarize(StoreNamespace(id), status) == StoreSummary(id, StoreNamespace(id), "http://" + StoreUrl(id, None), status)
  {
    var ns := StoreNamespace(id);
    assert ns == StorePrefix + id;
    RemoveAllLeading(StorePrefix, id);
    assert StorePrefix[0] !in id by {
      assert 's' !in HexDigits;
      forall i | 0 <= i < |id| ensures id[i] != StorePrefix[0] {
      }
    }
    RemoveAllWithoutLead(id, StorePrefix);
    assert RemoveAll(ns, StorePrefix) == id;
    assert "http://store-" + id + ".local" == "http://" + ("store-" + id + ".local");
  }

  /**
   * The listing always reports the `.local` address, so for a store created with
   * a domain suffix other than `local` it differs from the address creation reported.
   */
  lemma ListedUrlIgnoresSuffix(id: string, suffix: string, status: NamespaceStatus)
    requires forall i :: 0 <= i < |id| ==> id[i] in HexDigits
    requires suffix != "" && suffix != "local"
    ensures Summarize(StoreNamespace(id), status).url == "http://" + StoreUrl(id, None)
    ensures Summarize(StoreNamespace(id), status).url != "http://" + StoreUrl(id, Some(suffix))
  {
    SummaryRecoversStoreId(id, status);
    var ns := StoreNamespace(id);
    assert "." + "local" == ".local";
    PrefixKeepsDifference(".", "local", suffix);
    assert StoreUrl(id, Some(suffix)) == ns + ("." + suffix);
    PrefixKeepsDifference(ns, ".local", "." + suffix);
    PrefixKeepsDifference("http://", StoreUrl(id, None), StoreUrl(id, Some(suffix)));
  }

  /** The plan for a namespace and its manifests, as a pipeline. */
  function Pipe(ns: string, m: Manifests): Pipeline {
    Then(MakeNamespace(ns),
    Then(MakeObject(ns, SecretObject(m.mysqlSecret)),
    Then(MakeObject(ns, ServiceObject(m.mysqlService)),
    Then(MakeObject(ns, StatefulSetObject(m.mysqlStatefulSet)),
    Then(MakeObject(ns, ConfigMapObject(m.wordpressConfig)),
    Then(MakeObject(ns, PvcObject(m.wordpressPvc)),
    Then(MakeObject(ns, ConfigMapObject(m.setupScript)),
    Then(MakeObject(ns, DeploymentObject(m.wordpressDeployment)),
    Then(MakeObject(ns, ServiceObject(m.wordpressService)),
    Then(MakeObject(ns, IngressObject(m.ingress)),
    Done))))))))))
  }

  lemma PlanPipeline(ns: string, m: Manifests)
    ensures PipelineFrom(PlanFor(ns, m), 0) == Pipe(ns, m)
  {
    var plan := PlanFor(ns, m);
    assert PipelineFrom(plan, 10) == Done;
    assert PipelineFrom(plan, 9) == Then(plan[9], PipelineFrom(plan, 10));
    assert PipelineFrom(plan, 8) == Then(plan[8], PipelineFrom(plan, 9));
    assert PipelineFrom(plan, 7) == Then(plan[7], PipelineFrom(plan, 8));
    assert PipelineFrom(plan, 6) == Then(plan[6], PipelineFrom(plan, 7));
    assert PipelineFrom(plan, 5) == Then(plan[5], PipelineFrom(plan, 6));
    assert PipelineFrom(plan, 4) == Then(plan[4], PipelineFrom(plan, 5));
    assert PipelineFrom(plan, 3) == Then(plan[3], PipelineFrom(plan, 4));
    assert PipelineFrom(plan, 2) == Then(plan[2], PipelineFrom(plan, 3));
    assert PipelineFrom(plan, 1) == Then(plan[1], PipelineFrom(plan, 2));
    assert PipelineFrom(plan, 0) == Then(plan[0], PipelineFrom(plan, 1));
  }

  // ---------------------------------------------------------------------------
  // The orchestrator
  // ---------------------------------------------------------------------------

  datatype StoreSummary = StoreSummary(id: string, namespace: string, url: string, status: NamespaceStatus)

  /** The record `list_stores` makes of a namespace: the id is the name with every `store-` removed. */
  function Summarize(namespace: string, status: NamespaceStatus): StoreSummary {
    var id := RemoveAll(namespace, StorePrefix);
    StoreSummary(id, namespace, "http://store-" + id + ".local", status)
  }

  datatype DeleteResult = DeleteSucceeded | DeleteFailed(error: string)

  class StoreManager {
    const k8s: K8sClient

    /** The source builds its own client; here the client is handed in. */
    constructor(k8s: K8sClient)
      ensures this.k8s == k8s
    {
      this.k8s := k8s;
    }

    /** Submits one step through the client call for its kind. */
    method Perform(a: Action) returns (ok: bool)
      requires k8s.Valid()
      modifies k8s
      ensures k8s.Valid()
      ensures (ok, k8s.namespaces) == Submit(old(k8s.namespaces), k8s.faults, a)
    {
      match a {
        case MakeNamespace(n) =>
          ok := k8s.CreateNamespace(n);
        case MakeObject(ns, o) =>
          match o {
            case SecretObject(x) => ok := k8s.CreateSecret(ns, x);
            case ServiceObject(x) => ok := k8s.CreateService(ns, x);
            case StatefulSetObject(x) => ok := k8s.CreateStatefulSet(ns, x);
            case ConfigMapObject(x) => ok := k8s.CreateConfigMap(ns, x);
            case PvcObject(x) => ok := k8s.CreatePvc(ns, x);
            case DeploymentObject(x) => ok := k8s.CreateDeployment(ns, x);
            case IngressObject(x) => ok := k8s.CreateIngress(ns, x);
          }
      }
    }

    /**
     * The ten submissions of `create_store`, each through the client call for its
     * kind, stopping at the first that fails; the result is the index of that step.
     */
    method Provision(namespace: string, m: Manifests) returns (failedAt: Option<nat>)
      requires k8s.Valid()
      modifies k8s
      ensures k8s.Valid()
      ensures var run := Execute(old(k8s.namespaces), k8s.faults, Pipe(namespace, m), 0);
        && k8s.namespaces == run.cluster
        && failedAt == run.failedAt
    {
      ghost var c0 := k8s.namespaces;
      ghost var faults := k8s.faults;
      ghost var pipe := Pipe(namespace, m);
      ghost var rest := pipe;

      var ok := Perform(MakeNamespace(namespace));
      if !ok {
        assert Execute(c0, faults, pipe, 0) == Run(k8s.namespaces, Some(0));
        return Some(0);
      }
      rest := rest.rest;
      assert Execute(c0, faults, pipe, 0) == Execute(k8s.namespaces, faults, rest, 1);

      ok := Perform(MakeObject(namespace, SecretObject(m.mysqlSecret)));
      if !ok {
        assert Execute(c0, faults, pipe, 0) == Run(k8s.namespaces, Some(1));
        return Some(1);
      }
      rest := rest.rest;
      assert Execute(c0, faults, pipe, 0) == Execute(k8s.namespaces, faults, rest, 2);

      ok := Perform(MakeObject(namespace, ServiceObject(m.mysqlService)));
      if !ok {
        assert Execute(c0, faults, pipe, 0) == Run(k8s.namespaces, Some(2));
        return Some(2);
      }
      rest := rest.rest;
      assert Execute(c0, faults, pipe, 0) == Execute(k8s.namespaces, faults, rest, 3);

      ok := Perform(MakeObject(namespace, StatefulSetObject(m.mysqlStatefulSet)));
      if !ok {
        assert Execute(c0, faults, pipe, 0) == Run(k8s.namespaces, Some(3));
        return Some(3);
      }
      rest := rest.rest;
      assert Execute(c0, faults, pipe, 0) == Execute(k8s.namespaces, faults, rest, 4);

      // The fixed 30-second wait for the database happens here.

      ok := Perform(MakeObject(namespace, ConfigMapObject(m.wordpressConfig)));
      if !ok {
        assert Execute(c0, faults, pipe, 0) == Run(k8s.namespaces, Some(4));
        return Some(4);
      }
      rest := rest.rest;
      assert Execute(c0, faults, pipe, 0) == Execute(k8s.namespaces, faults, rest, 5);

      ok := Perform(MakeObject(namespace, PvcObject(m.wordpressPvc)));
      if !ok {
        assert Execute(c0, faults, pipe, 0) == Run(k8s.namespaces, Some(5));
        return Some(5);
      }
      rest := rest.rest;
      assert Execute(c0, faults, pipe, 0) == Execute(k8s.namespaces, faults, rest, 6);

      ok := Perform(MakeObject(namespace, ConfigMapObject(m.setupScript)));
      if !ok {
        assert Execute(c0, faults, pipe, 0) == Run(k8s.namespaces, Some(6));
        return Some(6);
      }
      rest := rest.rest;
      assert Execute(c0, faults, pipe, 0) == Execute(k8s.namespaces, faults, rest, 7);

      ok := Perform(MakeObject(namespace, DeploymentObject(m.wordpressDeployment)));
      if !ok {
        assert Execute(c0, faults, pipe, 0) == Run(k8s.namespaces, Some(7));
        return Some(7);
      }
      rest := rest.rest;
      assert Execute(c0, faults, pipe, 0) == Execute(k8s.namespaces, faults, rest, 8);

      ok := Perform(MakeObject(namespace, ServiceObject(m.wordpressService)));
      if !ok {
        assert Execute(c0, faults, pipe, 0) == Run(k8s.namespaces, Some(8));
        return Some(8);
      }
      rest := rest.rest;
      assert Execute(c0, faults, pipe, 0) == Execute(k8s.namespaces, faults, rest, 9);

      ok := Perform(MakeObject(namespace, IngressObject(m.ingress)));
      if !ok {
        assert Execute(c0, faults, pipe, 0) == Run(k8s.namespaces, Some(9));
        return Some(9);
      }
      rest := rest.rest;
      assert Execute(c0, faults, pipe, 0) == Execute(k8s.namespaces, faults, rest, 10);
      failedAt := None;
    }

    method CreateStore(entropy: seq<byte>, dbPassword: string, now: real,
                       sampleProducts: Option<string>, storeUrlSuffix: Option<string>)
      returns (result: CreateResult)
      requires |entropy| == 4
      requires k8s.Valid()
      modifies k8s
      ensures k8s.Valid()
      ensures var storeId := GenerateStoreId(entropy);
        var storeUrl := StoreUrl(storeId, storeUrlSuffix);
        var run := RunSteps(old(k8s.namespaces), k8s.faults,
                            Plan(storeId, dbPassword, storeUrl, ProductsOrDefault(sampleProducts)));
        && (run.failedAt.Some? ==> run.failedAt.value < 10)
        && k8s.namespaces == run.cluster
        && result == CreateOutcome(run, storeId, storeUrl, dbPassword, now)
    {
      var storeId := GenerateStoreId(entropy);
      var namespace := StoreNamespace(storeId);
      var storeUrl := StoreUrl(storeId, storeUrlSuffix);
      var products := ProductsOrDefault(sampleProducts);
      var manifests := StoreManifests(storeId, dbPassword, storeUrl, products, DefaultStorageGi);
      ghost var c0 := k8s.namespaces;
      ghost var plan := PlanFor(namespace, manifests);
      PlanPipeline(namespace, manifests);
      ExecuteIsRunSteps(c0, k8s.faults, plan);

      var failedAt := Provision(namespace, manifests);
      FailedAtInRange(c0, k8s.faults, plan);
      if failedAt.Some? {
        return CreateFailed(StepErrors[failedAt.value]);
      }
      result := Created(StoreInfo(storeId, namespace, "http://" + storeUrl, "http://" + storeUrl + "/wp-admin",
                                  "admin", dbPassword, "provisioning", now));
    }


    /** One record per labelled namespace, each with the status its pods give; `[]` when listing fails. */
    method ListStores() returns (stores: seq<StoreSummary>)
      ensures ListNamespacesRequest in k8s.faults ==> stores == []
      ensures ListNamespacesRequest !in k8s.faults ==>
        forall n :: n in k8s.StoreNamespaceNames() <==> exists i :: 0 <= i < |stores| && stores[i].namespace == n
      ensures forall i, j :: 0 <= i < j < |stores| ==> stores[i].namespace != stores[j].namespace
      ensures forall i :: 0 <= i < |stores| ==>
        stores[i] == Summarize(stores[i].namespace, k8s.GetNamespaceStatus(stores[i].namespace))
    {
      var namespaces := k8s.ListStoreNamespaces();
      stores := [];
      for i := 0 to |namespaces|
        invariant |stores| == i
        invariant forall j :: 0 <= j < i ==> stores[j].namespace == namespaces[j]
        invariant forall j :: 0 <= j < i ==>
          stores[j] == Summarize(namespaces[j], k8s.GetNamespaceStatus(namespaces[j]))
      {
        var ns := namespaces[i];
        var storeId := RemoveAll(ns, "store-");
        var status := k8s.GetNamespaceStatus(ns);
        stores := stores + [StoreSummary(storeId, ns, "http://store-" + storeId + ".local", status)];
      }
      assert forall n :: n in namespaces <==> exists i :: 0 <= i < |stores| && stores[i].namespace == n by {
        forall n | n in namespaces ensures exists i :: 0 <= i < |stores| && stores[i].namespace == n {
          var i :| 0 <= i < |namespaces| && namespaces[i] == n;
          assert stores[i].namespace == n;
        }
      }
    }

    /** Deletes the store's namespace when it can be read; a missing namespace is "Store not found" and nothing is deleted. */
    method DeleteStore(storeId: string) returns (result: DeleteResult)
      requires k8s.Valid()
      modifies k8s
      ensures k8s.Valid()
      ensures var ns := StoreNamespace(storeId);
        if !old(k8s.NamespaceExists(ns)) then
          result == DeleteFailed("Store not found") && k8s.namespaces == old(k8s.namespaces)
        else
          && k8s.namespaces == AfterDeleteNamespace(old(k8s.namespaces), k8s.faults, ns)
          && (result == DeleteSucceeded <==> DeleteNamespaceRequest(ns) !in k8s.faults)
          && (result != DeleteSucceeded ==> result == DeleteFailed("Failed to delete store"))
    {
      var namespace := StoreNamespace(storeId);
      if !k8s.NamespaceExists(namespace) {
        return DeleteFailed("Store not found");
      }
      var ok := k8s.DeleteNamespace(namespace);
      if ok {
        result := DeleteSucceeded;
      } else {
        result := DeleteFailed("Failed to delete store");
      }
    }
  }
}
