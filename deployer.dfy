/** The RHPAM deployer (pkg/deploys/rhpam/deployer.go): the provisioning
    pipeline `Deploy`, the deprovisioning pipeline `RemoveDeploy`, and the
    operation-status resolver `ServiceInstanceLastOperation`.

    Each pipeline's fixed sequence of cluster calls is written out as a
    plan (a list of `Pipeline.Step`s); the methods below perform the calls
    one by one as the source does, and each promises that the cluster ends
    exactly where `Run` of its plan says. */
module Deployer {
  import opened Wrappers
  import opened Objects
  import opened Cluster
  import opened Pipeline
  import opened Messages

  datatype ProvisionRequest = ProvisionRequest(instanceId: string, username: string)
  datatype ProvisionResponse = ProvisionResponse(code: int, dashboardURL: string, operation: string)
  datatype DeprovisionRequest = DeprovisionRequest(instanceId: string)
  datatype DeprovisionResponse = DeprovisionResponse(operation: string)
  datatype LastOperationRequest = LastOperationRequest(instanceId: string, operation: string)

  datatype OperationState = Succeeded | InProgress | Failed
  datatype LastOperationResponse = LastOperationResponse(state: OperationState, description: string)

  const StatusAccepted := 202
  const StatusInternalServerError := 500

  /** The tenant namespace every entry point derives from the instance id. */
  function NamespaceFor(instanceId: string): (ns: string)
    ensures |ns| == |instanceId| + 6 && ns[..6] == "rhpam-"
    // the instance can be read back, so two instances never share a namespace
    ensures ns[6..] == instanceId
  {
    "rhpam-" + instanceId
  }

  /** The dashboard route's host: the namespace, followed by the configured
      route suffix when there is one. */
  function RouteHostname(namespace: string, routeSuffix: Option<string>): (host: string)
    ensures routeSuffix.None? ==> host == namespace
    ensures routeSuffix.Some? ==> host == namespace + "." + routeSuffix.value
  {
    match routeSuffix
    case None => namespace
    case Some(suffix) => namespace + "." + suffix
  }

  function DashboardURL(namespace: string, routeSuffix: Option<string>): (url: string)
    ensures |url| >= 17 && url[..17] == "https://rhpam-bc-" && url[17..] == RouteHostname(namespace, routeSuffix)
  {
    "https://rhpam-bc-" + RouteHostname(namespace, routeSuffix)
  }

  // ---------------------------------------------------------------- plans

  function Strictly(a: Action, message: Message): Step {
    Step(a, Strict, [message])
  }

  function NamespaceStep(instanceId: string): Step {
    Strictly(Create("", NamespaceObj("rhpam-" + instanceId)), CreateNamespaceFailed)
  }

  /** A system binding tolerates "already exists". */
  function SystemBindingStep(namespace: string, binding: Object): Step {
    Step(Create(namespace, binding), Tolerate(AlreadyExists), [CreateRoleBindingFailed(binding.meta.name)])
  }

  /** The system bindings, one step each, in order, followed by `next`. */
  function SystemBindingsPlan(namespace: string, bindings: seq<Object>, next: Plan): Plan
    decreases |bindings|
  {
    if bindings == [] then next
    else Do(SystemBindingStep(namespace, bindings[0]), SystemBindingsPlan(namespace, bindings[1..], next))
  }

  /** What `createRoleBindings` does after the system bindings. */
  function OperatorBindingsPlan(namespace: string, username: string): Plan {
    Do(Strictly(Create(namespace, InstallRoleBindingObj()), CreateInstallRoleBindingFailed),
    Do(Strictly(Create(namespace, PlaceholderBindingObj("user-role-binding-")), CreateUserRoleBindingFailed),
    AuthorizationBindingsPlan(namespace, username)))
  }

  /** The OpenShift authorization bindings, made through their own client. */
  function AuthorizationBindingsPlan(namespace: string, username: string): Plan {
    Do(Strictly(Connect(AuthClient), AuthorizationClientFailed),
    Do(Strictly(Create(namespace, OperatorAccessBindingObj("view")), CreateViewRoleBindingFailed),
    Do(Strictly(Create(namespace, OperatorAccessBindingObj("edit")), CreateEditRoleBindingFailed),
    Do(Strictly(Create(namespace, UserViewRoleBindingObj(namespace, username)), CreateUserViewRoleBindingFailed),
    Do(Strictly(Create(namespace, PlaceholderBindingObj("user-edit-role-binding-")), CreateUserEditRoleBindingFailed),
    Done)))))
  }

  function RoleBindingsPlan(namespace: string, username: string): Plan {
    SystemBindingsPlan(namespace, SystemRoleBindings(namespace), OperatorBindingsPlan(namespace, username))
  }

  function OperatorPlan(namespace: string): Plan {
    Do(Strictly(Connect(AppsClient), DeploymentConfigClientFailed),
    Do(Strictly(Create(namespace, DeploymentConfigObj()), CreateDeploymentConfigFailed),
    Done))
  }

  /** Creating a custom resource: obtain a client for its kind, then create;
      the errors are returned unwrapped. */
  function CustomResourcePlan(namespace: string, o: Object): Plan {
    Do(Step(Connect(ResourceClient(o.kind)), Strict, []),
    Do(Step(Create(namespace, o), Strict, []),
    Done))
  }

  function CustomResourcesPlan(namespace: string): Plan {
    Append(CustomResourcePlan(namespace, RhpamDevObj(namespace)), CustomResourcePlan(namespace, RhpamUserObj(namespace)))
  }

  /** What `Deploy` does after the role bindings. */
  function ClusterRbacAndWorkloadsPlan(namespace: string): Plan {
    Do(Strictly(Create("", ClusterRoleObj(namespace)), CreateClusterRoleFailed),
    Do(Strictly(Create("", ClusterRoleBindingObj(namespace)), CreateClusterRoleBindingFailed),
    Append(OperatorPlan(namespace), CustomResourcesPlan(namespace))))
  }

  /** Everything `Deploy` does after creating the namespace, in order. */
  function TenantPlan(namespace: string, username: string): Plan {
    Do(Strictly(Create(namespace, ServiceAccountObj()), CreateServiceAccountFailed),
    Do(Strictly(Create(namespace, RoleObj()), CreateRoleFailed),
    Do(Strictly(Create(namespace, UserRoleObj()), CreateUserRoleFailed),
    Append(RoleBindingsPlan(namespace, username), ClusterRbacAndWorkloadsPlan(namespace)))))
  }

  /** Everything `Deploy` does, in order. */
  function ProvisionPlan(instanceId: string, username: string): Plan {
    Do(NamespaceStep(instanceId), TenantPlan(NamespaceFor(instanceId), username))
  }

  /** Deleting one custom resource: a fresh client, then the delete; the
      errors are returned unwrapped. */
  function DeleteOnePlan(kind: Kind, namespace: string, name: string): Plan {
    Do(Step(Connect(ResourceClient(kind)), Strict, []),
    Do(Step(Delete(kind, namespace, name), Strict, []),
    Done))
  }

  /** Deleting listed custom resources one by one, in list order. */
  function DeleteEachPlan(kind: Kind, namespace: string, items: seq<Resource>): Plan
    decreases |items|
  {
    if items == [] then Done
    else Append(DeleteOnePlan(kind, namespace, items[0].name), DeleteEachPlan(kind, namespace, items[1..]))
  }

  /** `deleteRhpam...CustomResources`: a client, the list, then each item. */
  function DeleteAllPlan(kind: Kind, namespace: string, items: seq<Resource>): Plan {
    Do(Step(Connect(ResourceClient(kind)), Strict, []),
    Do(Step(List(kind, namespace), Strict, []),
    DeleteEachPlan(kind, namespace, items)))
  }

  /** The calls `getRhpamDev` makes: a client for RhpamDev, then the list. */
  function DevLookupPlan(namespace: string): Plan {
    Do(Step(Connect(ResourceClient(RhpamDev)), Strict, []),
    Do(Step(List(RhpamDev, namespace), Strict, []),
    Done))
  }

  function UserResourcesPlan(namespace: string, users: seq<Resource>): Plan {
    Wrapped(DeleteAllPlan(RhpamUser, namespace, users), DeleteRhpamUsersFailed(namespace))
  }

  function DevResourcesPlan(namespace: string, devs: seq<Resource>): Plan {
    Wrapped(DeleteAllPlan(RhpamDev, namespace, devs), DeleteRhpamDevsFailed(namespace))
  }

  /** The cluster-scoped RBAC objects, then the namespace, whose "not found" is tolerated. */
  function TeardownPlan(namespace: string): Plan {
    Do(Strictly(Delete(ClusterRoleBinding, "", "rhpam-dev-operator-" + namespace), DeleteClusterRoleBindingFailed),
    Do(Strictly(Delete(ClusterRole, "", "rhpam-dev-operator-" + namespace), DeleteClusterRoleFailed),
    Do(Step(Delete(Namespace, "", namespace), Tolerate(NotFound), [DeleteNamespaceFailed(namespace)]),
    Done)))
  }

  /** Everything `RemoveDeploy` does, given the items its two lists returned. */
  function DeprovisionPlan(instanceId: string, users: seq<Resource>, devs: seq<Resource>): Plan {
    var ns := NamespaceFor(instanceId);
    Append(UserResourcesPlan(ns, users), Append(DevResourcesPlan(ns, devs), TeardownPlan(ns)))
  }

  /** `items` is what listing `kind` in `namespace` returns on `s`, when the
      client and the list call both succeed. */
  ghost predicate Listed(s: State, failing: set<Call>, kind: Kind, namespace: string, items: seq<Resource>) {
    ConnectCall(ResourceClient(kind)) !in failing && ListCall(kind, Scope(kind, namespace)) !in failing ==>
      IsListing(s.objects, kind, namespace, items)
  }

  // ------------------------------------------------------------- resolver

  /** What `getRhpamDev` makes of its list: the first item, or none. */
  function FirstRhpamDev(listed: Result<seq<Resource>, Error>): (r: Result<Option<Resource>, Error>)
    ensures listed.Failure? ==> r == Failure(listed.error)
    ensures listed.Success? && listed.value == [] ==> r == Success(None)
    ensures listed.Success? && listed.value != [] ==> r == Success(Some(listed.value[0]))
  {
    match listed
    case Failure(e) => Failure(e)
    case Success(items) => if items == [] then Success(None) else Success(Some(items[0]))
  }

  /** The not-found error the resolver reports for an unknown instance. */
  function InstanceNotFound(instanceId: string): Error {
    Error(NotFound, [RhpamDevNotFound(instanceId)])
  }

  /** The resolver's decision table, given what `getRhpamDev` found and what
      the namespace Get returned. */
  function LastOperation(instanceId: string, operation: string, dev: Result<Option<Resource>, Error>,
                         namespace: Result<Resource, ErrorKind>): (r: Result<LastOperationResponse, Error>)
    // polling a removal never fails, and is done exactly when the namespace is gone
    ensures operation == "remove" ==> r.Success? && (r.value.state == Succeeded <==> namespace == Failure(NotFound))
    ensures operation == "remove" ==> r.value.state != Failed
    // every other operation needs the RhpamDev: its lookup error is passed on
    // unchanged, and its absence is a not-found error naming the instance
    ensures operation != "remove" && dev.Failure? ==> r == Failure(dev.error)
    ensures operation != "remove" && dev == Success(None) ==> r == Failure(Error(NotFound, [RhpamDevNotFound(instanceId)]))
    ensures operation != "remove" ==> (r.Success? <==> dev.Success? && dev.value.Some?)
    // a removal is reported as deleted once the namespace is gone, and as deleting before
    ensures operation == "remove" && r.value.state == Succeeded ==> r.value.description == "rhpam has been deleted"
    ensures operation == "remove" && r.value.state != Succeeded ==> r.value == LastOperationResponse(InProgress, "rhpam is deleting")
    // a deployment is done exactly when the controller marked it complete
    ensures operation == "deploy" && r.Success? ==>
              r.value.state != Failed && (r.value.state == Succeeded <==> dev.value.value.phase == PhaseComplete)
    ensures operation == "deploy" && r.Success? && r.value.state == Succeeded ==>
              r.value.description == "rhpam deployed successfully"
    ensures operation == "deploy" && r.Success? && r.value.state != Succeeded ==>
              r.value == LastOperationResponse(InProgress, "rhpam is deploying")
    // any other operation is reported as failed, naming it
    ensures operation != "deploy" && operation != "remove" && r.Success? ==>
              r.value == LastOperationResponse(Failed, "unknown operation: " + operation)
  {
    if operation == "deploy" then
      match dev
      case Failure(e) => Failure(e)
      case Success(None) => Failure(InstanceNotFound(instanceId))
      case Success(Some(cr)) =>
        if cr.phase == PhaseComplete then Success(LastOperationResponse(Succeeded, "rhpam deployed successfully"))
        else Success(LastOperationResponse(InProgress, "rhpam is deploying"))
    else if operation == "remove" then
      if namespace.Failure? && namespace.error == NotFound then Success(LastOperationResponse(Succeeded, "rhpam has been deleted"))
      else Success(LastOperationResponse(InProgress, "rhpam is deleting"))
    else
      match dev
      case Failure(e) => Failure(e)
      case Success(None) => Failure(InstanceNotFound(instanceId))
      case Success(Some(_)) => Success(LastOperationResponse(Failed, "unknown operation: " + operation))
  }

  /** What a namespace Get returns on `s`. */
  function NamespaceLookup(s: State, failing: set<Call>, namespace: string): Result<Resource, ErrorKind> {
    var e := Exec(s, failing, Get(Namespace, "", namespace)).event.error;
    if e.Some? then Failure(e.value) else Success(s.objects[NamespaceKey(namespace)])
  }

  /** `dev` is a possible result of `getRhpamDev` on `s`: an error when the
      client or the list fails, otherwise the first of the listed RhpamDev
      resources in some server order, or none when there are none. */
  ghost predicate DevLookup(s: State, failing: set<Call>, namespace: string, dev: Result<Option<Resource>, Error>) {
    exists items :: Listed(s, failing, RhpamDev, namespace, items) &&
      dev == FirstRhpamDev(if ConnectCall(ResourceClient(RhpamDev)) in failing || ListCall(RhpamDev, namespace) in failing
                           then Failure(Error(ServerError, [])) else Success(items))
  }

  // ------------------------------------------------------------- deployer

  class RhpamDeployer {
    const cluster: Cluster
    /** The ROUTE_SUFFIX environment setting, read once at start-up. */
    const routeSuffix: Option<string>

    constructor (cluster: Cluster, routeSuffix: Option<string>)
      ensures this.cluster == cluster && this.routeSuffix == routeSuffix
    {
      this.cluster := cluster;
      this.routeSuffix := routeSuffix;
    }

    method Deploy(req: ProvisionRequest) returns (resp: ProvisionResponse, err: Option<Error>)
      requires cluster.Valid()
      modifies cluster
      ensures cluster.Valid()
      ensures Ran(cluster, ProvisionPlan(req.instanceId, req.username), err)
      ensures err.Some? ==> resp == ProvisionResponse(StatusInternalServerError, "", "")
      ensures err.None? ==> resp == ProvisionResponse(StatusAccepted, DashboardURL(NamespaceFor(req.instanceId), routeSuffix), "deploy")
    {
      ghost var s0, t0, f := cluster.Snapshot(), cluster.trace, cluster.failing;
      ghost var plan := ProvisionPlan(req.instanceId, req.username);
      resp := ProvisionResponse(StatusInternalServerError, "", "");
      Start(s0, t0, f, plan);

      // Namespace
      var created := cluster.Create("", NamespaceObj("rhpam-" + req.instanceId));
      Next(s0, t0, s0, t0, f, plan, plan.step, plan.next);
      if created.Failure? {
        err := Some(Wrap(Error(created.error, []), CreateNamespaceFailed));
        return;
      }
      var namespace := created.value.name;
      assert namespace == NamespaceFor(req.instanceId);
      ghost var cur, t := cluster.Snapshot(), cluster.trace;

      err := PopulateNamespace(namespace, req.username);
      Last(s0, t0, cur, t, cluster.Snapshot(), cluster.trace, f, plan, TenantPlan(namespace, req.username), err);
      if err.Some? {
        return;
      }
      resp := ProvisionResponse(StatusAccepted, "https://rhpam-bc-" + RouteHostname(namespace, routeSuffix), "deploy");
    }

    /** The part of `Deploy` that follows the namespace's creation. */
    method PopulateNamespace(namespace: string, username: string) returns (err: Option<Error>)
      requires cluster.Valid()
      modifies cluster
      ensures cluster.Valid()
      ensures Ran(cluster, TenantPlan(namespace, username), err)
    {
      ghost var s0, t0, f := cluster.Snapshot(), cluster.trace, cluster.failing;
      ghost var plan := TenantPlan(namespace, username);
      ghost var rest := plan;
      ghost var cur, t := s0, t0;
      Start(s0, t0, f, plan);

      // ServiceAccount
      var r := cluster.Create(namespace, ServiceAccountObj());
      Next(s0, t0, cur, t, f, plan, rest.step, rest.next);
      if r.Failure? {
        return Some(Wrap(Error(r.error, []), CreateServiceAccountFailed));
      }
      cur, t, rest := cluster.Snapshot(), cluster.trace, rest.next;

      // Role
      r := cluster.Create(namespace, RoleObj());
      Next(s0, t0, cur, t, f, plan, rest.step, rest.next);
      if r.Failure? {
        return Some(Wrap(Error(r.error, []), CreateRoleFailed));
      }
      cur, t, rest := cluster.Snapshot(), cluster.trace, rest.next;

      // Role for user
      r := cluster.Create(namespace, UserRoleObj());
      Next(s0, t0, cur, t, f, plan, rest.step, rest.next);
      if r.Failure? {
        return Some(Wrap(Error(r.error, []), CreateUserRoleFailed));
      }
      cur, t := cluster.Snapshot(), cluster.trace;

      // RoleBindings
      err := CreateRoleBindings(namespace, username);
      NextRun(s0, t0, cur, t, cluster.Snapshot(), cluster.trace, f, plan,
              RoleBindingsPlan(namespace, username), ClusterRbacAndWorkloadsPlan(namespace), err);
      if err.Some? {
        return;
      }
      cur, t := cluster.Snapshot(), cluster.trace;

      err := CreateClusterRbacAndWorkloads(namespace);
      Last(s0, t0, cur, t, cluster.Snapshot(), cluster.trace, f, plan, ClusterRbacAndWorkloadsPlan(namespace), err);
    }

    /** The part of `Deploy` that follows the role bindings: the cluster role
        and its binding, the operator, and the two custom resources. */
    method CreateClusterRbacAndWorkloads(namespace: string) returns (err: Option<Error>)
      requires cluster.Valid()
      modifies cluster
      ensures cluster.Valid()
      ensures Ran(cluster, ClusterRbacAndWorkloadsPlan(namespace), err)
    {
      ghost var s0, t0, f := cluster.Snapshot(), cluster.trace, cluster.failing;
      ghost var plan := ClusterRbacAndWorkloadsPlan(namespace);
      Start(s0, t0, f, plan);

      // Clusterrole
      var r := cluster.Create("", ClusterRoleObj(namespace));
      Next(s0, t0, s0, t0, f, plan, plan.step, plan.next);
      if r.Failure? {
        return Some(Wrap(Error(r.error, []), CreateClusterRoleFailed));
      }
      ghost var cur, t := cluster.Snapshot(), cluster.trace;

      // ClusterRoleBinding
      r := cluster.Create("", ClusterRoleBindingObj(namespace));
      Next(s0, t0, cur, t, f, plan, plan.next.step, plan.next.next);
      if r.Failure? {
        return Some(Wrap(Error(r.error, []), CreateClusterRoleBindingFailed));
      }
      cur, t := cluster.Snapshot(), cluster.trace;

      // DeploymentConfig
      err := CreateRhpamOperator(namespace);
      NextRun(s0, t0, cur, t, cluster.Snapshot(), cluster.trace, f, plan, OperatorPlan(namespace), CustomResourcesPlan(namespace), err);
      if err.Some? {
        return;
      }
      cur, t := cluster.Snapshot(), cluster.trace;

      // Rhpam custom resources
      err := CreateCustomResource(namespace, RhpamDevObj(namespace));
      NextRun(s0, t0, cur, t, cluster.Snapshot(), cluster.trace, f, plan,
              CustomResourcePlan(namespace, RhpamDevObj(namespace)), CustomResourcePlan(namespace, RhpamUserObj(namespace)), err);
      if err.Some? {
        return;
      }
      cur, t := cluster.Snapshot(), cluster.trace;

      err := CreateCustomResource(namespace, RhpamUserObj(namespace));
      Last(s0, t0, cur, t, cluster.Snapshot(), cluster.trace, f, plan, CustomResourcePlan(namespace, RhpamUserObj(namespace)), err);
    }

    method CreateRoleBindings(namespace: string, username: string) returns (err: Option<Error>)
      requires cluster.Valid()
      modifies cluster
      ensures cluster.Valid()
      ensures Ran(cluster, RoleBindingsPlan(namespace, username), err)
    {
      ghost var s0, t0, f := cluster.Snapshot(), cluster.trace, cluster.failing;
      ghost var plan := RoleBindingsPlan(namespace, username);
      ghost var tail := OperatorBindingsPlan(namespace, username);
      var bindings := SystemRoleBindings(namespace);
      Start(s0, t0, f, plan);
      assert bindings[0..] == bindings;
      for i := 0 to |bindings|
        invariant cluster.Valid()
        invariant UpTo(s0, t0, cluster.Snapshot(), cluster.trace, f, plan, SystemBindingsPlan(namespace, bindings[i..], tail), None)
      {
        ghost var cur, t := cluster.Snapshot(), cluster.trace;
        var r := cluster.Create(namespace, bindings[i]);
        assert bindings[i..][0] == bindings[i] && bindings[i..][1..] == bindings[i + 1..];
        Next(s0, t0, cur, t, f, plan, SystemBindingStep(namespace, bindings[i]), SystemBindingsPlan(namespace, bindings[i + 1..], tail));
        if r.Failure? && r.error != AlreadyExists {
          return Some(Wrap(Error(r.error, []), CreateRoleBindingFailed(bindings[i].meta.name)));
        }
      }
      assert bindings[|bindings|..] == [];

      ghost var cur, t := cluster.Snapshot(), cluster.trace;
      var r := cluster.Create(namespace, InstallRoleBindingObj());
      Next(s0, t0, cur, t, f, plan, tail.step, tail.next);
      if r.Failure? {
        return Some(Wrap(Error(r.error, []), CreateInstallRoleBindingFailed));
      }
      cur, t := cluster.Snapshot(), cluster.trace;

      r := cluster.Create(namespace, PlaceholderBindingObj("user-role-binding-"));
      Next(s0, t0, cur, t, f, plan, tail.next.step, tail.next.next);
      if r.Failure? {
        return Some(Wrap(Error(r.error, []), CreateUserRoleBindingFailed));
      }
      cur, t := cluster.Snapshot(), cluster.trace;

      err := CreateAuthorizationBindings(namespace, username);
      Last(s0, t0, cur, t, cluster.Snapshot(), cluster.trace, f, plan, AuthorizationBindingsPlan(namespace, username), err);
    }

    /** The second half of `createRoleBindings`: the bindings made through
        the OpenShift authorization client. */
    method CreateAuthorizationBindings(namespace: string, username: string) returns (err: Option<Error>)
      requires cluster.Valid()
      modifies cluster
      ensures cluster.Valid()
      ensures Ran(cluster, AuthorizationBindingsPlan(namespace, username), err)
    {
      ghost var s0, t0, f := cluster.Snapshot(), cluster.trace, cluster.failing;
      ghost var plan := AuthorizationBindingsPlan(namespace, username);
      ghost var rest := plan;
      ghost var cur, t := s0, t0;
      Start(s0, t0, f, plan);

      var e := cluster.Connect(AuthClient);
      Next(s0, t0, cur, t, f, plan, rest.step, rest.next);
      if e.Some? {
        return Some(Wrap(Error(e.value, []), AuthorizationClientFailed));
      }
      cur, t, rest := cluster.Snapshot(), cluster.trace, rest.next;

      var r := cluster.Create(namespace, OperatorAccessBindingObj("view"));
      Next(s0, t0, cur, t, f, plan, rest.step, rest.next);
      if r.Failure? {
        return Some(Wrap(Error(r.error, []), CreateViewRoleBindingFailed));
      }
      cur, t, rest := cluster.Snapshot(), cluster.trace, rest.next;

      r := cluster.Create(namespace, OperatorAccessBindingObj("edit"));
      Next(s0, t0, cur, t, f, plan, rest.step, rest.next);
      if r.Failure? {
        return Some(Wrap(Error(r.error, []), CreateEditRoleBindingFailed));
      }
      cur, t, rest := cluster.Snapshot(), cluster.trace, rest.next;

      r := cluster.Create(namespace, UserViewRoleBindingObj(namespace, username));
      Next(s0, t0, cur, t, f, plan, rest.step, rest.next);
      if r.Failure? {
        return Some(Wrap(Error(r.error, []), CreateUserViewRoleBindingFailed));
      }
      cur, t, rest := cluster.Snapshot(), cluster.trace, rest.next;

      r := cluster.Create(namespace, PlaceholderBindingObj("user-edit-role-binding-"));
      Next(s0, t0, cur, t, f, plan, rest.step, rest.next);
      if r.Failure? {
        return Some(Wrap(Error(r.error, []), CreateUserEditRoleBindingFailed));
      }
      Finished(s0, t0, cluster.Snapshot(), cluster.trace, f, plan);
      return None;
    }

    method CreateRhpamOperator(namespace: string) returns (err: Option<Error>)
      requires cluster.Valid()
      modifies cluster
      ensures cluster.Valid()
      ensures Ran(cluster, OperatorPlan(namespace), err)
    {
      ghost var s0, t0, f := cluster.Snapshot(), cluster.trace, cluster.failing;
      ghost var plan := OperatorPlan(namespace);
      Start(s0, t0, f, plan);
      var e := cluster.Connect(AppsClient);
      Next(s0, t0, s0, t0, f, plan, plan.step, plan.next);
      if e.Some? {
        return Some(Wrap(Error(e.value, []), DeploymentConfigClientFailed));
      }
      ghost var cur, t := cluster.Snapshot(), cluster.trace;
      var r := cluster.Create(namespace, DeploymentConfigObj());
      Next(s0, t0, cur, t, f, plan, plan.next.step, Done);
      if r.Failure? {
        return Some(Wrap(Error(r.error, []), CreateDeploymentConfigFailed));
      }
      Finished(s0, t0, cluster.Snapshot(), cluster.trace, f, plan);
      return None;
    }

    /** `createRhpamDevCustomResource` and `createRhpamUserCustomResource`. */
    method CreateCustomResource(namespace: string, o: Object) returns (err: Option<Error>)
      requires cluster.Valid()
      modifies cluster
      ensures cluster.Valid()
      ensures Ran(cluster, CustomResourcePlan(namespace, o), err)
    {
      ghost var s0, t0, f := cluster.Snapshot(), cluster.trace, cluster.failing;
      ghost var plan := CustomResourcePlan(namespace, o);
      Start(s0, t0, f, plan);
      var e := cluster.Connect(ResourceClient(o.kind));
      Next(s0, t0, s0, t0, f, plan, plan.step, plan.next);
      if e.Some? {
        return Some(Error(e.value, []));
      }
      ghost var cur, t := cluster.Snapshot(), cluster.trace;
      var r := cluster.Create(namespace, o);
      Next(s0, t0, cur, t, f, plan, plan.next.step, Done);
      if r.Failure? {
        return Some(Error(r.error, []));
      }
      Finished(s0, t0, cluster.Snapshot(), cluster.trace, f, plan);
      return None;
    }

    /** `deleteRhpamDevCustomResources` and `deleteRhpamUserCustomResources`:
        list, then delete item by item in list order, stopping at the first error. */
    method DeleteCustomResources(kind: Kind, namespace: string) returns (err: Option<Error>, ghost items: seq<Resource>)
      requires cluster.Valid()
      modifies cluster
      ensures cluster.Valid()
      ensures Listed(old(cluster.Snapshot()), cluster.failing, kind, namespace, items)
      ensures Ran(cluster, DeleteAllPlan(kind, namespace, items), err)
    {
      ghost var s0, t0, f := cluster.Snapshot(), cluster.trace, cluster.failing;
      ghost var connect := Step(Connect(ResourceClient(kind)), Strict, []);
      ghost var list := Step(List(kind, namespace), Strict, []);
      items := [];
      var e := cluster.Connect(ResourceClient(kind));
      ghost var t1 := cluster.trace;
      if e.Some? {
        Start(s0, t0, f, DeleteAllPlan(kind, namespace, items));
        Next(s0, t0, s0, t0, f, DeleteAllPlan(kind, namespace, items), connect, Do(list, Done));
        return Some(Error(e.value, [])), items;
      }
      var listed := cluster.List(kind, namespace);
      var listedItems := if listed.Success? then listed.value else [];
      items := listedItems;
      ghost var plan := DeleteAllPlan(kind, namespace, items);
      Start(s0, t0, f, plan);
      Next(s0, t0, s0, t0, f, plan, connect, Do(list, DeleteEachPlan(kind, namespace, items)));
      Next(s0, t0, s0, t1, f, plan, list, DeleteEachPlan(kind, namespace, items));
      if listed.Failure? {
        return Some(Error(listed.error, [])), items;
      }
      assert items[0..] == items;
      for i := 0 to |listedItems|
        invariant cluster.Valid()
        invariant UpTo(s0, t0, cluster.Snapshot(), cluster.trace, f, plan, DeleteEachPlan(kind, namespace, items[i..]), None)
      {
        ghost var cur, t := cluster.Snapshot(), cluster.trace;
        err := DeleteCustomResource(kind, namespace, listedItems[i].name);
        assert items[i..][0] == items[i] && items[i..][1..] == items[i + 1..];
        NextRun(s0, t0, cur, t, cluster.Snapshot(), cluster.trace, f, plan,
                DeleteOnePlan(kind, namespace, items[i].name), DeleteEachPlan(kind, namespace, items[i + 1..]), err);
        if err.Some? {
          return;
        }
      }
      assert items[|items|..] == [];
      Finished(s0, t0, cluster.Snapshot(), cluster.trace, f, plan);
      err := None;
    }

    /** `deleteRhpamDevCustomResource` and `deleteRhpamUserCustomResource`. */
    method DeleteCustomResource(kind: Kind, namespace: string, name: string) returns (err: Option<Error>)
      requires cluster.Valid()
      modifies cluster
      ensures cluster.Valid()
      ensures Ran(cluster, DeleteOnePlan(kind, namespace, name), err)
    {
      ghost var s0, t0, f := cluster.Snapshot(), cluster.trace, cluster.failing;
      ghost var plan := DeleteOnePlan(kind, namespace, name);
      Start(s0, t0, f, plan);
      var e := cluster.Connect(ResourceClient(kind));
      Next(s0, t0, s0, t0, f, plan, plan.step, plan.next);
      if e.Some? {
        return Some(Error(e.value, []));
      }
      ghost var cur, t := cluster.Snapshot(), cluster.trace;
      e := cluster.Delete(kind, namespace, name);
      Next(s0, t0, cur, t, f, plan, plan.next.step, Done);
      if e.Some? {
        return Some(Error(e.value, []));
      }
      Finished(s0, t0, cluster.Snapshot(), cluster.trace, f, plan);
      return None;
    }

    method RemoveDeploy(req: DeprovisionRequest)
      returns (resp: DeprovisionResponse, err: Option<Error>, ghost users: seq<Resource>, ghost devs: seq<Resource>)
      requires cluster.Valid()
      modifies cluster
      ensures cluster.Valid()
      ensures Listed(old(cluster.Snapshot()), cluster.failing, RhpamUser, NamespaceFor(req.instanceId), users)
      ensures var afterUsers := Run(old(cluster.Snapshot()), cluster.failing, UserResourcesPlan(NamespaceFor(req.instanceId), users));
              afterUsers.error.None? ==> Listed(afterUsers.state, cluster.failing, RhpamDev, NamespaceFor(req.instanceId), devs)
      ensures Ran(cluster, DeprovisionPlan(req.instanceId, users, devs), err)
      ensures resp == DeprovisionResponse(if err.None? then "remove" else "")
    {
      ghost var s0, t0, f := cluster.Snapshot(), cluster.trace, cluster.failing;
      var ns := "rhpam-" + req.instanceId;
      var userMessage := DeleteRhpamUsersFailed(ns);
      var devMessage := DeleteRhpamDevsFailed(ns);
      resp := DeprovisionResponse("");
      devs := [];
      err, users := DeleteCustomResources(RhpamUser, ns);
      ReachedWrapped(s0, t0, cluster.Snapshot(), cluster.trace, f, DeleteAllPlan(RhpamUser, ns, users), userMessage, err);
      if err.Some? {
        err := Some(Wrap(err.value, userMessage));
        Extend(s0, t0, cluster.Snapshot(), cluster.trace, f, UserResourcesPlan(ns, users),
               Append(DevResourcesPlan(ns, devs), TeardownPlan(ns)), err);
        return;
      }

      ghost var s1, t1 := cluster.Snapshot(), cluster.trace;
      err, devs := DeleteCustomResources(RhpamDev, ns);
      ReachedWrapped(s1, t1, cluster.Snapshot(), cluster.trace, f, DeleteAllPlan(RhpamDev, ns, devs), devMessage, err);
      ghost var plan := DeprovisionPlan(req.instanceId, users, devs);
      Start(s0, t0, f, plan);
      NextRun(s0, t0, s0, t0, s1, t1, f, plan, UserResourcesPlan(ns, users), Append(DevResourcesPlan(ns, devs), TeardownPlan(ns)), None);
      if err.Some? {
        err := Some(Wrap(err.value, devMessage));
        NextRun(s0, t0, s1, t1, cluster.Snapshot(), cluster.trace, f, plan, DevResourcesPlan(ns, devs), TeardownPlan(ns), err);
        return;
      }
      NextRun(s0, t0, s1, t1, cluster.Snapshot(), cluster.trace, f, plan, DevResourcesPlan(ns, devs), TeardownPlan(ns), None);
      ghost var rest := TeardownPlan(ns);

      // Clusterrole binding
      ghost var cur, t := cluster.Snapshot(), cluster.trace;
      var e := cluster.Delete(ClusterRoleBinding, "", "rhpam-dev-operator-" + ns);
      Next(s0, t0, cur, t, f, plan, rest.step, rest.next);
      if e.Some? {
        err := Some(Wrap(Error(e.value, []), DeleteClusterRoleBindingFailed));
        return;
      }
      cur, t, rest := cluster.Snapshot(), cluster.trace, rest.next;

      // Clusterrole
      e := cluster.Delete(ClusterRole, "", "rhpam-dev-operator-" + ns);
      Next(s0, t0, cur, t, f, plan, rest.step, rest.next);
      if e.Some? {
        err := Some(Wrap(Error(e.value, []), DeleteClusterRoleFailed));
        return;
      }
      cur, t, rest := cluster.Snapshot(), cluster.trace, rest.next;

      e := cluster.Delete(Namespace, "", ns);
      Next(s0, t0, cur, t, f, plan, rest.step, rest.next);
      if e.Some? && e.value != NotFound {
        err := Some(Wrap(Error(e.value, []), DeleteNamespaceFailed(ns)));
        return;
      }
      Finished(s0, t0, cluster.Snapshot(), cluster.trace, f, plan);
      err := None;
      resp := DeprovisionResponse("remove");
    }

    method ServiceInstanceLastOperation(req: LastOperationRequest)
      returns (r: Result<LastOperationResponse, Error>, ghost dev: Result<Option<Resource>, Error>)
      requires cluster.Valid()
      modifies cluster`trace
      ensures cluster.Snapshot() == old(cluster.Snapshot())
      ensures req.operation == "remove" ==>
        cluster.trace == old(cluster.trace) + [Exec(cluster.Snapshot(), cluster.failing, Get(Namespace, "", NamespaceFor(req.instanceId))).event]
      ensures req.operation != "remove" ==>
        cluster.trace == old(cluster.trace) + Run(cluster.Snapshot(), cluster.failing, DevLookupPlan(NamespaceFor(req.instanceId))).events
      ensures req.operation != "remove" ==> DevLookup(cluster.Snapshot(), cluster.failing, NamespaceFor(req.instanceId), dev)
      ensures r == LastOperation(req.instanceId, req.operation, dev,
                                 NamespaceLookup(cluster.Snapshot(), cluster.failing, NamespaceFor(req.instanceId)))
    {
      var namespace := "rhpam-" + req.instanceId;
      dev := Success(None);
      if req.operation == "remove" {
        var got := cluster.Get(Namespace, "", namespace);
        if got.Failure? && got.error == NotFound {
          return Success(LastOperationResponse(Succeeded, "rhpam has been deleted")), dev;
        }
        return Success(LastOperationResponse(InProgress, "rhpam is deleting")), dev;
      }
      var cr := GetRhpamDev(namespace);
      dev := cr;
      if cr.Failure? {
        return Failure(cr.error), dev;
      }
      if cr.value.None? {
        return Failure(InstanceNotFound(req.instanceId)), dev;
      }
      if req.operation == "deploy" {
        if cr.value.value.phase == PhaseComplete {
          return Success(LastOperationResponse(Succeeded, "rhpam deployed successfully")), dev;
        }
        return Success(LastOperationResponse(InProgress, "rhpam is deploying")), dev;
      }
      return Success(LastOperationResponse(Failed, "unknown operation: " + req.operation)), dev;
    }

    /** `getRhpamDev`: a client, the list, and the first item of it. */
    method GetRhpamDev(namespace: string) returns (r: Result<Option<Resource>, Error>)
      requires cluster.Valid()
      modifies cluster`trace
      ensures cluster.Snapshot() == old(cluster.Snapshot())
      ensures cluster.trace == old(cluster.trace) + Run(cluster.Snapshot(), cluster.failing, DevLookupPlan(namespace)).events
      ensures DevLookup(cluster.Snapshot(), cluster.failing, namespace, r)
    {
      ghost var plan := DevLookupPlan(namespace);
      var e := cluster.Connect(ResourceClient(RhpamDev));
      ghost var connected := Exec(cluster.Snapshot(), cluster.failing, plan.step.action).event;
      if e.Some? {
        assert Run(cluster.Snapshot(), cluster.failing, plan).events == [connected];
        r := Failure(Error(e.value, []));
        assert Listed(cluster.Snapshot(), cluster.failing, RhpamDev, namespace, []);
        return;
      }
      var listed := cluster.List(RhpamDev, namespace);
      ghost var lister := Exec(cluster.Snapshot(), cluster.failing, plan.next.step.action).event;
      assert Run(cluster.Snapshot(), cluster.failing, plan.next).events == [lister];
      assert Run(cluster.Snapshot(), cluster.failing, plan).events == [connected, lister];
      if listed.Failure? {
        r := FirstRhpamDev(Failure(Error(listed.error, [])));
        assert Listed(cluster.Snapshot(), cluster.failing, RhpamDev, namespace, []);
        return;
      }
      r := FirstRhpamDev(Success(listed.value));
      assert Listed(cluster.Snapshot(), cluster.failing, RhpamDev, namespace, listed.value);
    }
  }
}
