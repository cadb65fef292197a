/** What the deployer's pipelines promise, stated about their plans and
    about `Run` of those plans, which the methods of `RhpamDeployer` are
    proved to follow. */
module DeployerProperties {
  import opened Wrappers
  import opened Objects
  import opened Cluster
  import opened Pipeline
  import opened Deployer
  import opened Messages

  // ------------------------------------------------ reading plans

  /** The kinds of the objects a plan creates, in the order it creates them. */
  function CreatedKinds(p: Plan): seq<Kind>
    decreases p
  {
    match p
    case Done => []
    case Do(st, next) => if st.action.Create? then [st.action.obj.kind] + CreatedKinds(next) else CreatedKinds(next)
  }

  /** The delete calls of a plan, in order. */
  function Deleted(p: Plan): seq<Action>
    decreases p
  {
    match p
    case Done => []
    case Do(st, next) => if st.action.Delete? then [st.action] + Deleted(next) else Deleted(next)
  }

  /** The steps of a plan that let some error pass, in order. */
  function Tolerant(p: Plan): seq<Step>
    decreases p
  {
    match p
    case Done => []
    case Do(st, next) => if st.tolerance.Tolerate? then [st] + Tolerant(next) else Tolerant(next)
  }

  /** The step creates the object stored under `key`, and lets no error
      through that would leave it missing. */
  predicate CreatesKey(st: Step, key: Key) {
    && st.action.Create?
    && st.action.obj.meta.name != ""
    && key == Key(st.action.obj.kind, Scope(st.action.obj.kind, st.action.namespace), st.action.obj.meta.name)
    && (st.tolerance == Strict || st.tolerance == Tolerate(AlreadyExists))
  }

  /** The step deletes `key`, and lets no error through but "not found". */
  predicate DeletesKey(st: Step, key: Key) {
    && st.action.Delete?
    && key == Key(st.action.kind, Scope(st.action.kind, st.action.namespace), st.action.name)
    && (st.tolerance == Strict || st.tolerance == Tolerate(NotFound))
  }

  predicate Creates(p: Plan, key: Key)
    decreases p
  {
    match p
    case Done => false
    case Do(st, next) => CreatesKey(st, key) || Creates(next, key)
  }

  predicate Deletes(p: Plan, key: Key)
    decreases p
  {
    match p
    case Done => false
    case Do(st, next) => DeletesKey(st, key) || Deletes(next, key)
  }

  lemma {:induction false} CreatedKindsAppend(p: Plan, q: Plan)
    ensures CreatedKinds(Append(p, q)) == CreatedKinds(p) + CreatedKinds(q)
    decreases p
  {
    match p
    case Done =>
    case Do(st, next) =>
      CreatedKindsAppend(next, q);
      if st.action.Create? {
        assert [st.action.obj.kind] + (CreatedKinds(next) + CreatedKinds(q)) == ([st.action.obj.kind] + CreatedKinds(next)) + CreatedKinds(q);
      }
  }

  lemma {:induction false} DeletedAppend(p: Plan, q: Plan)
    ensures Deleted(Append(p, q)) == Deleted(p) + Deleted(q)
    decreases p
  {
    match p
    case Done =>
    case Do(st, next) =>
      DeletedAppend(next, q);
      if st.action.Delete? {
        assert [st.action] + (Deleted(next) + Deleted(q)) == ([st.action] + Deleted(next)) + Deleted(q);
      }
  }

  lemma {:induction false} TolerantAppend(p: Plan, q: Plan)
    ensures Tolerant(Append(p, q)) == Tolerant(p) + Tolerant(q)
    decreases p
  {
    match p
    case Done =>
    case Do(st, next) =>
      TolerantAppend(next, q);
      if st.tolerance.Tolerate? {
        assert [st] + (Tolerant(next) + Tolerant(q)) == ([st] + Tolerant(next)) + Tolerant(q);
      }
  }

  lemma {:induction false} CreatesAppend(p: Plan, q: Plan, key: Key)
    requires Creates(p, key) || Creates(q, key)
    ensures Creates(Append(p, q), key)
    decreases p
  {
    match p
    case Done =>
    case Do(st, next) =>
      if !CreatesKey(st, key) {
        CreatesAppend(next, q, key);
      }
  }

  lemma {:induction false} DeletesAppend(p: Plan, q: Plan, key: Key)
    requires Deletes(q, key)
    ensures Deletes(Append(p, q), key)
    decreases p
  {
    match p
    case Done =>
    case Do(_, next) => DeletesAppend(next, q, key);
  }

  /** Wrapping errors in a message leaves a plan's calls and tolerances as they are. */
  lemma {:induction false} WrappedKeepsCalls(p: Plan, message: Message)
    ensures Deleted(Wrapped(p, message)) == Deleted(p)
    ensures Tolerant(p) == [] ==> Tolerant(Wrapped(p, message)) == []
    ensures NeverCreates(p) ==> NeverCreates(Wrapped(p, message))
    decreases p
  {
    match p
    case Done =>
    case Do(_, next) => WrappedKeepsCalls(next, message);
  }

  // ------------------------------------------------ Deploy: order and tolerance

  lemma SystemBindingsShape(namespace: string, bindings: seq<Object>, next: Plan)
    ensures CreatedKinds(SystemBindingsPlan(namespace, bindings, next)) ==
            seq(|bindings|, i requires 0 <= i < |bindings| => bindings[i].kind) + CreatedKinds(next)
    ensures Tolerant(SystemBindingsPlan(namespace, bindings, next)) ==
            seq(|bindings|, i requires 0 <= i < |bindings| => SystemBindingStep(namespace, bindings[i])) + Tolerant(next)
    ensures NeverDeletes(next) ==> NeverDeletes(SystemBindingsPlan(namespace, bindings, next))
  {
    SystemBindingsKinds(namespace, bindings, next);
    SystemBindingsTolerant(namespace, bindings, next);
  }

  lemma {:induction false} SystemBindingsKinds(namespace: string, bindings: seq<Object>, next: Plan)
    ensures CreatedKinds(SystemBindingsPlan(namespace, bindings, next)) ==
            seq(|bindings|, i requires 0 <= i < |bindings| => bindings[i].kind) + CreatedKinds(next)
    decreases |bindings|
  {
    if bindings != [] {
      var rest := bindings[1..];
      SystemBindingsKinds(namespace, rest, next);
      var kinds := seq(|rest|, i requires 0 <= i < |rest| => rest[i].kind);
      assert seq(|bindings|, i requires 0 <= i < |bindings| => bindings[i].kind) == [bindings[0].kind] + kinds;
    }
  }

  lemma {:induction false} SystemBindingsTolerant(namespace: string, bindings: seq<Object>, next: Plan)
    ensures Tolerant(SystemBindingsPlan(namespace, bindings, next)) ==
            seq(|bindings|, i requires 0 <= i < |bindings| => SystemBindingStep(namespace, bindings[i])) + Tolerant(next)
    ensures NeverDeletes(next) ==> NeverDeletes(SystemBindingsPlan(namespace, bindings, next))
    decreases |bindings|
  {
    if bindings != [] {
      var rest := bindings[1..];
      SystemBindingsTolerant(namespace, rest, next);
      var steps := seq(|rest|, i requires 0 <= i < |rest| => SystemBindingStep(namespace, rest[i]));
      assert seq(|bindings|, i requires 0 <= i < |bindings| => SystemBindingStep(namespace, bindings[i]))
          == [SystemBindingStep(namespace, bindings[0])] + steps;
    }
  }

  lemma CustomResourcePlanShape(namespace: string, o: Object)
    ensures CreatedKinds(CustomResourcePlan(namespace, o)) == [o.kind]
    ensures Tolerant(CustomResourcePlan(namespace, o)) == []
    ensures NeverDeletes(CustomResourcePlan(namespace, o))
  {
    var p := CustomResourcePlan(namespace, o);
    assert CreatedKinds(p.next) == [o.kind] && Tolerant(p.next) == [] && NeverDeletes(p.next);
  }

  lemma OperatorPlanShape(namespace: string)
    ensures CreatedKinds(OperatorPlan(namespace)) == [DeploymentConfig]
    ensures Tolerant(OperatorPlan(namespace)) == []
    ensures NeverDeletes(OperatorPlan(namespace))
  {
    var p := OperatorPlan(namespace);
    assert CreatedKinds(p.next) == [DeploymentConfig] && Tolerant(p.next) == [] && NeverDeletes(p.next);
  }

  lemma AuthorizationBindingsShape(namespace: string, username: string)
    ensures CreatedKinds(AuthorizationBindingsPlan(namespace, username)) == [RoleBinding, RoleBinding, RoleBinding, RoleBinding]
    ensures Tolerant(AuthorizationBindingsPlan(namespace, username)) == []
    ensures NeverDeletes(AuthorizationBindingsPlan(namespace, username))
  {
    var p := AuthorizationBindingsPlan(namespace, username);
    var p4 := p.next.next.next.next;
    assert CreatedKinds(p4) == [RoleBinding] && Tolerant(p4) == [] && NeverDeletes(p4);
    assert CreatedKinds(p.next.next.next) == [RoleBinding, RoleBinding];
    assert Tolerant(p.next.next.next) == [] && NeverDeletes(p.next.next.next);
    assert CreatedKinds(p.next.next) == [RoleBinding, RoleBinding, RoleBinding];
    assert Tolerant(p.next.next) == [] && NeverDeletes(p.next.next);
    assert CreatedKinds(p.next) == [RoleBinding, RoleBinding, RoleBinding, RoleBinding];
    assert Tolerant(p.next) == [] && NeverDeletes(p.next);
  }

  lemma OperatorBindingsShape(namespace: string, username: string)
    ensures CreatedKinds(OperatorBindingsPlan(namespace, username)) == [RoleBinding, RoleBinding, RoleBinding, RoleBinding, RoleBinding, RoleBinding]
    ensures Tolerant(OperatorBindingsPlan(namespace, username)) == []
    ensures NeverDeletes(OperatorBindingsPlan(namespace, username))
  {
    var p := OperatorBindingsPlan(namespace, username);
    AuthorizationBindingsShape(namespace, username);
    assert CreatedKinds(p.next) == [RoleBinding, RoleBinding, RoleBinding, RoleBinding, RoleBinding];
    assert Tolerant(p.next) == [] && NeverDeletes(p.next);
  }

  lemma RoleBindingsShape(namespace: string, username: string)
    ensures CreatedKinds(RoleBindingsPlan(namespace, username)) ==
            [RoleBinding, RoleBinding, RoleBinding, RoleBinding, RoleBinding, RoleBinding, RoleBinding, RoleBinding, RoleBinding]
    ensures var b := SystemRoleBindings(namespace);
            Tolerant(RoleBindingsPlan(namespace, username)) ==
            [SystemBindingStep(namespace, b[0]), SystemBindingStep(namespace, b[1]), SystemBindingStep(namespace, b[2])]
    ensures NeverDeletes(RoleBindingsPlan(namespace, username))
  {
    var b := SystemRoleBindings(namespace);
    OperatorBindingsShape(namespace, username);
    SystemBindingsShape(namespace, b, OperatorBindingsPlan(namespace, username));
    assert seq(|b|, i requires 0 <= i < |b| => b[i].kind) == [RoleBinding, RoleBinding, RoleBinding];
    assert seq(|b|, i requires 0 <= i < |b| => SystemBindingStep(namespace, b[i]))
        == [SystemBindingStep(namespace, b[0]), SystemBindingStep(namespace, b[1]), SystemBindingStep(namespace, b[2])];
  }

  lemma ClusterRbacAndWorkloadsShape(namespace: string)
    ensures CreatedKinds(ClusterRbacAndWorkloadsPlan(namespace)) == [ClusterRole, ClusterRoleBinding, DeploymentConfig, RhpamDev, RhpamUser]
    ensures Tolerant(ClusterRbacAndWorkloadsPlan(namespace)) == []
    ensures NeverDeletes(ClusterRbacAndWorkloadsPlan(namespace))
  {
    var dev, user := CustomResourcePlan(namespace, RhpamDevObj(namespace)), CustomResourcePlan(namespace, RhpamUserObj(namespace));
    CustomResourcePlanShape(namespace, RhpamDevObj(namespace));
    CustomResourcePlanShape(namespace, RhpamUserObj(namespace));
    OperatorPlanShape(namespace);
    CreatedKindsAppend(dev, user);
    TolerantAppend(dev, user);
    NeverDeletesAppend(dev, user);
    CreatedKindsAppend(OperatorPlan(namespace), CustomResourcesPlan(namespace));
    TolerantAppend(OperatorPlan(namespace), CustomResourcesPlan(namespace));
    NeverDeletesAppend(OperatorPlan(namespace), CustomResourcesPlan(namespace));
    var p := ClusterRbacAndWorkloadsPlan(namespace);
    assert CreatedKinds(p.next) == [ClusterRoleBinding, DeploymentConfig, RhpamDev, RhpamUser];
    assert Tolerant(p.next) == [] && NeverDeletes(p.next);
  }

  lemma TenantPlanKinds(namespace: string, username: string)
    ensures CreatedKinds(TenantPlan(namespace, username)) ==
            [ServiceAccount, Role, Role] + CreatedKinds(RoleBindingsPlan(namespace, username))
            + CreatedKinds(ClusterRbacAndWorkloadsPlan(namespace))
  {
    var bindings, rbac := RoleBindingsPlan(namespace, username), ClusterRbacAndWorkloadsPlan(namespace);
    CreatedKindsAppend(bindings, rbac);
    var p := TenantPlan(namespace, username);
    assert p.next.next.next == Append(bindings, rbac);
    assert CreatedKinds(p.next.next) == [Role] + CreatedKinds(bindings) + CreatedKinds(rbac);
  }

  lemma TenantPlanTolerance(namespace: string, username: string)
    ensures var b := SystemRoleBindings(namespace);
            Tolerant(TenantPlan(namespace, username)) ==
            [SystemBindingStep(namespace, b[0]), SystemBindingStep(namespace, b[1]), SystemBindingStep(namespace, b[2])]
    ensures NeverDeletes(TenantPlan(namespace, username))
  {
    var bindings, rbac := RoleBindingsPlan(namespace, username), ClusterRbacAndWorkloadsPlan(namespace);
    RoleBindingsShape(namespace, username);
    ClusterRbacAndWorkloadsShape(namespace);
    TolerantAppend(bindings, rbac);
    NeverDeletesAppend(bindings, rbac);
    var p := TenantPlan(namespace, username);
    assert p.next.next.next == Append(bindings, rbac);
    assert Tolerant(p.next.next) == Tolerant(p.next.next.next) && NeverDeletes(p.next.next);
    assert Tolerant(p.next) == Tolerant(p.next.next) && NeverDeletes(p.next);
  }

  /** `Deploy` creates, in this order: the namespace, the service account,
      the operator's role, the user's role, the nine role bindings, the
      cluster role and its binding, the deployment config, and last the
      RhpamDev and then the RhpamUser custom resource. */
  lemma DeployCreationOrder(instanceId: string, username: string)
    ensures CreatedKinds(ProvisionPlan(instanceId, username)) ==
            [Namespace, ServiceAccount, Role, Role,
             RoleBinding, RoleBinding, RoleBinding, RoleBinding, RoleBinding, RoleBinding, RoleBinding, RoleBinding, RoleBinding,
             ClusterRole, ClusterRoleBinding, DeploymentConfig, RhpamDev, RhpamUser]
  {
    var ns := NamespaceFor(instanceId);
    TenantPlanKinds(ns, username);
    RoleBindingsShape(ns, username);
    ClusterRbacAndWorkloadsShape(ns);
    assert CreatedKinds(ProvisionPlan(instanceId, username)) == [Namespace] + CreatedKinds(TenantPlan(ns, username));
    KindsInOrder(CreatedKinds(RoleBindingsPlan(ns, username)), CreatedKinds(ClusterRbacAndWorkloadsPlan(ns)));
  }

  lemma KindsInOrder(bindings: seq<Kind>, rbac: seq<Kind>)
    requires bindings == [RoleBinding, RoleBinding, RoleBinding, RoleBinding, RoleBinding, RoleBinding, RoleBinding, RoleBinding, RoleBinding]
    requires rbac == [ClusterRole, ClusterRoleBinding, DeploymentConfig, RhpamDev, RhpamUser]
    ensures [Namespace] + ([ServiceAccount, Role, Role] + bindings + rbac) ==
            [Namespace, ServiceAccount, Role, Role,
             RoleBinding, RoleBinding, RoleBinding, RoleBinding, RoleBinding, RoleBinding, RoleBinding, RoleBinding, RoleBinding,
             ClusterRole, ClusterRoleBinding, DeploymentConfig, RhpamDev, RhpamUser]
  {
  }

  /** In `Deploy`, exactly the three system role bindings let an error
      pass, and the error they let pass is "already exists". */
  lemma DeployTolerance(instanceId: string, username: string)
    ensures var ns := NamespaceFor(instanceId);
            var b := SystemRoleBindings(ns);
            Tolerant(ProvisionPlan(instanceId, username)) ==
            [ Step(Create(ns, b[0]), Tolerate(AlreadyExists), [CreateRoleBindingFailed("system:deployers")]),
              Step(Create(ns, b[1]), Tolerate(AlreadyExists), [CreateRoleBindingFailed("system:image-builders")]),
              Step(Create(ns, b[2]), Tolerate(AlreadyExists), [CreateRoleBindingFailed("system:image-pullers")]) ]
  {
    TenantPlanTolerance(NamespaceFor(instanceId), username);
  }

  lemma DeployNeverDeletes(instanceId: string, username: string)
    ensures NeverDeletes(ProvisionPlan(instanceId, username))
  {
    TenantPlanTolerance(NamespaceFor(instanceId), username);
  }

  // ------------------------------------------------ Deploy: runs

  /** `Deploy` stops at the first step that fails: the i-th call made is
      the plan's i-th step, a failed call is the last one made, and the
      error returned is that call's, wrapped with the step's message. */
  lemma DeployFailFast(s: State, failing: set<Call>, instanceId: string, username: string)
    ensures var plan := ProvisionPlan(instanceId, username);
            FailFast(Steps(plan), Run(s, failing, plan))
  {
    RunIsFailFast(s, failing, ProvisionPlan(instanceId, username));
  }

  /** No rollback: however `Deploy` ends, everything stored before is still
      stored, everything its calls created or found is stored, and nothing
      new it stored has a phase yet. */
  lemma DeployKeeps(s: State, failing: set<Call>, instanceId: string, username: string)
    ensures var r := Run(s, failing, ProvisionPlan(instanceId, username));
      && Keeps(s, r.state)
      && (forall i :: 0 <= i < |r.events| && Present(r.events[i]) ==> r.events[i].call.key in r.state.objects)
      && (forall k :: k in r.state.objects && k !in s.objects ==> r.state.objects[k].phase == PhaseNone)
  {
    DeployNeverDeletes(instanceId, username);
    RunKeeps(s, failing, ProvisionPlan(instanceId, username));
  }

  lemma {:induction false} RunStoresCreated(s: State, failing: set<Call>, p: Plan, key: Key)
    requires NeverDeletes(p) && Creates(p, key)
    requires Run(s, failing, p).error.None?
    ensures key in Run(s, failing, p).state.objects
    decreases p
  {
    match p
    case Do(st, next) =>
      var o := Exec(s, failing, st.action);
      assert !Fatal(st, o.event);
      if CreatesKey(st, key) {
        assert key in o.state.objects;
        RunKeeps(o.state, failing, next);
      } else {
        RunStoresCreated(o.state, failing, next, key);
      }
  }

  /** In a run that passed, a create whose step tolerates at most "already
      exists" either stored its object or found one there. */
  lemma {:induction false} RunCreatesPresent(s: State, failing: set<Call>, p: Plan)
    requires forall i :: 0 <= i < |Tolerant(p)| ==> Tolerant(p)[i].tolerance == Tolerate(AlreadyExists)
    requires Run(s, failing, p).error.None?
    ensures var r := Run(s, failing, p);
      forall i :: 0 <= i < |r.events| && r.events[i].call.CreateCall? ==> Present(r.events[i])
    decreases p
  {
    match p
    case Done =>
    case Do(st, next) =>
      var o := Exec(s, failing, st.action);
      assert !Fatal(st, o.event);
      if o.event.error.Some? {
        assert Tolerant(p)[0] == st;
      }
      assert forall i :: 0 <= i < |Tolerant(next)| ==> Tolerant(next)[i] in Tolerant(p);
      RunCreatesPresent(o.state, failing, next);
  }

  /** In a delete-free run that passed, and whose creates tolerate at most
      "already exists", every object a create call named is stored at the end. */
  lemma RunStoresEveryCreate(s: State, failing: set<Call>, p: Plan)
    requires NeverDeletes(p)
    requires forall i :: 0 <= i < |Tolerant(p)| ==> Tolerant(p)[i].tolerance == Tolerate(AlreadyExists)
    requires Run(s, failing, p).error.None?
    ensures var r := Run(s, failing, p);
      forall i :: 0 <= i < |r.events| && r.events[i].call.CreateCall? ==> r.events[i].call.key in r.state.objects
  {
    RunCreatesPresent(s, failing, p);
    RunKeeps(s, failing, p);
  }

  /** The system bindings keep whatever the plan after them creates; in
      `Deploy` that is the install binding, the first operator binding. */
  lemma {:induction false} SystemBindingsKeep(namespace: string, bindings: seq<Object>, next: Plan, key: Key)
    requires Creates(next, key)
    ensures Creates(SystemBindingsPlan(namespace, bindings, next), key)
    decreases |bindings|
  {
    if bindings != [] {
      SystemBindingsKeep(namespace, bindings[1..], next, key);
    }
  }

  /** What the part after the namespace creates, `Deploy` creates. */
  lemma ProvisionCreates(instanceId: string, username: string, key: Key)
    requires Creates(TenantPlan(NamespaceFor(instanceId), username), key)
    ensures Creates(ProvisionPlan(instanceId, username), key)
  {
  }

  lemma TenantCreates(namespace: string, username: string, key: Key)
    requires Creates(Append(RoleBindingsPlan(namespace, username), ClusterRbacAndWorkloadsPlan(namespace)), key)
    ensures Creates(TenantPlan(namespace, username), key)
  {
    var p := TenantPlan(namespace, username);
    assert Creates(p.next.next, key);
  }

  /** What the cluster RBAC and workloads part creates, `Deploy` creates. */
  lemma WorkloadsCreate(instanceId: string, username: string, key: Key)
    requires Creates(ClusterRbacAndWorkloadsPlan(NamespaceFor(instanceId)), key)
    ensures Creates(ProvisionPlan(instanceId, username), key)
  {
    var ns := NamespaceFor(instanceId);
    CreatesAppend(RoleBindingsPlan(ns, username), ClusterRbacAndWorkloadsPlan(ns), key);
    TenantCreates(ns, username, key);
    ProvisionCreates(instanceId, username, key);
  }

  /** The named objects `Deploy` creates, each by a step that lets no error
      through that would leave it missing. */
  lemma DeployCreatesNamed(instanceId: string, username: string)
    ensures var ns, plan := NamespaceFor(instanceId), ProvisionPlan(instanceId, username);
      && Creates(plan, NamespaceKey(ns))
      && Creates(plan, Key(ServiceAccount, ns, "rhpam-dev-operator"))
      && Creates(plan, Key(Role, ns, "rhpam-dev-operator"))
      && Creates(plan, Key(RoleBinding, ns, "rhpam-dev-operator:install"))
  {
    var ns := NamespaceFor(instanceId);
    var tenant, bindings, rbac := TenantPlan(ns, username), RoleBindingsPlan(ns, username), ClusterRbacAndWorkloadsPlan(ns);
    assert Creates(tenant.next, Key(Role, ns, "rhpam-dev-operator"));
    ProvisionCreates(instanceId, username, Key(ServiceAccount, ns, "rhpam-dev-operator"));
    ProvisionCreates(instanceId, username, Key(Role, ns, "rhpam-dev-operator"));

    var install := Key(RoleBinding, ns, "rhpam-dev-operator:install");
    assert Creates(OperatorBindingsPlan(ns, username), install);
    SystemBindingsKeep(ns, SystemRoleBindings(ns), OperatorBindingsPlan(ns, username), install);
    CreatesAppend(bindings, rbac, install);
    TenantCreates(ns, username, install);
    ProvisionCreates(instanceId, username, install);
  }

  /** The cluster-scoped RBAC objects and the operator's deployment config
      `Deploy` creates, each by a strict step. */
  lemma DeployCreatesWorkloads(instanceId: string, username: string)
    ensures var ns, plan := NamespaceFor(instanceId), ProvisionPlan(instanceId, username);
      && Creates(plan, Key(ClusterRole, "", "rhpam-dev-operator-" + ns))
      && Creates(plan, Key(ClusterRoleBinding, "", "rhpam-dev-operator-" + ns))
      && Creates(plan, Key(DeploymentConfig, ns, "rhpam-dev-operator"))
  {
    var ns := NamespaceFor(instanceId);
    var rbac := ClusterRbacAndWorkloadsPlan(ns);
    var role, binding := Key(ClusterRole, "", "rhpam-dev-operator-" + ns), Key(ClusterRoleBinding, "", "rhpam-dev-operator-" + ns);
    assert Creates(rbac.next, binding);
    WorkloadsCreate(instanceId, username, role);
    WorkloadsCreate(instanceId, username, binding);

    var dc := Key(DeploymentConfig, ns, "rhpam-dev-operator");
    assert Creates(OperatorPlan(ns).next, dc);
    CreatesAppend(OperatorPlan(ns), CustomResourcesPlan(ns), dc);
    assert Creates(rbac.next, dc);
    WorkloadsCreate(instanceId, username, dc);
  }

  lemma {:induction false} CreatesOfAppend(p: Plan, q: Plan, key: Key)
    requires Creates(Append(p, q), key)
    ensures Creates(p, key) || Creates(q, key)
    decreases p
  {
    match p
    case Done =>
    case Do(st, next) =>
      if !CreatesKey(st, key) {
        CreatesOfAppend(next, q, key);
      }
  }

  /** Everything `Deploy` does before it creates its custom resources. */
  function SetupPlan(instanceId: string, username: string): Plan {
    var ns := NamespaceFor(instanceId);
    Do(NamespaceStep(instanceId),
    Do(Strictly(Create(ns, ServiceAccountObj()), CreateServiceAccountFailed),
    Do(Strictly(Create(ns, RoleObj()), CreateRoleFailed),
    Do(Strictly(Create(ns, UserRoleObj()), CreateUserRoleFailed),
    Append(RoleBindingsPlan(ns, username),
      Do(Strictly(Create("", ClusterRoleObj(ns)), CreateClusterRoleFailed),
      Do(Strictly(Create("", ClusterRoleBindingObj(ns)), CreateClusterRoleBindingFailed),
      OperatorPlan(ns))))))))
  }

  /** `Deploy` is the setup, then the custom resources. */
  lemma ProvisionSplits(instanceId: string, username: string)
    ensures ProvisionPlan(instanceId, username) == Append(SetupPlan(instanceId, username), CustomResourcesPlan(NamespaceFor(instanceId)))
  {
    var ns := NamespaceFor(instanceId);
    var crs, bindings := CustomResourcesPlan(ns), RoleBindingsPlan(ns, username);
    var rest := Do(Strictly(Create("", ClusterRoleObj(ns)), CreateClusterRoleFailed),
                Do(Strictly(Create("", ClusterRoleBindingObj(ns)), CreateClusterRoleBindingFailed),
                OperatorPlan(ns)));
    assert Append(rest.next, crs) == Do(rest.next.step, Append(OperatorPlan(ns), crs));
    assert Append(rest, crs) == ClusterRbacAndWorkloadsPlan(ns);
    AppendAssociative(bindings, rest, crs);
    var setup := SetupPlan(instanceId, username);
    assert Append(setup.next.next.next.next, crs) == Append(bindings, ClusterRbacAndWorkloadsPlan(ns));
    var tenant := TenantPlan(ns, username);
    assert Append(setup.next.next.next, crs) == tenant.next.next;
    assert Append(setup.next.next, crs) == tenant.next;
    assert Append(setup.next, crs) == tenant;
  }

  /** The custom-resource part creates only objects with generated names. */
  lemma CustomResourcesCreateNoKey(namespace: string, key: Key)
    ensures !Creates(CustomResourcesPlan(namespace), key)
  {
    var dev, user := CustomResourcePlan(namespace, RhpamDevObj(namespace)), CustomResourcePlan(namespace, RhpamUserObj(namespace));
    assert !CreatesKey(dev.next.step, key) && !CreatesKey(user.next.step, key);
    assert !Creates(dev.next, key) && !Creates(user.next, key);
    assert !Creates(dev, key) && !Creates(user, key);
    if Creates(CustomResourcesPlan(namespace), key) {
      CreatesOfAppend(dev, user, key);
      assert false;
    }
  }

  /** What `Deploy` creates under a fixed name, its setup creates. */
  lemma SetupCreates(instanceId: string, username: string, key: Key)
    requires Creates(ProvisionPlan(instanceId, username), key)
    ensures Creates(SetupPlan(instanceId, username), key)
  {
    ProvisionSplits(instanceId, username);
    CreatesOfAppend(SetupPlan(instanceId, username), CustomResourcesPlan(NamespaceFor(instanceId)), key);
    CustomResourcesCreateNoKey(NamespaceFor(instanceId), key);
  }

  /** The custom resources are created last: `Deploy` runs them only after
      a setup that passed, on the store that setup left, and that store
      holds the namespace, the service account, the operator's role and
      install binding, the cluster role, the cluster role binding and the
      deployment config. */
  lemma CustomResourcesCreatedLast(s: State, failing: set<Call>, instanceId: string, username: string)
    ensures var setup := Run(s, failing, SetupPlan(instanceId, username));
      Run(s, failing, ProvisionPlan(instanceId, username)) == Then(setup, failing, CustomResourcesPlan(NamespaceFor(instanceId)))
    ensures var ns, setup := NamespaceFor(instanceId), Run(s, failing, SetupPlan(instanceId, username));
      setup.error.None? ==>
        && NamespaceKey(ns) in setup.state.objects
        && Key(ServiceAccount, ns, "rhpam-dev-operator") in setup.state.objects
        && Key(Role, ns, "rhpam-dev-operator") in setup.state.objects
        && Key(RoleBinding, ns, "rhpam-dev-operator:install") in setup.state.objects
        && Key(ClusterRole, "", "rhpam-dev-operator-" + ns) in setup.state.objects
        && Key(ClusterRoleBinding, "", "rhpam-dev-operator-" + ns) in setup.state.objects
        && Key(DeploymentConfig, ns, "rhpam-dev-operator") in setup.state.objects
    ensures var setup := Run(s, failing, SetupPlan(instanceId, username));
      setup.error.None? ==>
        forall i :: 0 <= i < |setup.events| && setup.events[i].call.CreateCall? ==>
          setup.events[i].call.key in setup.state.objects
  {
    var ns, setup := NamespaceFor(instanceId), SetupPlan(instanceId, username);
    ProvisionSplits(instanceId, username);
    RunAppend(s, failing, setup, CustomResourcesPlan(ns));
    if Run(s, failing, setup).error.None? {
      DeployNeverDeletes(instanceId, username);
      NeverDeletesPrefix(setup, CustomResourcesPlan(ns));
      SetupStoresNamed(s, failing, instanceId, username);
      SetupStoresWorkloads(s, failing, instanceId, username);
      SetupTolerance(instanceId, username);
      RunStoresEveryCreate(s, failing, setup);
    }
  }

  /** The setup tolerates what `Deploy` tolerates: "already exists" on the
      three system bindings, and nothing else. */
  lemma SetupTolerance(instanceId: string, username: string)
    ensures var t := Tolerant(SetupPlan(instanceId, username));
      forall i :: 0 <= i < |t| ==> t[i].tolerance == Tolerate(AlreadyExists)
  {
    var ns := NamespaceFor(instanceId);
    var dev, user := CustomResourcePlan(ns, RhpamDevObj(ns)), CustomResourcePlan(ns, RhpamUserObj(ns));
    ProvisionSplits(instanceId, username);
    TolerantAppend(SetupPlan(instanceId, username), CustomResourcesPlan(ns));
    CustomResourcePlanShape(ns, RhpamDevObj(ns));
    CustomResourcePlanShape(ns, RhpamUserObj(ns));
    TolerantAppend(dev, user);
    assert Tolerant(CustomResourcesPlan(ns)) == [];
    assert Tolerant(SetupPlan(instanceId, username)) == Tolerant(ProvisionPlan(instanceId, username));
    DeployTolerance(instanceId, username);
  }

  lemma SetupStoresNamed(s: State, failing: set<Call>, instanceId: string, username: string)
    requires NeverDeletes(SetupPlan(instanceId, username))
    requires Run(s, failing, SetupPlan(instanceId, username)).error.None?
    ensures var ns, objects := NamespaceFor(instanceId), Run(s, failing, SetupPlan(instanceId, username)).state.objects;
      && NamespaceKey(ns) in objects
      && Key(ServiceAccount, ns, "rhpam-dev-operator") in objects
      && Key(Role, ns, "rhpam-dev-operator") in objects
      && Key(RoleBinding, ns, "rhpam-dev-operator:install") in objects
  {
    var ns, setup := NamespaceFor(instanceId), SetupPlan(instanceId, username);
    DeployCreatesNamed(instanceId, username);
    SetupCreates(instanceId, username, NamespaceKey(ns));
    SetupCreates(instanceId, username, Key(ServiceAccount, ns, "rhpam-dev-operator"));
    SetupCreates(instanceId, username, Key(Role, ns, "rhpam-dev-operator"));
    SetupCreates(instanceId, username, Key(RoleBinding, ns, "rhpam-dev-operator:install"));
    RunStoresCreated(s, failing, setup, NamespaceKey(ns));
    RunStoresCreated(s, failing, setup, Key(ServiceAccount, ns, "rhpam-dev-operator"));
    RunStoresCreated(s, failing, setup, Key(Role, ns, "rhpam-dev-operator"));
    RunStoresCreated(s, failing, setup, Key(RoleBinding, ns, "rhpam-dev-operator:install"));
  }

  lemma SetupStoresWorkloads(s: State, failing: set<Call>, instanceId: string, username: string)
    requires NeverDeletes(SetupPlan(instanceId, username))
    requires Run(s, failing, SetupPlan(instanceId, username)).error.None?
    ensures var ns, objects := NamespaceFor(instanceId), Run(s, failing, SetupPlan(instanceId, username)).state.objects;
      && Key(ClusterRole, "", "rhpam-dev-operator-" + ns) in objects
      && Key(ClusterRoleBinding, "", "rhpam-dev-operator-" + ns) in objects
      && Key(DeploymentConfig, ns, "rhpam-dev-operator") in objects
  {
    var ns, setup := NamespaceFor(instanceId), SetupPlan(instanceId, username);
    DeployCreatesWorkloads(instanceId, username);
    SetupCreates(instanceId, username, Key(ClusterRole, "", "rhpam-dev-operator-" + ns));
    SetupCreates(instanceId, username, Key(ClusterRoleBinding, "", "rhpam-dev-operator-" + ns));
    SetupCreates(instanceId, username, Key(DeploymentConfig, ns, "rhpam-dev-operator"));
    RunStoresCreated(s, failing, setup, Key(ClusterRole, "", "rhpam-dev-operator-" + ns));
    RunStoresCreated(s, failing, setup, Key(ClusterRoleBinding, "", "rhpam-dev-operator-" + ns));
    RunStoresCreated(s, failing, setup, Key(DeploymentConfig, ns, "rhpam-dev-operator"));
  }

  /** A `Deploy` that succeeds leaves the namespace, the service account,
      the operator's role and its install binding, the cluster role, the
      cluster role binding and the deployment config stored. */
  lemma DeploySucceeded(s: State, failing: set<Call>, instanceId: string, username: string)
    requires Run(s, failing, ProvisionPlan(instanceId, username)).error.None?
    ensures var ns, objects := NamespaceFor(instanceId), Run(s, failing, ProvisionPlan(instanceId, username)).state.objects;
      && NamespaceKey(ns) in objects
      && Key(ServiceAccount, ns, "rhpam-dev-operator") in objects
      && Key(Role, ns, "rhpam-dev-operator") in objects
      && Key(RoleBinding, ns, "rhpam-dev-operator:install") in objects
      && Key(ClusterRole, "", "rhpam-dev-operator-" + ns) in objects
      && Key(ClusterRoleBinding, "", "rhpam-dev-operator-" + ns) in objects
      && Key(DeploymentConfig, ns, "rhpam-dev-operator") in objects
  {
    var ns, plan := NamespaceFor(instanceId), ProvisionPlan(instanceId, username);
    DeployNeverDeletes(instanceId, username);
    DeployCreatesNamed(instanceId, username);
    DeployCreatesWorkloads(instanceId, username);
    RunStoresCreated(s, failing, plan, NamespaceKey(ns));
    RunStoresCreated(s, failing, plan, Key(ServiceAccount, ns, "rhpam-dev-operator"));
    RunStoresCreated(s, failing, plan, Key(Role, ns, "rhpam-dev-operator"));
    RunStoresCreated(s, failing, plan, Key(RoleBinding, ns, "rhpam-dev-operator:install"));
    RunStoresCreated(s, failing, plan, Key(ClusterRole, "", "rhpam-dev-operator-" + ns));
    RunStoresCreated(s, failing, plan, Key(ClusterRoleBinding, "", "rhpam-dev-operator-" + ns));
    RunStoresCreated(s, failing, plan, Key(DeploymentConfig, ns, "rhpam-dev-operator"));
  }

  /** Right after a `Deploy` into a namespace that held no RhpamDev, the
      RhpamDev that `getRhpamDev` finds, if any, is the one `Deploy` just
      created, and no controller has set its phase yet. */
  lemma DevAfterDeploy(s: State, failing: set<Call>, instanceId: string, username: string,
                       dev: Result<Option<Resource>, Error>)
    requires forall k :: k in s.objects ==> !(k.kind == RhpamDev && k.namespace == NamespaceFor(instanceId))
    requires DevLookup(Run(s, failing, ProvisionPlan(instanceId, username)).state, failing, NamespaceFor(instanceId), dev)
    ensures dev.Success? && dev.value.Some? ==> dev.value.value.phase == PhaseNone
  {
    var ns, r := NamespaceFor(instanceId), Run(s, failing, ProvisionPlan(instanceId, username));
    DeployKeeps(s, failing, instanceId, username);
    var items: seq<Resource> :| Listed(r.state, failing, RhpamDev, ns, items) &&
      dev == FirstRhpamDev(if ConnectCall(ResourceClient(RhpamDev)) in failing || ListCall(RhpamDev, ns) in failing
                           then Failure(Error(ServerError, [])) else Success(items));
    if dev.Success? && dev.value.Some? {
      var k := Key(RhpamDev, ns, items[0].name);
      assert k in r.state.objects && r.state.objects[k] == items[0];
      assert k !in s.objects;
    }
  }

  /** So polling the "deploy" operation right after such a `Deploy` never
      answers Succeeded: it is still in progress, or an error. */
  lemma PollRightAfterDeploy(s: State, failing: set<Call>, instanceId: string, username: string,
                             dev: Result<Option<Resource>, Error>, namespace: Result<Resource, ErrorKind>)
    requires forall k :: k in s.objects ==> !(k.kind == RhpamDev && k.namespace == NamespaceFor(instanceId))
    requires DevLookup(Run(s, failing, ProvisionPlan(instanceId, username)).state, failing, NamespaceFor(instanceId), dev)
    ensures var r := LastOperation(instanceId, "deploy", dev, namespace);
            r.Success? ==> r.value == LastOperationResponse(InProgress, "rhpam is deploying")
  {
    DevAfterDeploy(s, failing, instanceId, username, dev);
  }

  /** The first step of a successful run passed. */
  lemma RunFirstPasses(s: State, failing: set<Call>, p: Plan)
    requires p.Do? && Run(s, failing, p).error.None?
    ensures !Fatal(p.step, Exec(s, failing, p.step.action).event)
  {
  }

  /** A successful `Deploy` created its namespace, so on a consistent store
      the namespace did not exist before and held nothing. */
  lemma DeployNeedsFreshNamespace(s: State, failing: set<Call>, instanceId: string, username: string)
    requires WellFormed(s)
    requires Run(s, failing, ProvisionPlan(instanceId, username)).error.None?
    ensures NamespaceKey(NamespaceFor(instanceId)) !in s.objects
    ensures forall k :: k in s.objects && Namespaced(k.kind) ==> k.namespace != NamespaceFor(instanceId)
  {
    var st := NamespaceStep(instanceId);
    RunFirstPasses(s, failing, ProvisionPlan(instanceId, username));
    assert CreateKey(s, "", NamespaceObj(NamespaceFor(instanceId))) == NamespaceKey(NamespaceFor(instanceId));
    assert Exec(s, failing, st.action).event.error.None?;
  }

  /** The step creates an object of `kind` in `namespace`, named or
      generated, and lets no error through. */
  predicate CreatesIn(st: Step, kind: Kind, namespace: string) {
    && st.action.Create?
    && st.action.obj.kind == kind
    && Scope(kind, st.action.namespace) == namespace
    && st.tolerance == Strict
  }

  predicate CreatesSomeIn(p: Plan, kind: Kind, namespace: string)
    decreases p
  {
    match p
    case Done => false
    case Do(st, next) => CreatesIn(st, kind, namespace) || CreatesSomeIn(next, kind, namespace)
  }

  /** Some object of `kind` is stored in `namespace`. */
  ghost predicate Holds(objects: map<Key, Resource>, kind: Kind, namespace: string) {
    exists k :: k in objects && k.kind == kind && k.namespace == namespace
  }

  lemma {:induction false} CreatesSomeInAppend(p: Plan, q: Plan, kind: Kind, namespace: string)
    requires CreatesSomeIn(p, kind, namespace) || CreatesSomeIn(q, kind, namespace)
    ensures CreatesSomeIn(Append(p, q), kind, namespace)
    decreases p
  {
    match p
    case Done =>
    case Do(st, next) =>
      if !CreatesIn(st, kind, namespace) {
        CreatesSomeInAppend(next, q, kind, namespace);
      }
  }

  /** A successful run of a delete-free plan leaves an object of every kind
      and namespace one of its strict creates names. */
  lemma {:induction false} RunStoresSome(s: State, failing: set<Call>, p: Plan, kind: Kind, namespace: string)
    requires NeverDeletes(p) && CreatesSomeIn(p, kind, namespace)
    requires Run(s, failing, p).error.None?
    ensures Holds(Run(s, failing, p).state.objects, kind, namespace)
    decreases p
  {
    match p
    case Do(st, next) =>
      var o := Exec(s, failing, st.action);
      assert !Fatal(st, o.event);
      if CreatesIn(st, kind, namespace) {
        var k := CreateKey(s, st.action.namespace, st.action.obj);
        assert k in o.state.objects;
        RunKeeps(o.state, failing, next);
        assert k in Run(o.state, failing, next).state.objects;
      } else {
        RunStoresSome(o.state, failing, next, kind, namespace);
      }
  }

  /** The cluster RBAC and workloads part creates both custom resources, strictly. */
  lemma WorkloadsCreateCustomResources(namespace: string, kind: Kind)
    requires kind == RhpamDev || kind == RhpamUser
    ensures CreatesSomeIn(ClusterRbacAndWorkloadsPlan(namespace), kind, namespace)
  {
    var dev, user := CustomResourcePlan(namespace, RhpamDevObj(namespace)), CustomResourcePlan(namespace, RhpamUserObj(namespace));
    assert CreatesSomeIn(if kind == RhpamDev then dev.next else user.next, kind, namespace);
    CreatesSomeInAppend(dev, user, kind, namespace);
    CreatesSomeInAppend(OperatorPlan(namespace), CustomResourcesPlan(namespace), kind, namespace);
    assert CreatesSomeIn(ClusterRbacAndWorkloadsPlan(namespace).next.next, kind, namespace);
  }

  /** What the cluster RBAC and workloads part creates somewhere, `Deploy` creates. */
  lemma ProvisionCreatesSome(instanceId: string, username: string, kind: Kind)
    requires CreatesSomeIn(ClusterRbacAndWorkloadsPlan(NamespaceFor(instanceId)), kind, NamespaceFor(instanceId))
    ensures CreatesSomeIn(ProvisionPlan(instanceId, username), kind, NamespaceFor(instanceId))
  {
    var ns := NamespaceFor(instanceId);
    CreatesSomeInAppend(RoleBindingsPlan(ns, username), ClusterRbacAndWorkloadsPlan(ns), kind, ns);
    var tenant := TenantPlan(ns, username);
    assert CreatesSomeIn(tenant.next.next.next, kind, ns);
    assert CreatesSomeIn(tenant.next, kind, ns);
    assert CreatesSomeIn(tenant, kind, ns);
  }

  /** `Deploy` creates a RhpamDev and a RhpamUser in the tenant namespace, strictly. */
  lemma DeployCreatesCustomResources(instanceId: string, username: string)
    ensures CreatesSomeIn(ProvisionPlan(instanceId, username), RhpamDev, NamespaceFor(instanceId))
    ensures CreatesSomeIn(ProvisionPlan(instanceId, username), RhpamUser, NamespaceFor(instanceId))
  {
    WorkloadsCreateCustomResources(NamespaceFor(instanceId), RhpamDev);
    WorkloadsCreateCustomResources(NamespaceFor(instanceId), RhpamUser);
    ProvisionCreatesSome(instanceId, username, RhpamDev);
    ProvisionCreatesSome(instanceId, username, RhpamUser);
  }

  /** After a successful `Deploy` both custom resources are stored in the tenant namespace. */
  lemma DeployStoresCustomResources(s: State, failing: set<Call>, instanceId: string, username: string)
    requires Run(s, failing, ProvisionPlan(instanceId, username)).error.None?
    ensures var objects := Run(s, failing, ProvisionPlan(instanceId, username)).state.objects;
      Holds(objects, RhpamDev, NamespaceFor(instanceId)) && Holds(objects, RhpamUser, NamespaceFor(instanceId))
  {
    DeployNeverDeletes(instanceId, username);
    DeployCreatesCustomResources(instanceId, username);
    RunStoresSome(s, failing, ProvisionPlan(instanceId, username), RhpamDev, NamespaceFor(instanceId));
    RunStoresSome(s, failing, ProvisionPlan(instanceId, username), RhpamUser, NamespaceFor(instanceId));
  }

  /** When an object of the kind is stored and its client and list work,
      the lookup finds one. */
  lemma LookupFinds(t: State, failing: set<Call>, namespace: string, dev: Result<Option<Resource>, Error>)
    requires Holds(t.objects, RhpamDev, namespace)
    requires ConnectCall(ResourceClient(RhpamDev)) !in failing && ListCall(RhpamDev, namespace) !in failing
    requires DevLookup(t, failing, namespace, dev)
    ensures dev.Success? && dev.value.Some?
  {
    var items: seq<Resource> :| Listed(t, failing, RhpamDev, namespace, items) &&
      dev == FirstRhpamDev(if ConnectCall(ResourceClient(RhpamDev)) in failing || ListCall(RhpamDev, namespace) in failing
                           then Failure(Error(ServerError, [])) else Success(items));
    var k :| k in t.objects && k.kind == RhpamDev && k.namespace == namespace;
    assert exists i :: 0 <= i < |items| && items[i].name == k.name;
  }

  /** Right after a successful `Deploy` on a consistent store, with the
      RhpamDev client and list working, `getRhpamDev` finds a RhpamDev that
      no controller has touched yet. */
  lemma FreshDevFound(s: State, failing: set<Call>, instanceId: string, username: string,
                      dev: Result<Option<Resource>, Error>)
    requires WellFormed(s)
    requires Run(s, failing, ProvisionPlan(instanceId, username)).error.None?
    requires ConnectCall(ResourceClient(RhpamDev)) !in failing && ListCall(RhpamDev, NamespaceFor(instanceId)) !in failing
    requires DevLookup(Run(s, failing, ProvisionPlan(instanceId, username)).state, failing, NamespaceFor(instanceId), dev)
    ensures dev.Success? && dev.value.Some? && dev.value.value.phase == PhaseNone
  {
    DeployNeedsFreshNamespace(s, failing, instanceId, username);
    DevAfterDeploy(s, failing, instanceId, username, dev);
    DeployStoresCustomResources(s, failing, instanceId, username);
    LookupFinds(Run(s, failing, ProvisionPlan(instanceId, username)).state, failing, NamespaceFor(instanceId), dev);
  }

  /** So polling "deploy" right after a successful `Deploy` answers that the
      deployment is in progress. */
  lemma PollAfterDeploy(s: State, failing: set<Call>, instanceId: string, username: string,
                        dev: Result<Option<Resource>, Error>, namespace: Result<Resource, ErrorKind>)
    requires WellFormed(s)
    requires Run(s, failing, ProvisionPlan(instanceId, username)).error.None?
    requires ConnectCall(ResourceClient(RhpamDev)) !in failing && ListCall(RhpamDev, NamespaceFor(instanceId)) !in failing
    requires DevLookup(Run(s, failing, ProvisionPlan(instanceId, username)).state, failing, NamespaceFor(instanceId), dev)
    ensures LastOperation(instanceId, "deploy", dev, namespace) == Success(LastOperationResponse(InProgress, "rhpam is deploying"))
  {
    FreshDevFound(s, failing, instanceId, username, dev);
  }

  /** Polling any operation but "remove" for an instance whose namespace
      holds no RhpamDev is an error, and when the client and the list both
      work, it is the not-found error naming the instance. */
  lemma PollUnknownInstance(s: State, failing: set<Call>, instanceId: string, operation: string,
                            dev: Result<Option<Resource>, Error>, namespace: Result<Resource, ErrorKind>)
    requires operation != "remove"
    requires forall k :: k in s.objects ==> !(k.kind == RhpamDev && k.namespace == NamespaceFor(instanceId))
    requires DevLookup(s, failing, NamespaceFor(instanceId), dev)
    ensures LastOperation(instanceId, operation, dev, namespace).Failure?
    ensures ConnectCall(ResourceClient(RhpamDev)) !in failing && ListCall(RhpamDev, NamespaceFor(instanceId)) !in failing ==>
              LastOperation(instanceId, operation, dev, namespace) == Failure(InstanceNotFound(instanceId))
  {
    var ns := NamespaceFor(instanceId);
    var items: seq<Resource> :| Listed(s, failing, RhpamDev, ns, items) &&
      dev == FirstRhpamDev(if ConnectCall(ResourceClient(RhpamDev)) in failing || ListCall(RhpamDev, ns) in failing
                           then Failure(Error(ServerError, [])) else Success(items));
    if ConnectCall(ResourceClient(RhpamDev)) !in failing && ListCall(RhpamDev, ns) !in failing {
      assert forall r | r in items :: Key(RhpamDev, ns, r.name) in s.objects;
    }
  }

  // ------------------------------------------------ RemoveDeploy: order and tolerance

  lemma DeleteOnePlanShape(kind: Kind, namespace: string, name: string)
    ensures Deleted(DeleteOnePlan(kind, namespace, name)) == [Delete(kind, namespace, name)]
    ensures Tolerant(DeleteOnePlan(kind, namespace, name)) == []
    ensures NeverCreates(DeleteOnePlan(kind, namespace, name))
  {
    var p := DeleteOnePlan(kind, namespace, name);
    assert Deleted(p.next) == [Delete(kind, namespace, name)] && Tolerant(p.next) == [] && NeverCreates(p.next);
  }

  /** The deletes of deleting each listed item: one per item, in list order. */
  lemma {:induction false} DeleteEachShape(kind: Kind, namespace: string, items: seq<Resource>)
    ensures var d := Deleted(DeleteEachPlan(kind, namespace, items));
            |d| == |items| && forall i :: 0 <= i < |items| ==> d[i] == Delete(kind, namespace, items[i].name)
    ensures Tolerant(DeleteEachPlan(kind, namespace, items)) == []
    ensures NeverCreates(DeleteEachPlan(kind, namespace, items))
    decreases |items|
  {
    if items != [] {
      var one := DeleteOnePlan(kind, namespace, items[0].name);
      var rest := DeleteEachPlan(kind, namespace, items[1..]);
      DeleteEachShape(kind, namespace, items[1..]);
      DeleteOnePlanShape(kind, namespace, items[0].name);
      DeletedAppend(one, rest);
      TolerantAppend(one, rest);
      NeverCreatesAppend(one, rest);
      var d := Deleted(DeleteEachPlan(kind, namespace, items));
      assert d == [Delete(kind, namespace, items[0].name)] + Deleted(rest);
      forall i | 0 <= i < |items|
        ensures d[i] == Delete(kind, namespace, items[i].name)
      {
        if i > 0 {
          assert d[i] == Deleted(rest)[i - 1];
        }
      }
    }
  }

  lemma CustomResourceDeletesShape(kind: Kind, namespace: string, items: seq<Resource>, message: Message)
    ensures var d := Deleted(Wrapped(DeleteAllPlan(kind, namespace, items), message));
            |d| == |items| && forall i :: 0 <= i < |items| ==> d[i] == Delete(kind, namespace, items[i].name)
    ensures Tolerant(Wrapped(DeleteAllPlan(kind, namespace, items), message)) == []
    ensures NeverCreates(Wrapped(DeleteAllPlan(kind, namespace, items), message))
  {
    var p := DeleteAllPlan(kind, namespace, items);
    DeleteEachShape(kind, namespace, items);
    assert Deleted(p) == Deleted(p.next) == Deleted(DeleteEachPlan(kind, namespace, items));
    assert Tolerant(p) == Tolerant(p.next) == [];
    assert NeverCreates(p.next) && NeverCreates(p);
    WrappedKeepsCalls(p, message);
  }

  lemma TeardownPlanShape(namespace: string)
    ensures Deleted(TeardownPlan(namespace)) ==
            [ Delete(ClusterRoleBinding, "", "rhpam-dev-operator-" + namespace),
              Delete(ClusterRole, "", "rhpam-dev-operator-" + namespace),
              Delete(Namespace, "", namespace) ]
    ensures Tolerant(TeardownPlan(namespace)) == [Step(Delete(Namespace, "", namespace), Tolerate(NotFound), [DeleteNamespaceFailed(namespace)])]
    ensures NeverCreates(TeardownPlan(namespace))
    ensures Deletes(TeardownPlan(namespace), Key(ClusterRoleBinding, "", "rhpam-dev-operator-" + namespace))
    ensures Deletes(TeardownPlan(namespace), Key(ClusterRole, "", "rhpam-dev-operator-" + namespace))
    ensures Deletes(TeardownPlan(namespace), NamespaceKey(namespace))
  {
    var p := TeardownPlan(namespace);
    assert Deleted(p.next.next) == [Delete(Namespace, "", namespace)];
    assert Tolerant(p.next.next) == [p.next.next.step] && NeverCreates(p.next.next);
    assert Deletes(p.next.next, NamespaceKey(namespace));
    assert Deleted(p.next) == [Delete(ClusterRole, "", "rhpam-dev-operator-" + namespace), Delete(Namespace, "", namespace)];
    assert Deletes(p.next, Key(ClusterRole, "", "rhpam-dev-operator-" + namespace));
  }

  /** What the teardown deletes, the whole of `RemoveDeploy` deletes. */
  lemma DeprovisionDeletes(instanceId: string, users: seq<Resource>, devs: seq<Resource>, key: Key)
    requires Deletes(TeardownPlan(NamespaceFor(instanceId)), key)
    ensures Deletes(DeprovisionPlan(instanceId, users, devs), key)
  {
    var ns := NamespaceFor(instanceId);
    var u, v, t := UserResourcesPlan(ns, users), DevResourcesPlan(ns, devs), TeardownPlan(ns);
    DeletesAppend(v, t, key);
    DeletesAppend(u, Append(v, t), key);
  }

  /** `RemoveDeploy` deletes every listed RhpamUser in list order, then every
      listed RhpamDev in list order, then the cluster role binding, the
      cluster role and the namespace. */
  lemma RemoveDeployDeleteOrder(instanceId: string, users: seq<Resource>, devs: seq<Resource>)
    ensures var ns, d := NamespaceFor(instanceId), Deleted(DeprovisionPlan(instanceId, users, devs));
      && |d| == |users| + |devs| + 3
      && (forall i :: 0 <= i < |users| ==> d[i] == Delete(RhpamUser, ns, users[i].name))
      && (forall i :: 0 <= i < |devs| ==> d[|users| + i] == Delete(RhpamDev, ns, devs[i].name))
      && d[|users| + |devs|..] == [ Delete(ClusterRoleBinding, "", "rhpam-dev-operator-" + ns),
                                    Delete(ClusterRole, "", "rhpam-dev-operator-" + ns),
                                    Delete(Namespace, "", ns) ]
  {
    var ns := NamespaceFor(instanceId);
    var u, v, t := UserResourcesPlan(ns, users), DevResourcesPlan(ns, devs), TeardownPlan(ns);
    CustomResourceDeletesShape(RhpamUser, ns, users, DeleteRhpamUsersFailed(ns));
    CustomResourceDeletesShape(RhpamDev, ns, devs, DeleteRhpamDevsFailed(ns));
    TeardownPlanShape(ns);
    DeletedAppend(v, t);
    DeletedAppend(u, Append(v, t));
    var d := Deleted(DeprovisionPlan(instanceId, users, devs));
    assert d == Deleted(u) + (Deleted(v) + Deleted(t));
    forall i | 0 <= i < |devs|
      ensures d[|users| + i] == Delete(RhpamDev, ns, devs[i].name)
    {
      assert d[|users| + i] == Deleted(v)[i];
    }
    assert d[|users| + |devs|..] == Deleted(t);
  }

  /** In `RemoveDeploy` only the namespace delete lets an error pass, and
      the error it lets pass is "not found". */
  lemma RemoveDeployTolerance(instanceId: string, users: seq<Resource>, devs: seq<Resource>)
    ensures var ns := NamespaceFor(instanceId);
            Tolerant(DeprovisionPlan(instanceId, users, devs)) ==
            [Step(Delete(Namespace, "", ns), Tolerate(NotFound), [DeleteNamespaceFailed(ns)])]
  {
    var ns := NamespaceFor(instanceId);
    var u, v, t := UserResourcesPlan(ns, users), DevResourcesPlan(ns, devs), TeardownPlan(ns);
    CustomResourceDeletesShape(RhpamUser, ns, users, DeleteRhpamUsersFailed(ns));
    CustomResourceDeletesShape(RhpamDev, ns, devs, DeleteRhpamDevsFailed(ns));
    TeardownPlanShape(ns);
    TolerantAppend(v, t);
    TolerantAppend(u, Append(v, t));
  }

  /** `RemoveDeploy` stops at the first step that fails, inside the
      item-by-item deletes as well: the i-th call made is the plan's i-th
      step, and a failed call is the last one made. */
  lemma RemoveDeployFailFast(s: State, failing: set<Call>, instanceId: string, users: seq<Resource>, devs: seq<Resource>)
    ensures var plan := DeprovisionPlan(instanceId, users, devs);
            FailFast(Steps(plan), Run(s, failing, plan))
  {
    RunIsFailFast(s, failing, DeprovisionPlan(instanceId, users, devs));
  }

  lemma RemoveDeployNeverCreates(instanceId: string, users: seq<Resource>, devs: seq<Resource>)
    ensures NeverCreates(DeprovisionPlan(instanceId, users, devs))
  {
    var ns := NamespaceFor(instanceId);
    var u, v, t := UserResourcesPlan(ns, users), DevResourcesPlan(ns, devs), TeardownPlan(ns);
    CustomResourceDeletesShape(RhpamUser, ns, users, DeleteRhpamUsersFailed(ns));
    CustomResourceDeletesShape(RhpamDev, ns, devs, DeleteRhpamDevsFailed(ns));
    TeardownPlanShape(ns);
    NeverCreatesAppend(v, t);
    NeverCreatesAppend(u, Append(v, t));
  }

  // ------------------------------------------------ RemoveDeploy: runs

  lemma {:induction false} RunLeavesDeleted(s: State, failing: set<Call>, p: Plan, key: Key)
    requires NeverCreates(p) && Deletes(p, key)
    requires Run(s, failing, p).error.None?
    ensures key !in Run(s, failing, p).state.objects
    decreases p
  {
    match p
    case Do(st, next) =>
      var o := Exec(s, failing, st.action);
      assert !Fatal(st, o.event);
      if DeletesKey(st, key) {
        assert key !in o.state.objects;
        RunRemoves(o.state, failing, next);
      } else {
        RunLeavesDeleted(o.state, failing, next, key);
      }
  }

  /** A `RemoveDeploy` that succeeds leaves no cluster role binding, no
      cluster role and no namespace of the tenant behind, and, on a
      well-formed store, nothing stored inside the tenant's namespace. */
  lemma RemoveDeploySucceeded(s: State, failing: set<Call>, instanceId: string, users: seq<Resource>, devs: seq<Resource>)
    requires Run(s, failing, DeprovisionPlan(instanceId, users, devs)).error.None?
    ensures var ns, objects := NamespaceFor(instanceId), Run(s, failing, DeprovisionPlan(instanceId, users, devs)).state.objects;
      && Key(ClusterRoleBinding, "", "rhpam-dev-operator-" + ns) !in objects
      && Key(ClusterRole, "", "rhpam-dev-operator-" + ns) !in objects
      && NamespaceKey(ns) !in objects
      && (WellFormed(s) ==> forall k :: k in objects && Namespaced(k.kind) ==> k.namespace != ns)
  {
    var ns, plan := NamespaceFor(instanceId), DeprovisionPlan(instanceId, users, devs);
    RemoveDeployNeverCreates(instanceId, users, devs);
    TeardownPlanShape(ns);
    DeprovisionDeletes(instanceId, users, devs, Key(ClusterRoleBinding, "", "rhpam-dev-operator-" + ns));
    RunLeavesDeleted(s, failing, plan, Key(ClusterRoleBinding, "", "rhpam-dev-operator-" + ns));
    DeprovisionDeletes(instanceId, users, devs, Key(ClusterRole, "", "rhpam-dev-operator-" + ns));
    RunLeavesDeleted(s, failing, plan, Key(ClusterRole, "", "rhpam-dev-operator-" + ns));
    DeprovisionDeletes(instanceId, users, devs, NamespaceKey(ns));
    RunLeavesDeleted(s, failing, plan, NamespaceKey(ns));
    if WellFormed(s) {
      RunPreservesWellFormed(s, failing, plan);
    }
  }

  /** Polling "remove" after a successful `RemoveDeploy`, when the
      namespace Get itself works, answers that RHPAM has been deleted. */
  lemma PollAfterRemoveDeploy(s: State, failing: set<Call>, instanceId: string, users: seq<Resource>, devs: seq<Resource>,
                              dev: Result<Option<Resource>, Error>)
    requires Run(s, failing, DeprovisionPlan(instanceId, users, devs)).error.None?
    requires GetCall(NamespaceKey(NamespaceFor(instanceId))) !in failing
    ensures var after := Run(s, failing, DeprovisionPlan(instanceId, users, devs)).state;
      LastOperation(instanceId, "remove", dev, NamespaceLookup(after, failing, NamespaceFor(instanceId))) ==
        Success(LastOperationResponse(Succeeded, "rhpam has been deleted"))
  {
    RemoveDeploySucceeded(s, failing, instanceId, users, devs);
  }

  /** Unlike a delete that tolerates "not found" everywhere, `RemoveDeploy`
      fails when the tenant's cluster role binding is already gone, whatever
      the custom-resource phase does first. */
  lemma RemoveDeployNeedsBinding(s: State, failing: set<Call>, instanceId: string, users: seq<Resource>, devs: seq<Resource>)
    requires Key(ClusterRoleBinding, "", "rhpam-dev-operator-" + NamespaceFor(instanceId)) !in s.objects
    ensures Run(s, failing, DeprovisionPlan(instanceId, users, devs)).error.Some?
  {
    var ns := NamespaceFor(instanceId);
    var u, v, t := UserResourcesPlan(ns, users), DevResourcesPlan(ns, devs), TeardownPlan(ns);
    CustomResourceDeletesShape(RhpamUser, ns, users, DeleteRhpamUsersFailed(ns));
    CustomResourceDeletesShape(RhpamDev, ns, devs, DeleteRhpamDevsFailed(ns));
    RunAppend(s, failing, u, Append(v, t));
    var ru := Run(s, failing, u);
    if ru.error.None? {
      RunRemoves(s, failing, u);
      RunAppend(ru.state, failing, v, t);
      var rv := Run(ru.state, failing, v);
      if rv.error.None? {
        RunRemoves(ru.state, failing, v);
        assert Key(ClusterRoleBinding, "", "rhpam-dev-operator-" + ns) !in rv.state.objects;
        assert Run(rv.state, failing, t).error.Some?;
      }
    }
  }

  /** A second `RemoveDeploy` after one that succeeded fails. */
  lemma RemoveDeployTwice(s: State, failing: set<Call>, instanceId: string,
                          users: seq<Resource>, devs: seq<Resource>, users2: seq<Resource>, devs2: seq<Resource>)
    requires Run(s, failing, DeprovisionPlan(instanceId, users, devs)).error.None?
    ensures Run(Run(s, failing, DeprovisionPlan(instanceId, users, devs)).state, failing,
                DeprovisionPlan(instanceId, users2, devs2)).error.Some?
  {
    RemoveDeploySucceeded(s, failing, instanceId, users, devs);
    RemoveDeployNeedsBinding(Run(s, failing, DeprovisionPlan(instanceId, users, devs)).state, failing, instanceId, users2, devs2);
  }

  // ------------------------------------------------ names agree across entry points

  /** The namespace `Deploy` creates is the one `RemoveDeploy` deletes last,
      and the cluster role and binding it creates are the ones `RemoveDeploy`
      deletes: the same keys, whatever the store. */
  lemma CreatedNamesAreDeletedNames(s: State, s1: State, instanceId: string, username: string)
    ensures var ns := NamespaceFor(instanceId);
      && CallOf(s, NamespaceStep(instanceId).action).key == CallOf(s1, Delete(Namespace, "", ns)).key
      && CallOf(s, Create("", ClusterRoleObj(ns))).key == CallOf(s1, Delete(ClusterRole, "", "rhpam-dev-operator-" + ns)).key
      && CallOf(s, Create("", ClusterRoleBindingObj(ns))).key == CallOf(s1, Delete(ClusterRoleBinding, "", "rhpam-dev-operator-" + ns)).key
  {
  }
}
