/** The resource templates of the RHPAM deployer (pkg/deploys/rhpam/objects.go),
    reduced to what the provisioning and deprovisioning pipelines rely on:
    object kinds, names, generated-name prefixes, namespaces and the
    cross-references (role refs, subjects, service account, selector) that
    tie one template to another. Policy rules, probes, ports, triggers,
    environment variables and the RhpamUser users and roles are static
    payload and are not represented. */
module Objects {

  /** The kinds of object the deployer creates or deletes. RBAC role bindings
      and OpenShift authorization role bindings are the same stored kind. */
  datatype Kind =
    | Namespace
    | ServiceAccount
    | Role
    | RoleBinding
    | ClusterRole
    | ClusterRoleBinding
    | DeploymentConfig
    | RhpamDev
    | RhpamUser

  /** Namespaces, cluster roles and cluster role bindings live outside any namespace. */
  predicate Namespaced(k: Kind) {
    !(k == Namespace || k == ClusterRole || k == ClusterRoleBinding)
  }

  predicate IsCustom(k: Kind) {
    k == RhpamDev || k == RhpamUser
  }

  datatype Meta = Meta(name: string, generateName: string, namespace: string)

  datatype Subject = Subject(kind: string, name: string, namespace: string)

  datatype RoleRef = RoleRef(kind: string, name: string, apiGroup: string)

  /** The part of an object's body that some other object refers to. */
  datatype Spec =
    | Plain
    | Binding(roleRef: RoleRef, subjects: seq<Subject>)
    | Deployment(selector: map<string, string>, podLabels: map<string, string>, serviceAccountName: string)
    | Custom(typeKind: string, apiVersion: string)

  datatype Object = Object(kind: Kind, meta: Meta, spec: Spec)

  const RbacGroup := "rbac.authorization.k8s.io"

  /** The API group and version of the RHPAM custom resources (register.go). */
  function ApiVersion(): (v: string)
    ensures v == "rhpam.integreatly.org/v1alpha1"
  {
    "rhpam.integreatly.org" + "/" + "v1alpha1"
  }

  /** A selector matches a label set when every selector pair is among the labels. */
  predicate Selects(selector: map<string, string>, labels: map<string, string>) {
    forall k :: k in selector ==> k in labels && labels[k] == selector[k]
  }

  function NamespaceObj(id: string): (o: Object)
    ensures o.kind == Namespace && o.meta.name == id && o.meta.generateName == ""
  {
    Object(Namespace, Meta(id, "", ""), Plain)
  }

  /** The operator's service account; its name is the one every binding's
      subject and the deployment config's pod use. */
  function ServiceAccountObj(): (o: Object)
    ensures o.kind == ServiceAccount && o.meta.name != ""
  {
    Object(ServiceAccount, Meta("rhpam-dev-operator", "", ""), Plain)
  }

  /** The operator's namespaced role shares the service account's fixed name. */
  function RoleObj(): (o: Object)
    ensures o.kind == Role && o.meta.name == ServiceAccountObj().meta.name
  {
    Object(Role, Meta("rhpam-dev-operator", "", ""), Plain)
  }

  /** The cluster role carries the namespace in its name, so each tenant has its own. */
  function ClusterRoleObj(namespace: string): (o: Object)
    ensures o.kind == ClusterRole && o.meta.name == "rhpam-dev-operator-" + namespace
    ensures o.meta.generateName == "" && o.meta.namespace == ""
  {
    Object(ClusterRole, Meta("rhpam-dev-operator-" + namespace, "", ""), Plain)
  }

  /** The cluster role binding is named like the cluster role, refers to it,
      and grants it to the operator's service account in the tenant namespace. */
  function ClusterRoleBindingObj(namespace: string): (o: Object)
    ensures o.kind == ClusterRoleBinding && o.meta.name == ClusterRoleObj(namespace).meta.name
    ensures o.meta.generateName == "" && o.meta.namespace == ""
    ensures o.spec == Binding(RoleRef("ClusterRole", ClusterRoleObj(namespace).meta.name, RbacGroup),
                              [Subject("ServiceAccount", ServiceAccountObj().meta.name, namespace)])
  {
    Object(ClusterRoleBinding, Meta("rhpam-dev-operator-" + namespace, "", ""),
           Binding(RoleRef("ClusterRole", "rhpam-dev-operator-" + namespace, RbacGroup),
                   [Subject("ServiceAccount", "rhpam-dev-operator", namespace)]))
  }

  function SystemRoleBinding(name: string, subject: Subject, clusterRole: string): Object {
    Object(RoleBinding, Meta(name, "", ""), Binding(RoleRef("ClusterRole", clusterRole, RbacGroup), [subject]))
  }

  /** The three bindings of the platform's system roles, in creation order. */
  function SystemRoleBindings(namespace: string): (r: seq<Object>)
    ensures |r| == 3
    ensures forall i :: 0 <= i < 3 ==> r[i].kind == RoleBinding && r[i].meta.generateName == "" && r[i].meta.namespace == ""
    ensures r[0].meta.name == "system:deployers"
    ensures r[1].meta.name == "system:image-builders"
    ensures r[2].meta.name == "system:image-pullers"
    ensures r[0].spec.Binding? && r[0].spec.subjects == [Subject("ServiceAccount", "deployer", namespace)]
    ensures r[1].spec.Binding? && r[1].spec.subjects == [Subject("ServiceAccount", "builder", namespace)]
    ensures r[2].spec.Binding? && r[2].spec.subjects == [Subject("Group", "system:serviceaccounts:" + namespace, namespace)]
  {
    [ SystemRoleBinding("system:deployers", Subject("ServiceAccount", "deployer", namespace), "system:deployer"),
      SystemRoleBinding("system:image-builders", Subject("ServiceAccount", "builder", namespace), "system:image-builder"),
      SystemRoleBinding("system:image-pullers", Subject("Group", "system:serviceaccounts:" + namespace, namespace), "system:image-puller") ]
  }

  /** The install binding grants the operator's role to the operator's service account. */
  function InstallRoleBindingObj(): (o: Object)
    ensures o.kind == RoleBinding && o.meta.name == "rhpam-dev-operator:install"
    ensures o.spec == Binding(RoleRef("Role", RoleObj().meta.name, RbacGroup),
                              [Subject("ServiceAccount", ServiceAccountObj().meta.name, "")])
  {
    Object(RoleBinding, Meta("rhpam-dev-operator:install", "", ""),
           Binding(RoleRef("Role", "rhpam-dev-operator", RbacGroup), [Subject("ServiceAccount", "rhpam-dev-operator", "")]))
  }

  /** The operator's binding to the cluster role `role` ("view" or "edit").
      OpenShift authorization bindings name their role only (an object
      reference without kind or group). */
  function OperatorAccessBindingObj(role: string): (o: Object)
    ensures o.kind == RoleBinding && o.meta.name == "rhpam-dev-operator:" + role
    ensures o.spec == Binding(RoleRef("", role, ""), [Subject("ServiceAccount", ServiceAccountObj().meta.name, "")])
  {
    Object(RoleBinding, Meta("rhpam-dev-operator:" + role, "", ""),
           Binding(RoleRef("", role, ""), [Subject("ServiceAccount", "rhpam-dev-operator", "")]))
  }

  /** The calling user's view binding: a server-generated name, the tenant
      namespace, the "view" role and the user as its only subject. */
  function UserViewRoleBindingObj(namespace: string, username: string): (o: Object)
    ensures o.kind == RoleBinding
    ensures o.meta == Meta("", "rhpam-dev-operator:view-", namespace)
    ensures o.spec.Binding? && o.spec.roleRef.name == "view"
    ensures o.spec.subjects == [Subject("User", username, "")]
  {
    Object(RoleBinding, Meta("", "rhpam-dev-operator:view-", namespace),
           Binding(RoleRef("", "view", ""), [Subject("User", username, "")]))
  }

  /** The operator's deployment config runs its pod as the operator's
      service account, and its selector picks out its own pod template. */
  function DeploymentConfigObj(): (o: Object)
    ensures o.kind == DeploymentConfig && o.meta.name == ServiceAccountObj().meta.name
    ensures o.spec.Deployment? && o.spec.serviceAccountName == ServiceAccountObj().meta.name
    ensures "name" in o.spec.selector && Selects(o.spec.selector, o.spec.podLabels)
  {
    Object(DeploymentConfig, Meta("rhpam-dev-operator", "", ""),
           Deployment(map["name" := "rhpam-dev-operator"], map["name" := "rhpam-dev-operator"], "rhpam-dev-operator"))
  }

  /** The RhpamDev custom resource: its name is generated by the server. */
  function RhpamDevObj(namespace: string): (o: Object)
    ensures o.kind == RhpamDev && o.meta == Meta("", "rhpamdev-", namespace)
    ensures o.spec == Custom("RhpamDev", ApiVersion())
  {
    Object(RhpamDev, Meta("", "rhpamdev-", namespace), Custom("RhpamDev", "rhpam.integreatly.org/v1alpha1"))
  }

  function RhpamUserObj(namespace: string): (o: Object)
    ensures o.kind == RhpamUser && o.meta == Meta("", "rhpamuser-", namespace)
    ensures o.spec == Custom("RhpamUser", ApiVersion())
  {
    Object(RhpamUser, Meta("", "rhpamuser-", namespace), Custom("RhpamUser", "rhpam.integreatly.org/v1alpha1"))
  }

  // The user's role and the user's two role bindings are called by the
  // deployer, but their template bodies are not part of this model. They
  // appear here as objects of the right kind whose names the server
  // generates; the prefixes are placeholders.

  function UserRoleObj(): (o: Object)
    ensures o.kind == Role && o.meta.name == "" && o.meta.generateName != ""
  {
    Object(Role, Meta("", "user-role-", ""), Plain)
  }

  /** A role binding whose name the server generates from `prefix`. */
  function PlaceholderBindingObj(prefix: string): (o: Object)
    requires prefix != ""
    ensures o.kind == RoleBinding && o.meta.name == "" && o.meta.generateName == prefix
  {
    Object(RoleBinding, Meta("", prefix, ""), Plain)
  }
}
