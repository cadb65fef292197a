/** The messages the deployer wraps cluster errors with (pkg/deploys/rhpam/deployer.go),
    and `RhpamDevNotFound`, the resolver's own not-found error, which wraps
    nothing. Each is a constructor, carrying the name, namespace or instance
    id the text mentions; `Text` gives the exact wording. */
module Messages {

  datatype Message =
    // Deploy
    | CreateNamespaceFailed
    | CreateServiceAccountFailed
    | CreateRoleFailed
    | CreateUserRoleFailed
    | CreateClusterRoleFailed
    | CreateClusterRoleBindingFailed
    // createRoleBindings
    | CreateRoleBindingFailed(bindingName: string)
    | CreateInstallRoleBindingFailed
    | CreateUserRoleBindingFailed
    | AuthorizationClientFailed
    | CreateViewRoleBindingFailed
    | CreateEditRoleBindingFailed
    | CreateUserViewRoleBindingFailed
    | CreateUserEditRoleBindingFailed
    // createRhpamOperator
    | DeploymentConfigClientFailed
    | CreateDeploymentConfigFailed
    // RemoveDeploy
    | DeleteRhpamUsersFailed(namespace: string)
    | DeleteRhpamDevsFailed(namespace: string)
    | DeleteClusterRoleBindingFailed
    | DeleteClusterRoleFailed
    | DeleteNamespaceFailed(namespace: string)
    // ServiceInstanceLastOperation: the not-found error for an unknown instance
    | RhpamDevNotFound(instanceId: string)

  /** Every message the deployer wraps an error with says what failed; the
      not-found error names the missing instance. */
  function Text(m: Message): (t: string)
    ensures !m.RhpamDevNotFound? ==> |t| >= 10 && t[..10] == "failed to "
    ensures m.RhpamDevNotFound? ==> |t| >= 9 && t[|t| - 9..] == "not found"
  {
    if m.RhpamDevNotFound? then
      var prefix := "RhpamDev.rhpam.integreatly.org \"" + m.instanceId;
      assert (prefix + "\" not found")[|prefix| + 2..] == "not found";
      prefix + "\" not found"
    else "failed to " + WhatFailed(m)
  }

  /** What a wrapped error says failed. */
  function WhatFailed(m: Message): string
    requires !m.RhpamDevNotFound?
  {
    match m
    case CreateNamespaceFailed => "create namespace for rhpam service"
    case CreateServiceAccountFailed => "create service account for rhpam service"
    case CreateRoleFailed => "create role for rhpam service"
    case CreateUserRoleFailed => "create role for rhpam service user"
    case CreateClusterRoleFailed => "create clusterrole for rhpam service"
    case CreateClusterRoleBindingFailed => "create clusterrolebinding for rhpam service"
    case CreateRoleBindingFailed(name) => "create rolebinding for " + name
    case CreateInstallRoleBindingFailed => "create install role binding for rhpam service"
    case CreateUserRoleBindingFailed => "create user role binding for rhpam service"
    case AuthorizationClientFailed => "create an openshift authorization client"
    case CreateViewRoleBindingFailed => "create view role binding for rhpam service"
    case CreateEditRoleBindingFailed => "create edit role binding for rhpam service"
    case CreateUserViewRoleBindingFailed => "create user view role binding for rhpam service"
    case CreateUserEditRoleBindingFailed => "create user edit role binding for rhpam service"
    case DeploymentConfigClientFailed => "create an openshift deployment config client"
    case CreateDeploymentConfigFailed => "create deployment config for rhpam service"
    case DeleteRhpamUsersFailed(ns) => "delete rhpamuser resources in namespace " + ns
    case DeleteRhpamDevsFailed(ns) => "delete rhpamdev resources in namespace " + ns
    case DeleteClusterRoleBindingFailed => "delete clusterrolebinding for rhpam service"
    case DeleteClusterRoleFailed => "delete clusterrole for rhpam service"
    case DeleteNamespaceFailed(ns) => "delete namespace " + ns
  }
}
