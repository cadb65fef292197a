# RHPAM deployer model

A Dafny model of the RHPAM deployer of the managed service broker
(`pkg/deploys/rhpam`), with proofs of what its three entry points promise.

- **Provisioning (`Deploy`).** A fixed, ordered sequence of create calls against the cluster. The sequence is:
  - the tenant namespace `"rhpam-" + instanceId`;
  - the operator's service account and role, and the user's role;
  - nine role bindings;
  - the per-tenant cluster role and its cluster role binding;
  - the operator's deployment config;
  - the RhpamDev custom resource, then the RhpamUser custom resource.

  The pipeline stops at the first error, answers HTTP 500, and rolls nothing back. Only the three system role bindings tolerate "already exists".
- **Deprovisioning (`RemoveDeploy`).** The steps, in order:
  - list and delete, item by item, every RhpamUser and then every RhpamDev;
  - delete the cluster role binding, the cluster role and the namespace.

  Only a "not found" on the namespace delete is tolerated.
- **Status resolution (`ServiceInstanceLastOperation`).** Maps an operation token and a look at the cluster to Succeeded, InProgress, Failed, or an error. It changes nothing.

## Structure

| file | module | contents |
|---|---|---|
| `wrappers.dfy` | `Wrappers` | `Option`, `Result` |
| `messages.dfy` | `Messages` | every modelled message the deployer wraps errors with, and the resolver's own not-found error, each with its exact text |
| `objects.dfy` | `Objects` | the templates of `objects.go`, reduced to kinds, names, generated-name prefixes, namespaces, role refs, subjects and the deployment selector |
| `cluster.dfy` | `Cluster` | the cluster API (details below) |
| `pipeline.dfy` | `Pipeline` | plans and `Run`, the reference semantics of fail-fast step-by-step code (details below) |
| `deployer.dfy` | `Deployer` | the plans of both pipelines, the resolver's decision table `LastOperation`, and class `RhpamDeployer` |
| `properties.dfy` | `DeployerProperties` | order, tolerance, fail-fast, no-rollback, success, resolver and naming properties, proved about the plans and `Run` |

The cluster API in `cluster.dfy`:
- A store maps (kind, namespace, name) to a resource.
- `Exec` gives the effect of one call:
  - create fails with "invalid" for an object with neither a name nor a generate-name prefix, or whose namespace differs from the client's;
  - create fails with "not found" for a namespaced object whose namespace does not exist;
  - create fails with "already exists" on a taken key;
  - delete and get fail with "not found" on a missing key;
  - deleting a namespace cascades to everything inside it.
- Class `Cluster` holds the store, an injectable set of failing calls (the *failure oracle*: those calls fail with a server error), and a ghost trace of every call made.

`pipeline.dfy` holds the generic lemmas: fail-fast, no rollback, removal, concatenation and error wrapping.

`RhpamDeployer` has one method per pipeline stage of `deployer.go`: `Deploy`, `RemoveDeploy`, `ServiceInstanceLastOperation`, `getRhpamDev`, `createRoleBindings`, `createRhpamOperator`, one method shared by the two custom-resource creates, one by the two list-and-delete functions and one by the two single deletes, and three stages that split `Deploy` and `createRoleBindings` into smaller parts. `getRouteHostname` is the function `RouteHostname`. Each method makes its cluster calls one at a time, as the source does. For every method except the two lookups, the contract says the cluster's store and trace moved exactly as `Run` of the method's plan says, and the error it returns is that run's error. The two lookups, `ServiceInstanceLastOperation` and `GetRhpamDev`, leave the store unchanged. Their trace grows by the namespace Get (for "remove") or by `Run` of `DevLookupPlan`, the client and the list of `getRhpamDev`.

The route suffix that the source reads from the environment is a constructor parameter. The names of the listed custom resources, which depend on the server's list order, are ghost out-parameters.

## Model

| member | source | states |
|---|---|---|
| Objects.ApiVersion | pkg/deploys/rhpam/pkg/apis/rhpam/v1alpha1/register.go:18-20 | the custom resources' API version is "rhpam.integreatly.org/v1alpha1" |
| Objects.NamespaceObj | pkg/deploys/rhpam/objects.go:55-61 | the namespace object is named exactly after its argument, with no generated name |
| Objects.ServiceAccountObj | pkg/deploys/rhpam/objects.go:64-70 | the operator's service account has a fixed nonempty name |
| Objects.RoleObj | pkg/deploys/rhpam/objects.go:119-123 | the operator's role has the same name as the service account |
| Objects.ClusterRoleObj | pkg/deploys/rhpam/objects.go:73-77 | the cluster role is cluster-scoped and named "rhpam-dev-operator-" + namespace |
| Objects.ClusterRoleBindingObj | pkg/deploys/rhpam/objects.go:98-116 | the binding has the cluster role's name; its role ref is that ClusterRole; its only subject is the operator's service account in the tenant namespace |
| Objects.SystemRoleBindings | pkg/deploys/rhpam/objects.go:160-214 | exactly three bindings, in order: system:deployers, system:image-builders, system:image-pullers; their subjects are the deployer account, the builder account and the group "system:serviceaccounts:" + namespace |
| Objects.InstallRoleBindingObj | pkg/deploys/rhpam/objects.go:217-234 | the install binding refers to the operator's Role by its name and grants it to the operator's service account |
| Objects.OperatorAccessBindingObj | pkg/deploys/rhpam/objects.go:236-268 | the binding "rhpam-dev-operator:" + role grants that role ("view" or "edit") to the operator's service account |
| Objects.UserViewRoleBindingObj | pkg/deploys/rhpam/objects.go:270-286 | generated-name prefix "rhpam-dev-operator:view-", the tenant namespace, role "view", and the calling user as its only subject |
| Objects.DeploymentConfigObj | pkg/deploys/rhpam/objects.go:289-309 | the pod runs as the operator's service account; the selector name=rhpam-dev-operator matches the pod template's labels |
| Objects.RhpamDevObj | pkg/deploys/rhpam/objects.go:390-404 | kind RhpamDev, the tenant namespace, generated-name prefix "rhpamdev-", type kind "RhpamDev" with the group's API version |
| Objects.RhpamUserObj | pkg/deploys/rhpam/objects.go:407-423 | kind RhpamUser, the tenant namespace, generated-name prefix "rhpamuser-", type kind "RhpamUser" with the group's API version |
| Objects.UserRoleObj | pkg/deploys/rhpam/deployer.go:73 | a Role whose name the server generates |
| Objects.PlaceholderBindingObj | pkg/deploys/rhpam/deployer.go:248 | a RoleBinding whose name the server generates from the given prefix (the user's role binding, and at line 273 the user's edit binding) |
| Cluster.Wrap | pkg/deploys/rhpam/deployer.go:45-50 | wrapping keeps the error's kind and puts the message in front of the earlier ones |
| Cluster.GeneratedName | pkg/deploys/rhpam/objects.go:396-399 | a generated name is strictly longer than its prefix and starts with it |
| Cluster.ExecPreservesWellFormed | pkg/deploys/rhpam/deployer.go:170-176 | no call breaks the store's invariant; in particular a namespace delete leaves nothing namespaced without its namespace |
| Cluster.Cluster.Create | pkg/deploys/rhpam/deployer.go:237-240 | a create fails exactly when the model refuses it, with that error ("already exists" for a taken key); on success it returns the object now stored; the call is traced |
| Cluster.Cluster.Delete | pkg/deploys/rhpam/deployer.go:157-161 | the delete has the effect `Exec` gives, including "not found" for a missing key, and is traced |
| Cluster.Cluster.Get | pkg/deploys/rhpam/deployer.go:207 | a get fails exactly when `Exec` reports an error, with that error; otherwise it returns the stored object; the store is unchanged |
| Cluster.Cluster.Connect | pkg/deploys/rhpam/deployer.go:253-256 | obtaining a client fails exactly when the oracle says so, with a server error |
| Cluster.Cluster.List | pkg/deploys/rhpam/deployer.go:357-360 | a list fails exactly when the oracle says so; otherwise it returns every stored object of that kind in that namespace once each, in some order |
| Cluster.Enumerate | pkg/deploys/rhpam/deployer.go:357-360 | the listing loop yields every wanted key exactly once, each paired with the resource stored under it |
| Pipeline.AppendAssociative | pkg/deploys/rhpam/deployer.go:82-88 | plans nest: appending is associative, so a nested stage can be split anywhere |
| Pipeline.RunAppend | pkg/deploys/rhpam/deployer.go:82-88 | running two plans back to back equals running their concatenation, stopping after the first one's error |
| Pipeline.RunWrapped | pkg/deploys/rhpam/deployer.go:145-154 | wrapping every step's error in one message wraps the run's error in it and changes nothing else |
| Pipeline.RunIsFailFast | pkg/deploys/rhpam/deployer.go:44-132 | the i-th call is the plan's i-th step; no step follows a fatal error; the error returned is the failed call's, wrapped with its step's messages |
| Pipeline.RunKeeps | pkg/deploys/rhpam/deployer.go:44-132 | a plan without deletes keeps every earlier object and every object its creates stored, on every path; new objects have no phase |
| Pipeline.RunRemoves | pkg/deploys/rhpam/deployer.go:141-177 | a plan without creates stores nothing new, and every key it deleted or found missing stays missing |
| Pipeline.RunPreservesWellFormed | pkg/deploys/rhpam/deployer.go:141-177 | running any plan keeps the store's invariant |
| Messages.Text | pkg/deploys/rhpam/deployer.go:45-50 | every message an error is wrapped with reads "failed to …" (the wording of each `errors.Wrap` call of deployer.go), and the not-found error ends in "not found" |
| Deployer.NamespaceFor | pkg/deploys/rhpam/deployer.go:44 | the tenant namespace is "rhpam-" + instance id, and the id can be read back from it, so two instances never share a namespace (also lines 142 and 183) |
| Deployer.DashboardURL | pkg/deploys/rhpam/deployer.go:134-138 | the dashboard URL is "https://rhpam-bc-" followed by the route host |
| Deployer.RouteHostname | pkg/deploys/rhpam/deployer.go:314-321 | the host is the namespace when no suffix is configured, and namespace + "." + suffix otherwise |
| Deployer.FirstRhpamDev | pkg/deploys/rhpam/deployer.go:426-439 | a list error passes through unchanged; an empty list gives none; otherwise the first listed item |
| Deployer.LastOperation | pkg/deploys/rhpam/deployer.go:180-233 | "remove" never fails, and is Succeeded "rhpam has been deleted" iff the namespace Get says not found, else InProgress "rhpam is deleting"; other tokens pass on the RhpamDev lookup's error and report not-found (naming the instance) when there is none; "deploy" is Succeeded "rhpam deployed successfully" iff the phase is complete, else InProgress "rhpam is deploying"; other tokens are Failed "unknown operation: " + token |
| Pipeline.Run | pkg/deploys/rhpam/deployer.go:44-132 | no contract; the reference semantics of the step-by-step `if err != nil { return … }` code, which the lemmas above characterise |
| Deployer.ProvisionPlan | pkg/deploys/rhpam/deployer.go:40-132 | no contract; the reference step list `Deploy` is proved to follow |
| Deployer.TenantPlan | pkg/deploys/rhpam/deployer.go:54-132 | no contract; the steps after the namespace |
| Deployer.RoleBindingsPlan | pkg/deploys/rhpam/deployer.go:235-279 | no contract; the steps of `createRoleBindings` |
| Deployer.SystemBindingsPlan | pkg/deploys/rhpam/deployer.go:236-241 | no contract; one tolerant step per system binding |
| Deployer.OperatorBindingsPlan | pkg/deploys/rhpam/deployer.go:243-278 | no contract; the install and user bindings, then the authorization bindings |
| Deployer.AuthorizationBindingsPlan | pkg/deploys/rhpam/deployer.go:253-278 | no contract; the authorization client and the four bindings made through it |
| Deployer.OperatorPlan | pkg/deploys/rhpam/deployer.go:289-301 | no contract; the steps of `createRhpamOperator` |
| Deployer.CustomResourcePlan | pkg/deploys/rhpam/deployer.go:324-336 | no contract; a client, then the create (also lines 405-417) |
| Deployer.CustomResourcesPlan | pkg/deploys/rhpam/deployer.go:117-132 | no contract; the RhpamDev, then the RhpamUser |
| Deployer.ClusterRbacAndWorkloadsPlan | pkg/deploys/rhpam/deployer.go:90-132 | no contract; cluster role, cluster role binding, operator, custom resources |
| Deployer.DeleteOnePlan | pkg/deploys/rhpam/deployer.go:339-349 | no contract; a client, then the delete (also lines 372-382) |
| Deployer.DeleteEachPlan | pkg/deploys/rhpam/deployer.go:363-367 | no contract; one single delete per listed item |
| Deployer.DeleteAllPlan | pkg/deploys/rhpam/deployer.go:352-369 | no contract; client, list, then each item (also lines 385-402) |
| Deployer.UserResourcesPlan | pkg/deploys/rhpam/deployer.go:144-148 | no contract; the RhpamUser deletion wrapped with its message |
| Deployer.DevResourcesPlan | pkg/deploys/rhpam/deployer.go:150-154 | no contract; the RhpamDev deletion wrapped with its message |
| Deployer.TeardownPlan | pkg/deploys/rhpam/deployer.go:156-177 | no contract; cluster role binding, cluster role, namespace |
| Deployer.DeprovisionPlan | pkg/deploys/rhpam/deployer.go:141-177 | no contract; the reference step list `RemoveDeploy` is proved to follow |
| Deployer.RhpamDeployer.Deploy | pkg/deploys/rhpam/deployer.go:40-139 | the cluster went through the whole provisioning plan; on error the response is 500 with the run's error; on success it is 202 with "https://rhpam-bc-" + host and operation "deploy" |
| Deployer.RhpamDeployer.PopulateNamespace | pkg/deploys/rhpam/deployer.go:54-132 | the part of `Deploy` after the namespace runs its plan exactly |
| Deployer.RhpamDeployer.CreateClusterRbacAndWorkloads | pkg/deploys/rhpam/deployer.go:90-132 | the cluster role, its binding, the operator and both custom resources are created as their plan says |
| Deployer.RhpamDeployer.CreateRoleBindings | pkg/deploys/rhpam/deployer.go:235-279 | the loop over the system bindings and the bindings after it run the role-binding plan exactly |
| Deployer.RhpamDeployer.CreateAuthorizationBindings | pkg/deploys/rhpam/deployer.go:253-278 | the authorization client, then the four bindings made through it, as their plan says |
| Deployer.RhpamDeployer.CreateRhpamOperator | pkg/deploys/rhpam/deployer.go:289-301 | the apps client, then the deployment config, with their messages |
| Deployer.RhpamDeployer.CreateCustomResource | pkg/deploys/rhpam/deployer.go:324-336 | a client for the resource's kind, then the create, with errors returned unwrapped (also createRhpamUserCustomResource, lines 405-417) |
| Deployer.RhpamDeployer.DeleteCustomResources | pkg/deploys/rhpam/deployer.go:352-369 | a client, the list, then one delete per listed item in list order, stopping at the first error; the items are what the list gave (also the RhpamUser variant, lines 385-402) |
| Deployer.RhpamDeployer.DeleteCustomResource | pkg/deploys/rhpam/deployer.go:339-349 | a client, then the delete of that one name, with errors unwrapped (also the RhpamUser variant, lines 372-382) |
| Deployer.RhpamDeployer.RemoveDeploy | pkg/deploys/rhpam/deployer.go:141-178 | the cluster went through the deprovisioning plan for the items each list actually returned; the response operation is "remove" exactly when no error is returned |
| Deployer.RhpamDeployer.ServiceInstanceLastOperation | pkg/deploys/rhpam/deployer.go:180-233 | the store is unchanged; the trace grows by the namespace Get for "remove" and by the RhpamDev lookup otherwise; the answer is `LastOperation` of what the RhpamDev lookup and the namespace Get returned |
| Deployer.RhpamDeployer.GetRhpamDev | pkg/deploys/rhpam/deployer.go:420-440 | the store is unchanged and the trace grows by `Run` of `DevLookupPlan`; the result is an error if the client or the list fails, else the first listed RhpamDev, or none |
| Deployer.DevLookupPlan | pkg/deploys/rhpam/deployer.go:420-428 | no contract; the calls `getRhpamDev` makes, named by the trace ensures of `GetRhpamDev` and `ServiceInstanceLastOperation` |
| DeployerProperties.SystemBindingsShape | pkg/deploys/rhpam/deployer.go:236-241 | the system-binding loop creates one binding per element, in order; each tolerates "already exists" |
| DeployerProperties.SystemBindingsKinds | pkg/deploys/rhpam/deployer.go:236-241 | the system-binding loop creates one object per binding, of that binding's kind, in order |
| DeployerProperties.SystemBindingsTolerant | pkg/deploys/rhpam/deployer.go:236-241 | the system-binding loop adds one "already exists"-tolerant step per binding, in order, and no delete |
| DeployerProperties.RoleBindingsShape | pkg/deploys/rhpam/deployer.go:235-279 | `createRoleBindings` creates nine role bindings; only the three system ones tolerate an error |
| DeployerProperties.DeployCreationOrder | pkg/deploys/rhpam/deployer.go:40-139 | creation order: namespace, service account, role, user role, nine role bindings, cluster role, cluster role binding, deployment config, RhpamDev, RhpamUser |
| DeployerProperties.DeployTolerance | pkg/deploys/rhpam/deployer.go:236-241 | in all of `Deploy`, exactly the three system bindings let an error pass, and only "already exists" |
| DeployerProperties.DeployNeverDeletes | pkg/deploys/rhpam/deployer.go:40-139 | provisioning makes no delete call |
| DeployerProperties.DeployFailFast | pkg/deploys/rhpam/deployer.go:44-132 | `Deploy` is fail-fast on every store and every failure oracle |
| DeployerProperties.DeployKeeps | pkg/deploys/rhpam/deployer.go:44-132 | no rollback: after any `Deploy`, earlier objects and everything it created are still stored, and nothing new has a phase |
| DeployerProperties.RunStoresCreated | pkg/deploys/rhpam/deployer.go:44-132 | in a successful run of a delete-free plan, every key its steps create is stored at the end |
| DeployerProperties.RunCreatesPresent | pkg/deploys/rhpam/deployer.go:44-132 | in a successful run whose creates tolerate at most "already exists", every create call either stored its object or found one there |
| DeployerProperties.RunStoresEveryCreate | pkg/deploys/rhpam/deployer.go:44-132 | in a successful delete-free run whose creates tolerate at most "already exists", every object a create call named is stored at the end |
| DeployerProperties.DeployCreatesNamed | pkg/deploys/rhpam/deployer.go:44-82 | provisioning has a step that creates each of: the namespace, service account, role and install binding keys |
| DeployerProperties.DeployCreatesWorkloads | pkg/deploys/rhpam/deployer.go:90-115 | provisioning has a step that creates each of: the cluster role, cluster role binding and deployment config keys |
| DeployerProperties.DeploySucceeded | pkg/deploys/rhpam/deployer.go:40-139 | after a successful `Deploy` those seven objects are all stored |
| DeployerProperties.DeployStoresCustomResources | pkg/deploys/rhpam/deployer.go:117-132 | after a successful `Deploy` a RhpamDev and a RhpamUser are stored in the tenant namespace |
| DeployerProperties.RunStoresSome | pkg/deploys/rhpam/deployer.go:117-132 | in a successful run of a delete-free plan, each strict create leaves an object of its kind and namespace stored, whatever name the server generated |
| DeployerProperties.ProvisionSplits | pkg/deploys/rhpam/deployer.go:40-132 | `Deploy` is everything before the custom resources, then the custom resources |
| DeployerProperties.CustomResourcesCreatedLast | pkg/deploys/rhpam/deployer.go:117-132 | the custom resources are created only after every earlier step passed, on the store those steps left; that store holds the namespace, service account, role, install binding, cluster role, cluster role binding and deployment config, and the object of every create call the setup made |
| DeployerProperties.SetupPlan | pkg/deploys/rhpam/deployer.go:40-116 | no contract; `ProvisionSplits` proves ProvisionPlan == Append(SetupPlan, CustomResourcesPlan) |
| DeployerProperties.SetupTolerance | pkg/deploys/rhpam/deployer.go:236-241 | everything `Deploy` does before the custom resources tolerates at most "already exists", on the system bindings |
| DeployerProperties.SetupStoresNamed | pkg/deploys/rhpam/deployer.go:44-88 | a successful setup stores the namespace, service account, role and install binding |
| DeployerProperties.SetupStoresWorkloads | pkg/deploys/rhpam/deployer.go:90-115 | a successful setup stores the cluster role, cluster role binding and deployment config |
| DeployerProperties.DeployNeedsFreshNamespace | pkg/deploys/rhpam/deployer.go:44-52 | a successful `Deploy` on a consistent store means its namespace did not exist before, and so held nothing |
| DeployerProperties.DevAfterDeploy | pkg/deploys/rhpam/deployer.go:420-440 | right after a `Deploy` into a tenant namespace with no RhpamDev, any RhpamDev the lookup finds has no phase yet |
| DeployerProperties.LookupFinds | pkg/deploys/rhpam/deployer.go:426-439 | when a RhpamDev is stored and its client and list work, `getRhpamDev` finds one |
| DeployerProperties.FreshDevFound | pkg/deploys/rhpam/deployer.go:420-440 | right after a successful `Deploy` on a consistent store, with the RhpamDev client and list working, `getRhpamDev` finds a RhpamDev with no phase yet |
| DeployerProperties.PollAfterDeploy | pkg/deploys/rhpam/deployer.go:185-204 | polling "deploy" right after a successful `Deploy` on a consistent store, with the RhpamDev client and list working, answers InProgress "rhpam is deploying" |
| DeployerProperties.PollRightAfterDeploy | pkg/deploys/rhpam/deployer.go:185-204 | polling "deploy" right after a `Deploy` into a tenant namespace with no RhpamDev never answers Succeeded, only InProgress "rhpam is deploying" or an error, whatever fails |
| DeployerProperties.PollUnknownInstance | pkg/deploys/rhpam/deployer.go:185-192 | with no RhpamDev in the namespace, polling any token but "remove" is an error; it is the not-found error when the client and the list work |
| DeployerProperties.DeleteEachShape | pkg/deploys/rhpam/deployer.go:363-367 | one delete per listed item, in list order, none tolerating an error |
| DeployerProperties.CustomResourceDeletesShape | pkg/deploys/rhpam/deployer.go:352-369 | a wrapped custom-resource deletion deletes exactly the listed items in order, creates nothing, tolerates nothing |
| DeployerProperties.TeardownPlanShape | pkg/deploys/rhpam/deployer.go:156-176 | cluster role binding, cluster role, then namespace, all three named "rhpam-dev-operator-" + ns or ns; only the namespace delete tolerates "not found" |
| DeployerProperties.RemoveDeployDeleteOrder | pkg/deploys/rhpam/deployer.go:141-177 | deletes: every listed RhpamUser in order, every listed RhpamDev in order, then cluster role binding, cluster role, namespace |
| DeployerProperties.RemoveDeployTolerance | pkg/deploys/rhpam/deployer.go:170-176 | in all of `RemoveDeploy`, only the namespace delete lets an error pass, and only "not found" |
| DeployerProperties.RemoveDeployFailFast | pkg/deploys/rhpam/deployer.go:141-177 | `RemoveDeploy`, including its per-item deletes, stops at the first failing call |
| DeployerProperties.RemoveDeployNeverCreates | pkg/deploys/rhpam/deployer.go:141-177 | deprovisioning makes no create call |
| DeployerProperties.RunLeavesDeleted | pkg/deploys/rhpam/deployer.go:141-177 | in a successful run of a create-free plan, every key its steps delete is absent at the end |
| DeployerProperties.RemoveDeploySucceeded | pkg/deploys/rhpam/deployer.go:141-178 | after a successful `RemoveDeploy` the tenant's cluster role binding and cluster role are gone, and, with namespace deletion taken as immediate, so is the namespace; on a well-formed store nothing namespaced in the tenant's namespace remains |
| DeployerProperties.PollAfterRemoveDeploy | pkg/deploys/rhpam/deployer.go:206-218 | polling "remove" after a successful `RemoveDeploy`, with the namespace Get working, answers Succeeded "rhpam has been deleted" (with namespace deletion taken as immediate) |
| DeployerProperties.RemoveDeployNeedsBinding | pkg/deploys/rhpam/deployer.go:157-161 | if the tenant's cluster role binding is missing, `RemoveDeploy` returns an error |
| DeployerProperties.RemoveDeployTwice | pkg/deploys/rhpam/deployer.go:141-178 | a second `RemoveDeploy` after a successful one returns an error |
| DeployerProperties.CreatedNamesAreDeletedNames | pkg/deploys/rhpam/deployer.go:157-170 | the namespace, cluster role and cluster role binding keys that `Deploy` creates are the keys `RemoveDeploy` deletes |

## Left out

- The Kubernetes and OpenShift clients, `GetResourceClient`, `UnstructuredFromRuntimeObject` and `RuntimeObjectIntoRuntimeObject` are replaced by the abstract cluster. The conversion error path of `getRhpamDev` (deployer.go:430-433) is therefore not modelled.
- Error-string matching (`strings.Contains(err.Error(), "already exists")` and `"not found"`) is modelled as error kinds. An error of another kind whose text happens to contain the phrase is not distinguished.
- The exact Go error texts are not modelled. A wrapped error is its kind plus the list of wrapping messages; `Messages.Text` gives each message's wording.
- The text of `RhpamDevNotFound` assumes the not-found error reads `RhpamDev.rhpam.integreatly.org "<id>" not found`. The API machinery's formatting is not part of this model.
- Logging (`glog`), the unused `async` parameter, `NewDeployer`, `GetCatalogEntries` and the catalog, and the never-called `createClusterRoleBinding` are out.
- Environment lookups become parameters, because the model has no process environment:
  - `ROUTE_SUFFIX` in `getRouteHostname` is the constructor's `routeSuffix`;
  - the RhpamDev's `Domain` field (objects.go:400-402) is not represented;
  - the SSO package variables are not represented.
- Static template payloads are out, because nothing reads them back: policy rules, the deployment config's strategy, replicas, containers, probes, ports and triggers, and the RhpamUser users and roles.
- Objects.UserRoleObj: the template body is not part of this model. It is a Role with a server-generated name under a placeholder prefix.
- Objects.PlaceholderBindingObj: the templates of the user's role binding and edit binding are not part of this model, so their role refs and subjects are not stated.
- The order in which the server lists custom resources is left open. Any duplicate-free enumeration is allowed.
- The external controller that sets a custom resource's phase is not modelled. The phase is an input.
- Namespace deletion cascades immediately in the model. The real server finalizes in the background. The resolver's "remove" branch still sees any Get result, because the Get result is an input of `LastOperation`.
- Concurrency between broker requests is not modelled.
- `PopulateNamespace`, `CreateClusterRbacAndWorkloads` and `CreateAuthorizationBindings` are not source functions. They are consecutive parts of `Deploy` and `createRoleBindings`, split out so that each proof stays small. `Deploy` and `CreateRoleBindings` call them in the source's order.
- `zz_generated.deepcopy.go` is Go pointer copying, which is the identity on Dafny values.
- Deprovisioning is not idempotent, and the model keeps it so. `RemoveDeploy` tolerates "not found" only on the namespace delete (deployer.go:170-175). So it fails when the cluster role binding is already gone, and a repeated `RemoveDeploy` fails; see also `RemoveDeployNeedsBinding`.
- Of all the creates in `Deploy`, only the three system role bindings tolerate "already exists" (deployer.go:236-241). A repeated `Deploy` therefore fails at the namespace create; see `DeployTolerance` and `DeployNeedsFreshNamespace`.
- The "already exists" tolerance on the system role bindings can never apply in the model. `DeployNeedsFreshNamespace` shows that, when the strict namespace create passed, the namespace is new and empty, so those bindings cannot exist yet. On the real platform, OpenShift pre-creates those bindings in every new namespace, and the tolerance is there for that case.
- The failure oracle is fixed per call, so a transient error cannot be expressed: a call fails every time or never. For example, in `DeleteOnePlan` the per-item client connect cannot fail once the identical connect before the list has succeeded.
