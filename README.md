# Website operator: a Dafny model of the reconcile loop

This project models the core of a Kubernetes operator for `Website` objects. A
Website asks for a static page (`indexHTML`), a replica count, an optional
container image and an optional service type. One reconcile of a Website does the following:

1. It fetches the Website. If it is gone, the reconcile ends quietly.
2. It derives three object names (`<name>-content`, `<name>-deploy`,
   `<name>-svc`) and one label map `{app.kubernetes.io/name: <name>}`.
3. It runs create-or-update on a ConfigMap holding the page under `index.html`.
4. It runs create-or-update on a Deployment of one nginx container that mounts
   that ConfigMap at `/usr/share/nginx/html` and listens on 8080.
5. It runs create-or-update on a Service that maps port 80 to 8080 and
   selects the same labels.
6. It re-reads the Deployment and writes the Website's status: available
   replicas, service name and in-cluster URL.

Each step's failure ends the reconcile with that error. A conflict on the
status write asks for a requeue instead.

Layout, one module per file:

- `wrappers.dfy` (`Wrappers`): Option and Result.
- `meta.dfy` (`Meta`): namespaced names, object metadata, the controller
  owner reference and API errors.
- `website_types.dfy` (`WebsiteTypes`): `WebsiteSpec`, `WebsiteStatus`,
  `Website` and `ValidSpec`. `ValidSpec` holds the schema's validation
  markers.
- `resources.dfy` (`Resources`): the ConfigMap, Deployment and Service
  shapes. They hold the fields the controller writes, plus the fields it must
  leave alone.
- `desired.dfy` (`Desired`): the controller's constants, names, labels and
  defaults, the three mutate closures, and the status projection.
- `desired_properties.dfy` (`DesiredProperties`): lemmas about the pure part.
- `store.dfy` (`Store`): the API server as one map per kind. Reads, the
  write half of create-or-update, and the status-subresource write.
- `reconciler.dfy` (`Reconciler`): three kinds of member.
  - The three create-or-update steps.
  - `Reconciled`, a specification function for one reconcile.
  - Two classes. `Cluster` holds the four maps as fields.
    `WebsiteReconciler.Reconcile` performs the steps one at a time on those
    fields, with early returns. Its postcondition equates the new store and
    its result with `Reconciled` applied to the old store.
- `properties.dfy` (`ReconcileProperties`): lemmas about one reconcile and
  about two reconciles in a row.

The API server's behaviour is passed in as a `Faults` value. It holds one
optional error per API call of a reconcile, in call order. Which call fails,
and how, is chosen by the caller of the model. A missing Website comes from
the store itself: its key is absent. It can also come from a `NotFound`
fault on the first read. Both end in `Done`.

Three behaviours of the code shape the model:

- A conflict inside create-or-update is returned as an error, like any other
  failure; the next reconcile is what tries again.
- If the re-read of the Deployment fails, the code keeps the previously
  stored `availableReplicas` (`ProjectStatus`, `ReconcileStatus`).
- The code builds each object locally with name, namespace and labels. The
  create-or-update read then replaces that object with the stored one when it
  exists. So metadata labels are set when an object is created, and are not
  reset on update. Selectors and template labels are reset on every reconcile
  (`ApplyConfigMap`, `ApplyDeployment`, `ApplyService`).

## Model

| member | source | states |
|---|---|---|
| `Meta.SetControllerReference` | website-operator/internal/controller/website_controller.go:90 | the site becomes the object's controlling owner; the object's name, namespace and labels are unchanged |
| `Desired.TrimSuffix` | website-operator/internal/controller/website_controller.go:40-42 | removing a suffix gives back a stem that, with the suffix appended, is the original name |
| `Desired.TrimSuffixAfterAppend` | website-operator/internal/controller/website_controller.go:69-71 | appending a suffix and then removing it gives back the original name |
| `Desired.DerivedNamesRoundTrip` | website-operator/internal/controller/website_controller.go:69-71 | each of the three derived names leads back to the site name it came from |
| `Desired.DerivedNamesInjective` | website-operator/internal/controller/website_controller.go:69-71 | two different sites never share a ConfigMap, Deployment or Service name |
| `Desired.DerivedNamesDistinct` | website-operator/internal/controller/website_controller.go:40-42 | a ConfigMap name, a Deployment name and a Service name never coincide, whichever sites they come from |
| `Desired.Labels` | website-operator/internal/controller/website_controller.go:73-75 | the label map has exactly one key, `app.kubernetes.io/name`, mapped to the site name |
| `Desired.DesiredReplicas` | website-operator/internal/controller/website_controller.go:97 | a given replica count is used as is; an absent one becomes 1; for a valid spec the count is at least 1 |
| `Desired.DesiredImage` | website-operator/internal/controller/website_controller.go:98-101 | the image is never empty; a given image is used as is; an empty one becomes `nginx:1.27-alpine` |
| `Desired.DesiredServiceType` | website-operator/internal/controller/website_controller.go:146-149 | the service type is never empty; a given type is used as is; an empty one becomes `ClusterIP`; a valid spec yields one of the schema's types |
| `Desired.Defaulted` | website-operator/api/v1alpha1/website_types.go:28-43 | writing out every default sets replicas, image and service type to exactly the values the controller uses, keeps the page, and keeps a valid spec valid |
| `Desired.MutateConfigMap` | website-operator/internal/controller/website_controller.go:85-91 | the data map exists, holds the page under `index.html`, keeps every other key and value, and gains no other key; only the owner changes in the metadata |
| `Desired.MutateDeployment` | website-operator/internal/controller/website_controller.go:110-140 | see the bullet list after this table |
| `Desired.MutateService` | website-operator/internal/controller/website_controller.go:157-166 | type is the given or default type; selector is the site's labels; one port `http` 80 to 8080; cluster IP and labels kept; owner set |
| `Desired.ProjectStatus` | website-operator/internal/controller/website_controller.go:172-178 | service name is `<name>-svc`; URL is `http://<svc>.<namespace>.svc.cluster.local`; available replicas come from the re-read Deployment, or stay as they were when the read failed |
| `DesiredProperties.MutationsIdempotent` | website-operator/internal/controller/website_controller.go:85-166 | applying any of the three closures twice with the same site gives the same object as applying it once |
| `DesiredProperties.DefaultSubstitution` | website-operator/internal/controller/website_controller.go:97-149 | a site with no replica count, image or service type gets one replica of `nginx:1.27-alpine` behind a `ClusterIP` Service |
| `DesiredProperties.MutationsIgnoreStatus` | website-operator/internal/controller/website_controller.go:85-166 | the closures depend on the site's identity and spec only, never on its status |
| `DesiredProperties.OmittedFieldsMeanDefaults` | website-operator/internal/controller/website_controller.go:97-101 | omitting image, replicas or service type shapes the objects exactly as writing the default would; defaulting twice changes nothing |
| `DesiredProperties.ServiceSelectsDeploymentPods` | website-operator/internal/controller/website_controller.go:107-159 | the Service selector equals the pod-template labels, and the Deployment selector matches the Service selector |
| `DesiredProperties.ValidSpecShapesValidObjects` | website-operator/api/v1alpha1/website_types.go:32-43 | for a valid spec the Deployment asks for at least one replica and the Service type is ClusterIP, NodePort or LoadBalancer |
| `DesiredProperties.ServiceURLInjective` | website-operator/internal/controller/website_controller.go:177 | when namespaces contain no dot, equal URLs mean the same service name and the same namespace |
| `DesiredProperties.StatusRecomputedFromObservation` | website-operator/internal/controller/website_controller.go:173-178 | once the Deployment has been read, the projected status does not depend on the previous status |
| `Store.Get` | website-operator/internal/controller/website_controller.go:64-65 | a read succeeds exactly when the call does not fail and the key is stored, and then returns the stored object; an absent key gives NotFound |
| `Store.Persist` | website-operator/internal/controller/website_controller.go:85-94 | a failed write changes nothing; otherwise the key holds the new object; the result is Created exactly when the key was absent, and Unchanged exactly when the stored object already equalled the new one |
| `Store.UpdateStatus` | website-operator/internal/controller/website_controller.go:180 | only the status of the stored Website is replaced; every identity and spec is kept, and no other Website changes; a failed call changes nothing |
| `Reconciler.ApplyConfigMap` | website-operator/internal/controller/website_controller.go:77-94 | on success only the ConfigMap key changes. The ConfigMap is owned by the site and holds the page. A new one carries the site labels and only `index.html`. An existing one keeps its labels and its other keys |
| `Reconciler.ApplyDeployment` | website-operator/internal/controller/website_controller.go:96-143 | on success only the Deployment key changes. The Deployment is owned and has the desired replicas and matching selector. It serves the ConfigMap with the desired image. A new one has zero status. An existing one keeps its labels, status, strategy and annotations |
| `Reconciler.ApplyService` | website-operator/internal/controller/website_controller.go:145-169 | on success only the Service key changes. The Service is owned, with the desired type, the site selector and port 80 to 8080. An existing one keeps its labels and cluster IP |
| `Reconciler.StatusOutcome` | website-operator/internal/controller/website_controller.go:180-189 | no error gives Done; a conflict gives Requeue; any other error is returned |
| `Reconciler.WebsiteReconciler.Reconcile` | website-operator/internal/controller/website_controller.go:60-190 | the store after the steps and the returned outcome are exactly those `Reconciled` gives for the old store |
| `ReconcileProperties.ReconcileAfterApplies` | website-operator/internal/controller/website_controller.go:171-189 | when all three create-or-updates succeed, the reconcile ends with the status write of the recomputed status, and that write's error decides the outcome |
| `ReconcileProperties.FetchOutcome` | website-operator/internal/controller/website_controller.go:63-66 | a missing Website means Done with no write; any other read error is returned with no write |
| `ReconcileProperties.FailedApplyStopsReconcile` | website-operator/internal/controller/website_controller.go:92-94 | a failing ConfigMap, Deployment or Service step returns its error; earlier objects stay written; no later object or status is written |
| `ReconcileProperties.AppliesConverge` | website-operator/internal/controller/website_controller.go:77-169 | after the three steps, every field the controller owns on every derived object is as the spec dictates, and all three objects are owned by the site |
| `ReconcileProperties.StatusWriteOutcome` | website-operator/internal/controller/website_controller.go:180-189 | once the objects are applied: a successful status write gives Done, a conflict gives Requeue, any other error is returned; the objects are converged in every case |
| `ReconcileProperties.ReconcileConverges` | website-operator/internal/controller/website_controller.go:77-169 | a reconcile that returns Done or Requeue leaves the derived objects converged to the spec, whatever they held before |
| `ReconcileProperties.ReconcileStatus` | website-operator/internal/controller/website_controller.go:172-178 | after Done, the status holds the re-read available replicas (or the previous value if that read failed), the service name and the URL |
| `ReconcileProperties.ReconcileComponents` | website-operator/internal/controller/website_controller.go:77-189 | each store after a reconcile is either untouched or the result of its own step |
| `ReconcileProperties.ReconcileTouchesOnlyItsOwn` | internal/controller/website_controller_test.go:89-93 | nothing is deleted; no Website's identity or spec changes; no other Website changes; only the site's three derived objects may change |
| `ReconcileProperties.ApplyKeepsKeyed` | website-operator/internal/controller/website_controller.go:78-84 | each step stores its object under the object's own namespaced name |
| `ReconcileProperties.ReconcilePreservesValid` | website-operator/internal/controller/website_controller.go:60-190 | a reconcile keeps every object stored under its own namespaced name |
| `ReconcileProperties.ReapplyUnchanged` | website-operator/internal/controller/website_controller.go:85-166 | applying the same spec a second time reports Unchanged for all three objects and writes nothing |
| `ReconcileProperties.FaultFreeReconcile` | website-operator/internal/controller/website_controller.go:60-190 | with no failing call, a stored Website is reconciled to Done: all three objects applied and its status recomputed |
| `ReconcileProperties.ReconcileIdempotent` | website-operator/internal/controller/website_controller.go:60-190 | a second fault-free reconcile after the first one reports Unchanged for all three objects and returns Done. It leaves the store exactly as the first reconcile left it |
| `ReconcileProperties.ReconcileRoutesServiceToPods` | website-operator/internal/controller/website_controller.go:112-159 | after a reconcile that returns Done or Requeue, the stored Service's selector equals the stored Deployment's template labels, and the Deployment's selector matches it, whatever either object held before |
| `ReconcileProperties.EndToEndScenario` | internal/controller/website_controller_test.go:45-93 | reconciling the test's Website into an empty cluster gives Done and leaves its spec unchanged. The ConfigMap holds the page, the Deployment has 1 replica and the default image, and the Service is ClusterIP with port 80 to 8080. The status holds 0 replicas, the service name and the URL |

`Desired.MutateDeployment` states the following:

- Only the owner changes in the metadata.
- The status, rollout strategy and template annotations are kept.
- Replicas is the given value, or the default.
- The template labels are the site's labels, and the selector matches them.
- There is one container, named `nginx`. It runs the given or default image and listens
  on 8080.
- The container mounts the `html` volume at nginx's document root.
- Every volume takes `index.html` from the site's ConfigMap, and every
  mount names a declared volume.

## Left out

- The controller-runtime client and the API server are reduced to in-memory
  maps. Resource versions and optimistic concurrency are not modelled. A
  conflict, or any other failure, is an input: the `Faults` value.
- Each create-or-update has one fault. It stands for a failure of the read,
  of the owner-reference call or of the write. In every such case nothing is
  written.
- Server-side behaviour is not modelled: defaulting (rollout strategy, cluster
  IP assignment), name-length validation, and garbage collection through
  owner references.
- `SetControllerReference` is reduced to setting one controller field. Its
  scheme and kind lookup, its "already owned by another controller" error,
  its cross-namespace error and its list of non-controller owner references
  are not modelled.
- Only the object fields the controller writes are modelled, plus a few it
  must preserve (labels, template annotations, strategy, status, cluster IP).
  Type metadata and every other field are left out.
- `ReapplyUnchanged` holds only because the model's store keeps each object
  exactly as the controller wrote it. The closures replace the whole
  container, volume and port lists (website_controller.go:114-138 and
  160-164). A real API server fills in defaults there (image pull policy,
  termination message path, port protocol, volume default mode). So a real
  create-or-update sees a difference and updates the Deployment and the
  Service on every reconcile.
- `ReconcileIdempotent` has the same gap: a second reconcile against a real
  API server reports the Deployment and the Service as updated, not
  unchanged, for the reason given for `ReapplyUnchanged`.
- Concurrency is not modelled: one sequential reconcile runs at a time.
  Parallel reconcilers and context cancellation are left out.
- Setup and plumbing are not modelled: `SetupWithManager`, watch wiring,
  RBAC markers, logging, the `init` scheme registration and `WebsiteList`.
- `ValidSpec` covers the validation markers only. The JSON tags of `replicas`
  and `indexHTML` carry no `omitempty`, which may make those fields required
  in the generated schema. That requiredness is not assumed: the controller
  handles an absent `replicas` anyway.
- The controller source does not import `client` and `runtime`, and embeds
  `ctrl.Client`. The model follows the evident intent, with `client.IgnoreNotFound`
  and a controller-runtime client.
