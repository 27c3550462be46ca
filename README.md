# Monitoring product reconciler — a Dafny model

This project models the monitoring product reconciler of the RHMI installation
operator. The reconciler installs the monitoring product onto a cluster and
configures its alert manager. It works in repeated passes. Each pass re-reads
the cluster and reports one coarse phase (`InProgress`, `Completed` or `Failed`)
with an optional error.

A pass runs these steps in a fixed order:

1. The operator namespace, then the product namespace. A missing namespace is
   created with the installation's owner label, and the pass waits for it. A
   terminating namespace makes the pass wait. An active namespace with another
   owner label fails the pass.
2. The operator subscription. The operator is installed through the marketplace.
   Then the install plan that the subscription references is looked up in the
   plan list. The pass goes on only once that plan is `Complete`.
3. The ApplicationMonitoring custom resource is created or updated.
4. The alert-manager config secret. Six checks run in order: the SMTP secret
   exists; the PagerDuty secret exists; it has `serviceKey`; the Dead Man's
   Snitch secret exists; it has `url`; the `alertmanager-route` route exists.
   The first check that fails ends the step with its own error. When all six
   pass, an eight-key substitution map is built and the alert-manager template
   is rendered with it. The config secret's data is then replaced by the
   rendered text under the key `alertmanager.yaml`.

The first step that does not complete with no error ends the pass, and its
phase and error become the pass's result. Nothing records how far a pass got.

Files, one module each:

- `wrappers.dfy` (`Wrappers`): `Option` and `Result`.
- `status.dfy` (`Status`): phases, the error type with the exact error texts, and
  the proof that the config-secret step's six errors have distinct texts.
- `cluster.dfy` (`Cluster`): the cluster objects. `State` is a value snapshot.
  The class `Store` is the live cluster that the steps update in place.
- `product.dfy` (`Product`): the installation, the product config and
  `NewReconciler`.
- `alertmanager.dfy` (`AlertManager`): the config-secret step. It has a
  specification function (`AlertStep`) and a method on the `Store`, plus lemmas.
- `monitoring.dfy` (`Monitoring`): the namespace, subscription and custom-resource
  steps, the whole pass (`ReconcileSpec` as a function and `Reconcile` as a
  method with early returns), plus lemmas about passes.

Every method that changes the cluster is proved against a specification
function on `State`. Its `ensures` says the method's outcome and the new store
equal that function applied to the old store. The lemmas are stated about those
functions.

The repository's implementation file for this reconciler is not part of this
model. The behaviour follows what `pkg/products/monitoring/reconciler_test.go`
asserts. That file never reaches some branches. For these the model makes its
own choices: a failed install plan fails the pass, a plan-lookup error fails
it, an active namespace with another owner fails it, and a missing namespace is
created and the pass waits for it. The tests do not pin the order of
the two namespace checks, and the model checks the operator namespace first.

## Model

| member | source | states |
|---|---|---|
| Status.ConfigSecretMessagesDistinct | pkg/products/monitoring/reconciler_test.go:648-717 | each failing dependency check has its own error text: two config-secret errors with equal texts are the same check on the same object name |
| Status.ConfigSecretMessagesMatchFixture | pkg/products/monitoring/reconciler_test.go:648-717 | for the fixture installation, `Message()` of each of the six config-secret errors is the text the test expects for that case |
| AlertManager.CheckDependencies | pkg/products/monitoring/reconciler_test.go:648-717 | an error is always one of the six config-secret errors; success means both credential secrets and the SMTP secret, `serviceKey`, `url` and the route all exist, and it yields exactly their values |
| AlertManager.FailFastOrder | pkg/products/monitoring/reconciler_test.go:648-717 | when checks 0..i-1 pass and check i fails, the step returns `Failed` with check i's error and writes nothing, whatever else is missing; a present secret without its field gives the "undefined" error, not the "not found" one |
| AlertManager.ChecksPassExactly | pkg/products/monitoring/reconciler_test.go:718-737 | validation succeeds if and only if all six checks pass |
| AlertManager.Substitutions | pkg/products/monitoring/reconciler_test.go:626-635 | the map has exactly the eight keys; `SMTPToAddress` is `noreply@<route host>` with no override and the override value otherwise |
| AlertManager.OverrideOnlyChangesToAddress | pkg/products/monitoring/reconciler_test.go:759-795 | the override map equals the plain map with only `SMTPToAddress` replaced; the other seven values are unchanged |
| AlertManager.WritesRenderedTemplate | pkg/products/monitoring/reconciler_test.go:719-737 | with every dependency present the step is `Completed` with no error; the config secret then holds only `alertmanager.yaml`, set to the template rendered with the eight values read from the secrets and the route; nothing else changes |
| AlertManager.AlertStep | pkg/products/monitoring/reconciler_test.go:639-757 | the step never reports `InProgress`; `Failed` carries an error and leaves the cluster unchanged (no partial write); `Completed` replaces only the config secret's data |
| AlertManager.ReconcileAlertManagerConfigSecret | pkg/products/monitoring/reconciler_test.go:808-820 | the in-place step's outcome and the store afterwards are exactly `AlertStep` of the store before |
| AlertManager.PriorConfigSecretIrrelevant | pkg/products/monitoring/reconciler_test.go:738-757 | two clusters that differ only in the config secret (absent, empty or any data) give the same outcome and, on success, the same cluster afterwards |
| AlertManager.RerunIsNoOp | pkg/products/monitoring/reconciler_test.go:738-757 | running the step again on the cluster it produced gives the same outcome and writes nothing new |
| Cluster.Store.CreateNamespace | pkg/products/monitoring/reconciler_test.go:256-277 | creating a namespace adds it as active with this installation's owner label and leaves every other object unchanged |
| Cluster.Store.WriteMonitor | pkg/products/monitoring/reconciler_test.go:199-206 | create-or-update sets the ApplicationMonitoring resource's spec and leaves every other object unchanged |
| Cluster.Store.UpsertSecret | pkg/products/monitoring/reconciler_test.go:739-757 | create-or-update replaces the secret's whole data and leaves every other object unchanged |
| Product.NewReconciler | pkg/products/monitoring/reconciler_test.go:113-179 | a config read failure is returned verbatim; otherwise the reconciler always gets a non-empty namespace and operator namespace, either configured or defaulted |
| Monitoring.NamespaceStep | pkg/products/monitoring/reconciler_test.go:466-488 | a missing namespace is created with the owner label and the step waits; a terminating namespace gives exactly `InProgress` with no error and no change, whatever its label; it fails, with the ownership error, only on an active namespace with another owner; an existing namespace is never changed |
| Monitoring.ReconcileNamespace | pkg/products/monitoring/reconciler_test.go:466-488 | the in-place namespace step's outcome and the store afterwards are exactly `NamespaceStep` of the store before |
| Monitoring.TerminatingNamespaceWaits | pkg/products/monitoring/reconciler_test.go:465-488 | when both namespaces exist, each is either terminating or active and owned by this installation, and at least one is terminating, the pass is `InProgress` with no error and writes nothing, even with no secrets present |
| Monitoring.FindPlan | pkg/products/monitoring/reconciler_test.go:507-534 | a found plan is in the list and has the referenced name; no plan means no plan in the list has that name |
| Monitoring.FindInstallPlan | pkg/products/monitoring/reconciler_test.go:507-534 | the loop returns the index of the first plan with the referenced name, or the list length if there is none, in agreement with `FindPlan` |
| Monitoring.SubscriptionStep | pkg/products/monitoring/reconciler_test.go:489-534 | an install error gives `Failed` with that error (the case declared at lines 152-156 of the same file), whatever the plan lookup says; a lookup error gives `Failed` with it; a missing subscription, no plan reference, a plan not in the list or a plan still running gives `InProgress` with no error; a failed plan gives `Failed` with the plan's name and message; the step lets the pass go on if and only if the install succeeded and the referenced plan is in the list and `Complete` |
| Monitoring.ReconcileSubscription | pkg/products/monitoring/reconciler_test.go:489-534 | the imperative step, which scans the plan list with `FindInstallPlan`, returns exactly `SubscriptionStep` |
| Monitoring.PendingInstallPlanWaits | pkg/products/monitoring/reconciler_test.go:489-534 | with ready namespaces, a subscription with no plan reference, or a reference to a plan not in the list, makes the pass `InProgress` with no error and no write |
| Monitoring.ComponentsStep | pkg/products/monitoring/reconciler_test.go:199-226 | a failed create/update gives `Failed` with the write error and no change; a successful write gives `Completed`, and the resource then holds the desired spec while every other resource is unchanged |
| Monitoring.ReconcileComponents | pkg/products/monitoring/reconciler_test.go:228-246 | the in-place step's outcome and the store afterwards are exactly `ComponentsStep` of the store before |
| Monitoring.ReconcileSpec | pkg/products/monitoring/reconciler_test.go:537-552 | a waiting pass never carries an error, a failed pass always does, and a completed pass does not |
| Monitoring.Reconcile | pkg/products/monitoring/reconciler_test.go:404-422 | the pass with early returns, run on the live store, has exactly the outcome and effect of `ReconcileSpec` |
| Monitoring.FullPassCompletes | pkg/products/monitoring/reconciler_test.go:348-401 | with owned active namespaces, a referenced `Complete` plan, a successful custom-resource write and all dependencies present, the pass is `Completed` with no error; afterwards only the custom resource and the config secret have changed, to their desired contents |
| Monitoring.ForeignNamespaceRefused | pkg/products/monitoring/reconciler_test.go:256-277 | an active operator namespace without this installation's owner label fails the pass with the ownership error, and nothing is changed |
| Monitoring.ForeignProductNamespaceRefused | pkg/products/monitoring/reconciler_test.go:256-277 | behind a ready operator namespace, an active product namespace without this installation's owner label fails the pass with the ownership error, and nothing is changed |
| Monitoring.IncompletePassKeepsSecrets | pkg/products/monitoring/reconciler_test.go:648-717 | a pass that does not complete leaves every secret as it was |
| Monitoring.CompletedPassIsFixpoint | pkg/products/monitoring/reconciler_test.go:348-401 | a completed pass is a fixed point: the next pass over the cluster it left completes again and changes nothing |
| Monitoring.PassIdempotentUnlessNamespaceCreated | pkg/products/monitoring/reconciler_test.go:404-422 | a pass that creates no namespace, whatever phase it reports, is idempotent: the next pass over the cluster it left reports the same outcome and writes nothing new; this covers the retry after a pass that wrote the custom resource and then failed on a missing secret or route |

## Left out

- The implementation file of the monitoring reconciler is not part of this model. For branches the tests do not reach, the model makes its own choices. A failed install plan, a plan-lookup error and a foreign active namespace give `Failed`. A missing namespace is created and the pass waits for it.
- AlertManager.AlertStep: the config secret's create-or-update cannot fail in this model. A failed write of the secret is not represented. Only the custom-resource write has a fault input.
- Monitoring.NamespaceStep: creating a missing namespace cannot fail in this model. A failed create is not represented.
- Only the cluster API's NotFound answer is modelled for namespaces, secrets and routes: `NamespaceStep` and `ReconcileNamespace` see a namespace only as present or absent. Other read errors, such as transport failures, are not modelled.
- The custom-resource write's success or failure is an input (`writeFault`). The resource's desired spec is also an input (`desiredMonitoring`), because the code that computes its fields is not part of this model.
- The template file and the template engine are replaced by an arbitrary total function (`Renderer`). Such a function is deterministic by construction. Loading the template from disk is left out.
- The alert-address environment variable is an explicit `Option<string>` input. Setting it process-wide is left out.
- Marketplace internals are inputs to the pass (`Marketplace`). These are the result of `InstallOperator` and the plan list plus subscription returned by `GetSubscriptionInstallPlans`. The subscription object itself is not kept in the store.
- The event recorder, the logger, scheme registration, the fake clients and context cancellation are left out. They are side channels or test plumbing.
- Steps of `Reconcile` after the config secret are not part of this model. The grafana datasources secret is one example; its JSON payload is only a test fixture.
- The installation orchestrator that aggregates phases over products is not part of this model.
- `createInstallationCR` and `isAutoInstallAtStartup` in pkg/controller/installation/installation_controller_test.go are left out. They only bootstrap from environment variables.
- Secret data is modelled as strings, not byte arrays.
- The `serviceKey` and `url` checks test whether the field is present. The tests only show a secret with no fields, so a present but empty value passes here.
- Several constant values are not visible in the tests: the config secret's name, the ApplicationMonitoring resource's name, the default namespace and the file key `alertmanager.yaml`. The values used here are the model's choices. The only proved property that depends on them is `NewReconciler`'s non-empty namespace. It relies on the default namespace being non-empty.
- AlertManager.PriorConfigSecretIrrelevant: proved only when the config secret is none of the three credential secrets (`ConfigSecretIsSeparate`). A config secret that coincided with one of them would be read as an input and also overwritten.
- AlertManager.RerunIsNoOp: proved under the same `ConfigSecretIsSeparate` hypothesis.
- Monitoring.CompletedPassIsFixpoint: proved under the same `ConfigSecretIsSeparate` hypothesis.
- Monitoring.PassIdempotentUnlessNamespaceCreated: proved under the same `ConfigSecretIsSeparate` hypothesis, and only for passes that create no namespace. A pass that creates a namespace waits, and the next pass goes further.
- Messages for the errors the tests never compare are descriptive texts chosen for this model. These are the ownership, install, plan-lookup, plan-failure and custom-resource errors.
