# Kappa operator reconciler, modelled in Dafny

The kappa-operator is a Kubernetes operator for a custom resource named Kappa.
Its controller (`controllers/kappa_controller.go`) does three things. When it
reconciles a Kappa, it sets a status flag. It then makes sure a ConfigMap
`<name>-config` exists. Last, it creates a Secret `<name>-secret`. Both children
hold the key `hello`, mapped to a greeting made from the Kappa's name. The file
also has the greeting function `SayHello` and the ownership test `IsOwnedBy`.

The model has seven modules, one file each:

- `types.dfy` (`Types`): Kappa, ConfigMap and Secret objects, and the object
  metadata the controller reads: name, namespace, UID, owner references and the
  deletion timestamp.
- `greeting.dfy` (`Greeting`): `SayHello`, plus an inverse `GreetedName` with a
  round-trip lemma.
- `ownership.dfy` (`Ownership`): `IsOwnedBy` as a loop with early return. It is
  proved equal to an existential predicate `OwnedBy`.
- `api_server.dfy` (`ApiServer`): the cluster as a value `Store`. It holds maps
  keyed by (namespace, name) for Kappas, ConfigMaps and Secrets. It also defines
  what Get, Create, Update and the status Update do to a Store. Each call either
  succeeds and changes the maps, or fails with `NotFound`, `AlreadyExists` or
  `Other(reason)`. Transport and server failures are a parameter: the store's
  `faults` map lists the calls that fail, and with what reason. Such a call fails
  before the server acts on it.
- `cluster_client.dfy` (`ClusterClient`): the client the reconciler embeds. It is
  a class whose fields are the store's maps, and each client call is a method. Its
  invariant is that every object is stored under its own namespace and name.
- `kappa_controller.dfy` (`KappaController`): child naming and child
  construction, and the three steps and the whole pass as functions of the store.
  The class `KappaReconciler` has `Reconcile`, `ReconcileStatus`,
  `ReconcileConfigMap` and `ReconcileSecret` as methods that change the client
  step by step. Each method is proved to leave exactly the store that its step
  function gives.
- `reconcile_properties.dfy` (`ReconcileProperties`): lemmas about a pass. They
  cover error propagation, step order, which objects a pass may change, and that
  a second pass changes nothing.

In two places the code does less than its names and log messages suggest. The
model follows the code:

- The ConfigMap step does not overwrite an existing ConfigMap's data. The Get at
  `controllers/kappa_controller.go:103` decodes the stored object into the local
  `cm`. This replaces the data and owner reference built at lines 91-100. The
  Update at line 117 therefore writes back the stored copy unchanged. The model's
  Get replaces the local object with the stored copy. `ConfigMapStep` and
  `ReconcileChanges` state that an existing ConfigMap is left exactly as it was,
  even if its greeting is stale or its owner reference is missing.
- The status step writes `Status.HasCucumber`. `KappaStatus` in
  `api/v1/kappa_types.go:36-39` declares no fields; `HasCucumber` is declared only
  on the spec, at line 32. The model gives the status one boolean, and the step
  sets it to true.

## Model

| member | source | states |
|---|---|---|
| Greeting.GreetedName | controllers/kappa_controller.go:160-165 | any name recovered from a greeting is one SayHello turns back into that greeting |
| Greeting.SayHello | controllers/kappa_controller.go:160-165 | the result is the fixed greeting exactly when the name is empty; otherwise the name follows the salutation verbatim, with nothing after it |
| Greeting.GreetingRoundTrip | controllers/kappa_controller.go:160-165 | for every name, including the empty one, the greeting gives that name back, so the greeting identifies the name |
| Greeting.SayHelloInjective | controllers/kappa_controller.go:160-165 | two names with the same greeting are the same name |
| Greeting.SayHelloEmpty | controllers/kappa_controller.go:161-163 | the empty name gets exactly "Hello!" |
| Greeting.SayHelloKeepsName | controllers/kappa_controller.go:164 | a non-empty name follows the salutation "Hello, " verbatim, character by character, with nothing after it |
| Greeting.SayHelloExamples | controllers/kappa_controller_test.go:24-28 | "Kappa", "Mr. Kappa" and "" greet as the unit tests expect |
| Ownership.IsOwnedBy | controllers/kappa_controller.go:167-175 | the scan returns true iff some owner reference of obj has the owner's UID |
| Ownership.NothingOwnsWithoutReferences | controllers/kappa_controller.go:167-175 | an object with no owner references is owned by nothing |
| Ownership.OwnedByPermutation | controllers/kappa_controller.go:167-175 | ownership does not depend on the order of the owner references |
| ApiServer.GetKappa | controllers/kappa_controller.go:58 | the fetch succeeds exactly when the Kappa is stored and the call does not fail, and then returns the stored Kappa; otherwise it returns the call's failure, or NotFound |
| ApiServer.GetConfigMap | controllers/kappa_controller.go:103 | the fetch succeeds exactly when the ConfigMap is stored and the call does not fail, and then returns the stored copy; otherwise it returns the call's failure, or NotFound |
| ApiServer.UpdateKappaStatus | controllers/kappa_controller.go:85 | the status update changes only the stored Kappa's status; it fails when the Kappa is missing or the call fails, and then changes nothing; it keeps objects under their own keys |
| ApiServer.CreateConfigMap | controllers/kappa_controller.go:107 | the create succeeds exactly when the call does not fail and the key is free, and then stores the ConfigMap under its own key; otherwise it returns the call's failure, or AlreadyExists, and changes nothing; it touches ConfigMaps only |
| ApiServer.UpdateConfigMap | controllers/kappa_controller.go:117 | the update succeeds exactly when the call does not fail and the key is stored, and then replaces the object under its key; otherwise it returns the call's failure, or NotFound, and changes nothing; it touches ConfigMaps only |
| ApiServer.CreateSecret | controllers/kappa_controller.go:139 | the create succeeds exactly when the call does not fail and the key is free, and then stores the Secret under its own key; otherwise it returns the call's failure, or AlreadyExists, and changes nothing; it touches Secrets only |
| ClusterClient.Client.GetKappa | controllers/kappa_controller.go:58 | the fetch returns the stored Kappa, or NotFound, or the call's failure |
| ClusterClient.Client.UpdateKappaStatus | controllers/kappa_controller.go:85 | the client's maps become what the status update gives, and the store invariant holds |
| ClusterClient.Client.GetConfigMap | controllers/kappa_controller.go:103 | the fetch returns the stored ConfigMap, or NotFound, or the call's failure |
| ClusterClient.Client.CreateConfigMap | controllers/kappa_controller.go:107 | the client's maps become what the create gives, and the store invariant holds |
| ClusterClient.Client.UpdateConfigMap | controllers/kappa_controller.go:117 | the client's maps become what the update gives, and the store invariant holds |
| ClusterClient.Client.CreateSecret | controllers/kappa_controller.go:139 | the client's maps become what the create gives, and the store invariant holds |
| KappaController.ChildName | controllers/kappa_controller.go:93 | a child's name is the Kappa's name, then "-", then the suffix |
| KappaController.ControllerRef | controllers/kappa_controller.go:100 | the owner reference attached to a child carries the Kappa's UID and name and marks the Kappa as controller |
| KappaController.ChildMeta | controllers/kappa_controller.go:91-100 | a child lives in the Kappa's namespace under the joined name, is not being deleted, and is owned by the Kappa's UID |
| KappaController.DesiredConfigMap | controllers/kappa_controller.go:91-100 | the built ConfigMap is `<name>-config` in the Kappa's namespace, owned by the Kappa, with only the key "hello" mapped to SayHello(name) |
| KappaController.DesiredSecret | controllers/kappa_controller.go:128-137 | the built Secret is `<name>-secret` in the Kappa's namespace, owned by the Kappa, with only the key "hello" holding SayHello(name) |
| KappaController.ConfigMapKey | controllers/kappa_controller.go:93-94 | the ConfigMap is looked up as `<name>-config` in the Kappa's namespace |
| KappaController.SecretKey | controllers/kappa_controller.go:130-131 | the Secret is created as `<name>-secret` in the Kappa's namespace |
| KappaController.MarkStatus | controllers/kappa_controller.go:84 | the caller's Kappa gets status true and keeps its metadata and spec |
| KappaController.ConfigMapWrite | controllers/kappa_controller.go:104-117 | after its Get the ConfigMap step updates exactly when the ConfigMap is stored, and creates otherwise |
| KappaController.IgnoreNotFound | controllers/kappa_controller.go:60 | NotFound becomes no error; every other error is returned unchanged |
| KappaController.StatusStep | controllers/kappa_controller.go:83-86 | the step succeeds exactly when the Kappa is stored and its status call does not fail; on success only that Kappa's status changes, to true; on failure it returns the call's failure, or NotFound, and nothing changes |
| KappaController.ConfigMapStep | controllers/kappa_controller.go:88-123 | the error is the Get's failure, else the failure of the create (ConfigMap missing) or update (ConfigMap present); an existing ConfigMap is left unchanged; a missing one is created as built, or nothing changes on failure; success leaves the ConfigMap present |
| KappaController.SecretStep | controllers/kappa_controller.go:125-149 | the error is exactly the create call's failure, so AlreadyExists counts as success; an existing Secret leaves the whole store unchanged; a missing one is created as built, or nothing changes on failure |
| KappaController.ReconcilePass | controllers/kappa_controller.go:51-81 | a Kappa fetch failing with NotFound gives no error and no change; any other fetch error is returned unchanged with no change; a Kappa being deleted gives no error and no change; a failed pass never changes Secrets |
| KappaController.KappaReconciler.Reconcile | controllers/kappa_controller.go:51-81 | the method leaves the cluster and returns the error that the pass function gives, keeping the store invariant |
| KappaController.KappaReconciler.ReconcileStatus | controllers/kappa_controller.go:83-86 | the caller's Kappa gets status true, and the cluster changes as the status step says |
| KappaController.KappaReconciler.ReconcileConfigMap | controllers/kappa_controller.go:88-123 | the cluster changes and the error is as the ConfigMap step says, with Get overwriting the built ConfigMap |
| KappaController.KappaReconciler.ReconcileSecret | controllers/kappa_controller.go:125-149 | the cluster changes and the error is as the Secret step says |
| ReconcileProperties.ReconcileErrorsAreFaults | controllers/kappa_controller.go:57-80 | the error of a pass is exactly the failure of the first of its calls that fails, and no error if none fails; so NotFound and AlreadyExists never escape a pass, in a store no other client writes |
| ReconcileProperties.PassCalls | controllers/kappa_controller.go:58-139 | a pass starts with the fetch of the Kappa; for a live Kappa it then makes the status update, the ConfigMap Get, its create or update, and the Secret create, in that order |
| ReconcileProperties.FirstFault | controllers/kappa_controller.go:68-79 | no error exactly when no listed call fails; otherwise the failure of a failing call with no failing call before it |
| ReconcileProperties.ReconcileStopsAtFirstFailure | controllers/kappa_controller.go:68-77 | no later step runs and nothing done is undone: a failed status update returns its failure and changes nothing; a failed ConfigMap call returns an error and leaves only the status written; a failed Secret create returns its failure and leaves the status written and the ConfigMap kept or created as built |
| ReconcileProperties.ReconcileOrder | controllers/kappa_controller.go:68-80 | a pass that changed ConfigMaps made a status update that succeeded and marked the Kappa; a pass that changed Secrets also got past both ConfigMap calls, and it succeeded |
| ReconcileProperties.ReconcileChanges | controllers/kappa_controller.go:51-149 | a pass changes at most three objects: the requested Kappa's status becomes true, and a missing child is created as built; existing children are untouched |
| ReconcileProperties.ReconcileSuccess | controllers/kappa_controller.go:68-80 | a successful pass found no Kappa, found one being deleted, or set its status and left both children present |
| ReconcileProperties.PassOverReconciledChangesNothing | controllers/kappa_controller.go:83-149 | a pass over a Kappa whose status is set and whose children exist changes nothing, whichever calls fail |
| ReconcileProperties.SecondPassChangesNothing | controllers/kappa_controller.go:51-149 | after a successful pass, a second pass changes no Kappa, ConfigMap or Secret, whichever of its calls fail |
| ReconcileProperties.FaultFreePass | controllers/kappa_controller.go:51-149 | with no failing calls, in a store no other client writes and on a server that accepts every name, a pass over a live Kappa succeeds, sets its status, creates missing children as built and keeps existing ones |
| ReconcileProperties.KappaExample | controllers/kappa_controller.go:91-99 | a Kappa "kappa" in "ns" gets ConfigMap "kappa-config" in "ns" with hello = "Hello, kappa", owned by the Kappa, and a Secret "kappa-secret" |

## Left out

- `SetupWithManager` (`controllers/kappa_controller.go:152-158`), logging and the RBAC markers: this is framework wiring with no behaviour to state.
- `ctrl.SetControllerReference`: it is abstracted as attaching one controller owner reference that carries the Kappa's kind, name and UID. Its error is ignored in the source. The model assumes the call always succeeds. When it fails, for example because the scheme does not know the Kappa type, the source still creates the child, but with no owner reference. The model does not capture that case. API group, version and block-owner-deletion are not modelled.
- Garbage collection of children when a Kappa is deleted: this is done by the cluster, not by this code.
- Context cancellation, the work queue, per-key serialization and requeue with backoff: this is concurrency in the hosting framework. `ctrl.Result` is always the zero value, so `Reconcile` returns only the error.
- Server-assigned metadata: UIDs, resource versions, timestamps, and the Conflict errors an Update with a stale resource version would get. A created object is stored as the client sent it.
- Failures after the server has applied a write: an injected fault always fails the call before the store changes.
- The Get into an existing ConfigMap is modelled as replacing the local object with the stored copy. A decoder that merges map entries into the local object is not modelled.
- Other writers: the store changes only through this pass's own calls, and every Get sees the current store. A stale cache, or another client creating or deleting objects during a pass, is not modelled. With them, the Get at `controllers/kappa_controller.go:103` can miss a ConfigMap that exists, so the create at line 107 gets AlreadyExists and the pass returns it. Likewise a Kappa deleted between the fetch at line 58 and the status update at line 85 makes the pass return NotFound. `ReconcileErrorsAreFaults`, `ConfigMapStep` and `StatusStep` hold only for a store no other client writes.
- Server-side validation of names: ConfigMap and Secret names are DNS subdomains of at most 253 characters, so a long or unusual Kappa name makes the creates at lines 107 and 139 fail. The model's server accepts every name, so `FaultFreePass` promises success where the real server would refuse; such a refusal can be given to the model only as an injected fault.
- Secret values are byte strings made by converting the greeting. The model stores the greeting string itself; the UTF-8 encoding is not modelled.
- `api/v1/zz_generated.deepcopy.go`: generated copying code with no logic of its own. Values in the model are immutable, so copies are implicit.
- `api/v1/kappa_types.go`: only the field shapes are used. The scheme registration in `init` relies on a `SchemeBuilder` that is not part of this model.
