/** The Kappa reconciler: on each pass it fetches the Kappa named by the request,
    marks its status, makes sure a ConfigMap exists for it and creates its Secret. */
module KappaController {
  import opened Types
  import opened Greeting
  import opened Ownership
  import opened ApiServer
  import opened ClusterClient

  /** The two-element join of the Kappa's name and a suffix, separated by "-". */
  function ChildName(name: string, suffix: string): (child: string)
    ensures |child| == |name| + 1 + |suffix|
    ensures child[..|name|] == name && child[|name|..] == "-" + suffix
  {
    name + "-" + suffix
  }

  /** The reference SetControllerReference attaches: the Kappa as controlling owner. */
  function ControllerRef(kappa: Kappa): (ref: OwnerReference)
    ensures ref.uid == kappa.meta.uid && ref.name == kappa.meta.name && ref.controller
  {
    OwnerReference("Kappa", kappa.meta.name, kappa.meta.uid, true)
  }

  /** A child object's metadata: named after the Kappa, in its namespace, owned by it. */
  function ChildMeta(kappa: Kappa, suffix: string): (meta: ObjectMeta)
    ensures KeyOf(meta) == Key(kappa.meta.namespace, ChildName(kappa.meta.name, suffix))
    ensures OwnedBy(meta.ownerReferences, kappa.meta.uid)
    ensures meta.deletionTimestamp.None?
  {
    var meta := ObjectMeta(ChildName(kappa.meta.name, suffix), kappa.meta.namespace, "", [ControllerRef(kappa)], None);
    assert meta.ownerReferences[0].uid == kappa.meta.uid;
    meta
  }

  /** The ConfigMap the pass builds before looking at the cluster. */
  function DesiredConfigMap(kappa: Kappa): (cm: ConfigMap)
    ensures cm.meta.name == kappa.meta.name + "-config" && cm.meta.namespace == kappa.meta.namespace
    ensures OwnedBy(cm.meta.ownerReferences, kappa.meta.uid)
    ensures cm.data.Keys == {"hello"} && cm.data["hello"] == SayHello(kappa.meta.name)
  {
    ConfigMap(ChildMeta(kappa, "config"), map["hello" := SayHello(kappa.meta.name)])
  }

  /** The Secret the pass builds; its one value is the greeting's bytes. */
  function DesiredSecret(kappa: Kappa): (secret: Secret)
    ensures secret.meta.name == kappa.meta.name + "-secret" && secret.meta.namespace == kappa.meta.namespace
    ensures OwnedBy(secret.meta.ownerReferences, kappa.meta.uid)
    ensures secret.data.Keys == {"hello"} && secret.data["hello"] == SayHello(kappa.meta.name)
  {
    Secret(ChildMeta(kappa, "secret"), map["hello" := SayHello(kappa.meta.name)])
  }

  function ConfigMapKey(kappa: Kappa): (key: Key)
    ensures key == Key(kappa.meta.namespace, kappa.meta.name + "-config")
  {
    KeyOf(DesiredConfigMap(kappa).meta)
  }

  function SecretKey(kappa: Kappa): (key: Key)
    ensures key == Key(kappa.meta.namespace, kappa.meta.name + "-secret")
  {
    KeyOf(DesiredSecret(kappa).meta)
  }

  /** NotFound is not an error to report; every other error is passed on as it is. */
  function IgnoreNotFound(e: ApiError): (r: Option<ApiError>)
    ensures r.None? <==> e == NotFound
    ensures r.Some? ==> r.value == e
  {
    if e == NotFound then None else Some(e)
  }

  /** The Kappa as the status step leaves the caller's copy. */
  function MarkStatus(kappa: Kappa): (marked: Kappa)
    ensures marked.status.hasCucumber
    ensures marked.meta == kappa.meta && marked.spec == kappa.spec
  {
    kappa.(status := KappaStatus(true))
  }

  // The steps of a pass, as functions of the cluster state.

  /** Sets the status flag and writes the status back. */
  function StatusStep(s: Store, kappa: Kappa): (r: Outcome)
    requires Wellformed(s)
    ensures Wellformed(r.store)
    ensures r.store.configMaps == s.configMaps && r.store.secrets == s.secrets && r.store.faults == s.faults
    ensures r.err.Some? ==> r.store == s
    ensures r.err.None? <==> Call(UpdateStatus, KappaKind, KeyOf(kappa.meta)) !in s.faults && KeyOf(kappa.meta) in s.kappas
    ensures r.err.Some? ==>
      r.err == (if Call(UpdateStatus, KappaKind, KeyOf(kappa.meta)) in s.faults
                then Fault(s.faults, Call(UpdateStatus, KappaKind, KeyOf(kappa.meta))) else Some(NotFound))
    ensures r.err.None? ==>
      r.store.kappas == s.kappas[KeyOf(kappa.meta) := s.kappas[KeyOf(kappa.meta)].(status := KappaStatus(true))]
  {
    UpdateKappaStatus(s, MarkStatus(kappa))
  }

  /** The write the ConfigMap step makes after its Get: an update when the
      ConfigMap is stored, a create otherwise. */
  function ConfigMapWrite(s: Store, kappa: Kappa): (verb: Verb)
    ensures verb == Update || verb == Create
    ensures verb == Update <==> ConfigMapKey(kappa) in s.configMaps
  {
    if ConfigMapKey(kappa) in s.configMaps then Update else Create
  }

  /** Gets the ConfigMap; creates the desired one when there is none, and
      otherwise writes back the copy the Get returned, so an existing ConfigMap
      keeps its data and owner references. */
  function ConfigMapStep(s: Store, kappa: Kappa): (r: Outcome)
    requires Wellformed(s)
    ensures Wellformed(r.store)
    ensures r.store.kappas == s.kappas && r.store.secrets == s.secrets && r.store.faults == s.faults
    ensures ConfigMapKey(kappa) in s.configMaps ==> r.store.configMaps == s.configMaps
    ensures ConfigMapKey(kappa) !in s.configMaps ==>
      r.store.configMaps == if r.err.None? then s.configMaps[ConfigMapKey(kappa) := DesiredConfigMap(kappa)] else s.configMaps
    ensures r.err.None? ==> ConfigMapKey(kappa) in r.store.configMaps
    ensures r.err ==
      if Call(Get, ConfigMapKind, ConfigMapKey(kappa)) in s.faults
      then Fault(s.faults, Call(Get, ConfigMapKind, ConfigMapKey(kappa)))
      else Fault(s.faults, Call(ConfigMapWrite(s, kappa), ConfigMapKind, ConfigMapKey(kappa)))
  {
    var cm := DesiredConfigMap(kappa);
    match GetConfigMap(s, KeyOf(cm.meta))
    case Err(e) => if e == NotFound then CreateConfigMap(s, cm) else Outcome(s, Some(e))
    case Ok(stored) => UpdateConfigMap(s, stored)
  }

  /** Creates the Secret; an existing one counts as success and is left as it is. */
  function SecretStep(s: Store, kappa: Kappa): (r: Outcome)
    requires Wellformed(s)
    ensures Wellformed(r.store)
    ensures r.store.kappas == s.kappas && r.store.configMaps == s.configMaps && r.store.faults == s.faults
    ensures SecretKey(kappa) in s.secrets ==> r.store == s
    ensures SecretKey(kappa) !in s.secrets ==>
      r.store.secrets == if r.err.None? then s.secrets[SecretKey(kappa) := DesiredSecret(kappa)] else s.secrets
    ensures r.err.None? ==> SecretKey(kappa) in r.store.secrets
    ensures r.err == Fault(s.faults, Call(Create, SecretKind, SecretKey(kappa)))
  {
    var created := CreateSecret(s, DesiredSecret(kappa));
    if created.err == Some(AlreadyExists) then Outcome(created.store, None) else created
  }

  /** One reconcile pass for the Kappa named `req`. */
  function ReconcilePass(s: Store, req: Key): (r: Outcome)
    requires Wellformed(s)
    ensures Wellformed(r.store)
    ensures r.store.faults == s.faults
    ensures GetKappa(s, req) == Err(NotFound) ==> r == Outcome(s, None)
    ensures GetKappa(s, req).Err? && GetKappa(s, req).error != NotFound ==> r == Outcome(s, Some(GetKappa(s, req).error))
    ensures GetKappa(s, req).Ok? && GetKappa(s, req).value.meta.deletionTimestamp.Some? ==> r == Outcome(s, None)
    ensures r.err.Some? ==> r.store.secrets == s.secrets
  {
    match GetKappa(s, req)
    case Err(e) => Outcome(s, IgnoreNotFound(e))
    case Ok(kappa) =>
      if kappa.meta.deletionTimestamp.Some? then Outcome(s, None)
      else
        var status := StatusStep(s, kappa);
        if status.err.Some? then status
        else
          var marked := MarkStatus(kappa);
          var cm := ConfigMapStep(status.store, marked);
          if cm.err.Some? then cm
          else SecretStep(cm.store, marked)
  }

  /** The controller object: the client it embeds is the cluster it changes. */
  class KappaReconciler {
    const client: Client

    constructor (client: Client)
      ensures this.client == client
    {
      this.client := client;
    }

    method Reconcile(req: Key) returns (err: Option<ApiError>)
      requires client.Valid()
      modifies client
      ensures client.Valid()
      ensures Outcome(client.State(), err) == ReconcilePass(old(client.State()), req)
    {
      var fetched := client.GetKappa(req);
      if fetched.Err? {
        return IgnoreNotFound(fetched.error);
      }
      var kappa := fetched.value;
      if kappa.meta.deletionTimestamp.Some? {
        return None;
      }
      kappa, err := ReconcileStatus(kappa);
      if err.Some? {
        return;
      }
      err := ReconcileConfigMap(kappa);
      if err.Some? {
        return;
      }
      err := ReconcileSecret(kappa);
    }

    /** Sets the status flag on the caller's copy and writes the status. */
    method ReconcileStatus(kappa: Kappa) returns (marked: Kappa, err: Option<ApiError>)
      requires client.Valid()
      modifies client
      ensures client.Valid()
      ensures marked == kappa.(status := KappaStatus(true))
      ensures Outcome(client.State(), err) == StatusStep(old(client.State()), kappa)
    {
      marked := kappa.(status := KappaStatus(true));
      err := client.UpdateKappaStatus(marked);
    }

    method ReconcileConfigMap(kappa: Kappa) returns (err: Option<ApiError>)
      requires client.Valid()
      modifies client
      ensures client.Valid()
      ensures Outcome(client.State(), err) == ConfigMapStep(old(client.State()), kappa)
    {
      var cm := DesiredConfigMap(kappa);
      var fetched := client.GetConfigMap(KeyOf(cm.meta));
      if fetched.Err? {
        if fetched.error == NotFound {
          err := client.CreateConfigMap(cm);
          return;
        }
        return Some(fetched.error);
      }
      // The Get decodes the stored object into cm, replacing what was built above.
      cm := fetched.value;
      err := client.UpdateConfigMap(cm);
    }

    method ReconcileSecret(kappa: Kappa) returns (err: Option<ApiError>)
      requires client.Valid()
      modifies client
      ensures client.Valid()
      ensures Outcome(client.State(), err) == SecretStep(old(client.State()), kappa)
    {
      var secret := DesiredSecret(kappa);
      err := client.CreateSecret(secret);
      if err == Some(AlreadyExists) {
        err := None;
      }
    }
  }
}
