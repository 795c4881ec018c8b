/** The cluster API the controller talks to, as an in-memory store of Kappas,
    ConfigMaps and Secrets keyed by namespace and name. A call either succeeds
    and changes the store, or fails with NotFound, AlreadyExists or some other
    error. Failures of the transport or the server that have nothing to do with
    the store's contents are a parameter of the store: a call listed in `faults`
    fails with that reason before the server acts on it. */
module ApiServer {
  import opened Types

  datatype ApiError = NotFound | AlreadyExists | Other(reason: string)

  datatype Result<+T> = Ok(value: T) | Err(error: ApiError)

  datatype Verb = Get | Create | Update | UpdateStatus

  datatype Kind = KappaKind | ConfigMapKind | SecretKind

  /** One client call, as far as fault injection can tell calls apart. */
  datatype Call = Call(verb: Verb, kind: Kind, key: Key)

  datatype Store = Store(
    kappas: map<Key, Kappa>,
    configMaps: map<Key, ConfigMap>,
    secrets: map<Key, Secret>,
    faults: map<Call, string>)

  /** The store after a call, and the call's error if it failed. */
  datatype Outcome = Outcome(store: Store, err: Option<ApiError>)

  /** Every object is stored under its own namespace and name. */
  predicate Wellformed(s: Store) {
    (forall k :: k in s.kappas ==> KeyOf(s.kappas[k].meta) == k) &&
    (forall k :: k in s.configMaps ==> KeyOf(s.configMaps[k].meta) == k) &&
    (forall k :: k in s.secrets ==> KeyOf(s.secrets[k].meta) == k)
  }

  function Fault(faults: map<Call, string>, call: Call): (e: Option<ApiError>)
    ensures e.Some? <==> call in faults
    ensures call in faults ==> e == Some(Other(faults[call]))
  {
    if call in faults then Some(Other(faults[call])) else None
  }

  // Calls on one kind of object, shared by all three kinds.

  /** The result of a call that writes one kind of object. */
  datatype Written<T> = Written(objects: map<Key, T>, err: Option<ApiError>)

  function Lookup<T>(objects: map<Key, T>, fault: Option<ApiError>, key: Key): (r: Result<T>)
    ensures r.Ok? <==> fault.None? && key in objects
    ensures r.Ok? ==> r.value == objects[key]
    ensures r.Err? ==> r.error == (if fault.Some? then fault.value else NotFound)
  {
    if fault.Some? then Err(fault.value)
    else if key !in objects then Err(NotFound)
    else Ok(objects[key])
  }

  /** Create: refused with AlreadyExists when the key is taken. */
  function Insert<T>(objects: map<Key, T>, fault: Option<ApiError>, key: Key, obj: T): (w: Written<T>)
    ensures w.err.None? <==> fault.None? && key !in objects
    ensures w.err.Some? ==> w.objects == objects
    ensures w.err.Some? ==> w.err == (if fault.Some? then fault else Some(AlreadyExists))
    ensures w.err.None? ==> w.objects == objects[key := obj]
  {
    if fault.Some? then Written(objects, fault)
    else if key in objects then Written(objects, Some(AlreadyExists))
    else Written(objects[key := obj], None)
  }

  /** Update: refused with NotFound when there is nothing to replace. */
  function Replace<T>(objects: map<Key, T>, fault: Option<ApiError>, key: Key, obj: T): (w: Written<T>)
    ensures w.err.None? <==> fault.None? && key in objects
    ensures w.err.Some? ==> w.objects == objects
    ensures w.err.Some? ==> w.err == (if fault.Some? then fault else Some(NotFound))
    ensures w.err.None? ==> w.objects == objects[key := obj]
  {
    if fault.Some? then Written(objects, fault)
    else if key !in objects then Written(objects, Some(NotFound))
    else Written(objects[key := obj], None)
  }

  // The calls the controller makes.

  function GetKappa(s: Store, key: Key): (r: Result<Kappa>)
    ensures r.Ok? <==> Call(Get, KappaKind, key) !in s.faults && key in s.kappas
    ensures r.Ok? ==> r.value == s.kappas[key]
    ensures r.Err? ==> Some(r.error) == (if Call(Get, KappaKind, key) in s.faults then Fault(s.faults, Call(Get, KappaKind, key)) else Some(NotFound))
  {
    Lookup(s.kappas, Fault(s.faults, Call(Get, KappaKind, key)), key)
  }

  /** The status subresource's update: only the stored object's status changes. */
  function UpdateKappaStatus(s: Store, kappa: Kappa): (r: Outcome)
    ensures Wellformed(s) ==> Wellformed(r.store)
    ensures r.store.configMaps == s.configMaps && r.store.secrets == s.secrets && r.store.faults == s.faults
    ensures r.err.Some? ==> r.store == s
    ensures r.err.None? <==> Call(UpdateStatus, KappaKind, KeyOf(kappa.meta)) !in s.faults && KeyOf(kappa.meta) in s.kappas
    ensures r.err.Some? ==>
      r.err == (if Call(UpdateStatus, KappaKind, KeyOf(kappa.meta)) in s.faults
                then Fault(s.faults, Call(UpdateStatus, KappaKind, KeyOf(kappa.meta))) else Some(NotFound))
    ensures r.err.None? ==>
      var key := KeyOf(kappa.meta);
      r.store.kappas == s.kappas[key := s.kappas[key].(status := kappa.status)]
  {
    var key := KeyOf(kappa.meta);
    var stored := if key in s.kappas then s.kappas[key].(status := kappa.status) else kappa;
    var w := Replace(s.kappas, Fault(s.faults, Call(UpdateStatus, KappaKind, key)), key, stored);
    Outcome(s.(kappas := w.objects), w.err)
  }

  function GetConfigMap(s: Store, key: Key): (r: Result<ConfigMap>)
    ensures r.Ok? <==> Call(Get, ConfigMapKind, key) !in s.faults && key in s.configMaps
    ensures r.Ok? ==> r.value == s.configMaps[key]
    ensures r.Err? ==> Some(r.error) == (if Call(Get, ConfigMapKind, key) in s.faults then Fault(s.faults, Call(Get, ConfigMapKind, key)) else Some(NotFound))
  {
    Lookup(s.configMaps, Fault(s.faults, Call(Get, ConfigMapKind, key)), key)
  }

  function CreateConfigMap(s: Store, cm: ConfigMap): (r: Outcome)
    ensures Wellformed(s) ==> Wellformed(r.store)
    ensures r.err.Some? ==> r.store == s
    ensures r.err.None? <==> Call(Create, ConfigMapKind, KeyOf(cm.meta)) !in s.faults && KeyOf(cm.meta) !in s.configMaps
    ensures r.err.Some? ==> r.err == (if Call(Create, ConfigMapKind, KeyOf(cm.meta)) in s.faults then Fault(s.faults, Call(Create, ConfigMapKind, KeyOf(cm.meta))) else Some(AlreadyExists))
    ensures r.err.None? ==> r.store.configMaps == s.configMaps[KeyOf(cm.meta) := cm]
    ensures r.store.kappas == s.kappas && r.store.secrets == s.secrets && r.store.faults == s.faults
  {
    var key := KeyOf(cm.meta);
    var w := Insert(s.configMaps, Fault(s.faults, Call(Create, ConfigMapKind, key)), key, cm);
    Outcome(s.(configMaps := w.objects), w.err)
  }

  function UpdateConfigMap(s: Store, cm: ConfigMap): (r: Outcome)
    ensures Wellformed(s) ==> Wellformed(r.store)
    ensures r.err.Some? ==> r.store == s
    ensures r.err.None? <==> Call(Update, ConfigMapKind, KeyOf(cm.meta)) !in s.faults && KeyOf(cm.meta) in s.configMaps
    ensures r.err.Some? ==> r.err == (if Call(Update, ConfigMapKind, KeyOf(cm.meta)) in s.faults then Fault(s.faults, Call(Update, ConfigMapKind, KeyOf(cm.meta))) else Some(NotFound))
    ensures r.err.None? ==> r.store.configMaps == s.configMaps[KeyOf(cm.meta) := cm]
    ensures r.store.kappas == s.kappas && r.store.secrets == s.secrets && r.store.faults == s.faults
  {
    var key := KeyOf(cm.meta);
    var w := Replace(s.configMaps, Fault(s.faults, Call(Update, ConfigMapKind, key)), key, cm);
    Outcome(s.(configMaps := w.objects), w.err)
  }

  function CreateSecret(s: Store, secret: Secret): (r: Outcome)
    ensures Wellformed(s) ==> Wellformed(r.store)
    ensures r.err.Some? ==> r.store == s
    ensures r.err.None? <==> Call(Create, SecretKind, KeyOf(secret.meta)) !in s.faults && KeyOf(secret.meta) !in s.secrets
    ensures r.err.Some? ==> r.err == (if Call(Create, SecretKind, KeyOf(secret.meta)) in s.faults then Fault(s.faults, Call(Create, SecretKind, KeyOf(secret.meta))) else Some(AlreadyExists))
    ensures r.err.None? ==> r.store.secrets == s.secrets[KeyOf(secret.meta) := secret]
    ensures r.store.kappas == s.kappas && r.store.configMaps == s.configMaps && r.store.faults == s.faults
  {
    var key := KeyOf(secret.meta);
    var w := Insert(s.secrets, Fault(s.faults, Call(Create, SecretKind, key)), key, secret);
    Outcome(s.(secrets := w.objects), w.err)
  }
}
