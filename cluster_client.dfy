/** The client the reconciler embeds: it holds the cluster's objects and
    changes them call by call. */
module ClusterClient {
  import opened Types
  import opened ApiServer

  class Client {
    var kappas: map<Key, Kappa>
    var configMaps: map<Key, ConfigMap>
    var secrets: map<Key, Secret>
    var faults: map<Call, string>

    /** The store keeps every object under its own namespace and name. */
    ghost predicate Valid()
      reads this
    {
      Wellformed(State())
    }

    function State(): Store
      reads this
    {
      Store(kappas, configMaps, secrets, faults)
    }

    constructor (initial: Store)
      requires Wellformed(initial)
      ensures Valid() && State() == initial
    {
      kappas := initial.kappas;
      configMaps := initial.configMaps;
      secrets := initial.secrets;
      faults := initial.faults;
    }

    method GetKappa(key: Key) returns (r: Result<Kappa>)
      ensures r == ApiServer.GetKappa(State(), key)
    {
      r := Lookup(kappas, Fault(faults, Call(Get, KappaKind, key)), key);
    }

    method UpdateKappaStatus(kappa: Kappa) returns (err: Option<ApiError>)
      requires Valid()
      modifies this
      ensures Valid()
      ensures Outcome(State(), err) == ApiServer.UpdateKappaStatus(old(State()), kappa)
    {
      var o := ApiServer.UpdateKappaStatus(State(), kappa);
      kappas, err := o.store.kappas, o.err;
    }

    method GetConfigMap(key: Key) returns (r: Result<ConfigMap>)
      ensures r == ApiServer.GetConfigMap(State(), key)
    {
      r := Lookup(configMaps, Fault(faults, Call(Get, ConfigMapKind, key)), key);
    }

    method CreateConfigMap(cm: ConfigMap) returns (err: Option<ApiError>)
      requires Valid()
      modifies this
      ensures Valid()
      ensures Outcome(State(), err) == ApiServer.CreateConfigMap(old(State()), cm)
    {
      var o := ApiServer.CreateConfigMap(State(), cm);
      configMaps, err := o.store.configMaps, o.err;
    }

    method UpdateConfigMap(cm: ConfigMap) returns (err: Option<ApiError>)
      requires Valid()
      modifies this
      ensures Valid()
      ensures Outcome(State(), err) == ApiServer.UpdateConfigMap(old(State()), cm)
    {
      var o := ApiServer.UpdateConfigMap(State(), cm);
      configMaps, err := o.store.configMaps, o.err;
    }

    method CreateSecret(secret: Secret) returns (err: Option<ApiError>)
      requires Valid()
      modifies this
      ensures Valid()
      ensures Outcome(State(), err) == ApiServer.CreateSecret(old(State()), secret)
    {
      var o := ApiServer.CreateSecret(State(), secret);
      secrets, err := o.store.secrets, o.err;
    }
  }
}
