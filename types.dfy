/** Object shapes the controller reads and writes: the fields of the Kappa custom
    resource, of ConfigMaps and Secrets, and the parts of Kubernetes object
    metadata the reconcile pass uses (name, namespace, UID, owner references and
    the deletion timestamp). */
module Types {

  datatype Option<+T> = None | Some(value: T)

  type Uid = string

  /** A deletion timestamp; only its presence matters to the controller. */
  type Time = int

  /** A namespaced object name, the key the cluster API looks objects up by. */
  datatype Key = Key(namespace: string, name: string)

  /** A back-link from a child object to the object that owns it. */
  datatype OwnerReference = OwnerReference(kind: string, name: string, uid: Uid, controller: bool)

  datatype ObjectMeta = ObjectMeta(
    name: string,
    namespace: string,
    uid: Uid,
    ownerReferences: seq<OwnerReference>,
    deletionTimestamp: Option<Time>)

  function KeyOf(meta: ObjectMeta): (key: Key)
    ensures key.namespace == meta.namespace && key.name == meta.name
  {
    Key(meta.namespace, meta.name)
  }

  datatype KappaSpec = KappaSpec(hasCucumber: bool)

  /** The controller sets `Status.HasCucumber`, but the Go `KappaStatus` struct
      declares no field at all; `HasCucumber` exists only on the spec. The status
      is modelled as the single flag the controller writes. */
  datatype KappaStatus = KappaStatus(hasCucumber: bool)

  datatype Kappa = Kappa(meta: ObjectMeta, spec: KappaSpec, status: KappaStatus)

  datatype ConfigMap = ConfigMap(meta: ObjectMeta, data: map<string, string>)

  /** Secret values are byte strings in the cluster; the model keeps the string
      they are encoded from. */
  datatype Secret = Secret(meta: ObjectMeta, data: map<string, string>)
}
