/** Ownership between objects, decided by the owner's UID. */
module Ownership {
  import opened Types

  /** Some owner reference carries the given UID. */
  predicate OwnedBy(refs: seq<OwnerReference>, uid: Uid) {
    exists i :: 0 <= i < |refs| && refs[i].uid == uid
  }

  /** Scans `obj`'s owner references and stops at the first whose UID is `owner`'s. */
  method IsOwnedBy(obj: ObjectMeta, owner: ObjectMeta) returns (owned: bool)
    ensures owned <==> OwnedBy(obj.ownerReferences, owner.uid)
  {
    var refs := obj.ownerReferences;
    for i := 0 to |refs|
      invariant forall j :: 0 <= j < i ==> refs[j].uid != owner.uid
    {
      if refs[i].uid == owner.uid {
        return true;
      }
    }
    return false;
  }

  /** An object without owner references is owned by nothing. */
  lemma NothingOwnsWithoutReferences(uid: Uid)
    ensures !OwnedBy([], uid)
  {
  }

  /** Ownership does not depend on the order of the references. */
  lemma {:induction false} OwnedByPermutation(a: seq<OwnerReference>, b: seq<OwnerReference>, uid: Uid)
    requires multiset(a) == multiset(b)
    ensures OwnedBy(a, uid) <==> OwnedBy(b, uid)
  {
    if OwnedBy(a, uid) {
      var i :| 0 <= i < |a| && a[i].uid == uid;
      assert a[i] in multiset(b);
      var j :| 0 <= j < |b| && b[j] == a[i];
    }
    if OwnedBy(b, uid) {
      var j :| 0 <= j < |b| && b[j].uid == uid;
      assert b[j] in multiset(a);
      var i :| 0 <= i < |a| && a[i] == b[j];
    }
  }
}
