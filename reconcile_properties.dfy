/** What a reconcile pass guarantees about the cluster, proved from the step
    functions of KappaController. */
module ReconcileProperties {
  import opened Types
  import opened Greeting
  import opened Ownership
  import opened ApiServer
  import opened KappaController

  /** The calls a pass makes, in order, when none of them fails: the fetch of
      the Kappa, then (for a live Kappa) the status update, the ConfigMap's Get
      and its create or update, and the Secret's create. */
  function PassCalls(s: Store, req: Key): (calls: seq<Call>)
    ensures |calls| > 0 && calls[0] == Call(Get, KappaKind, req)
  {
    var fetch := Call(Get, KappaKind, req);
    if fetch in s.faults || req !in s.kappas || s.kappas[req].meta.deletionTimestamp.Some? then [fetch]
    else
      var kappa := s.kappas[req];
      [fetch,
       Call(UpdateStatus, KappaKind, req),
       Call(Get, ConfigMapKind, ConfigMapKey(kappa)),
       Call(ConfigMapWrite(s, kappa), ConfigMapKind, ConfigMapKey(kappa)),
       Call(Create, SecretKind, SecretKey(kappa))]
  }

  /** The failure of the first listed call that fails, if any does. */
  function FirstFault(faults: map<Call, string>, calls: seq<Call>): (e: Option<ApiError>)
    ensures e.None? <==> forall i :: 0 <= i < |calls| ==> calls[i] !in faults
    ensures e.Some? ==>
      exists i :: 0 <= i < |calls| && calls[i] in faults && e == Fault(faults, calls[i]) &&
        forall j :: 0 <= j < i ==> calls[j] !in faults
    decreases |calls|
  {
    if calls == [] then None
    else if calls[0] in faults then Fault(faults, calls[0])
    else
      var rest := FirstFault(faults, calls[1..]);
      assert forall i :: 1 <= i < |calls| ==> calls[i] == calls[1..][i - 1];
      rest
  }

  /** The error a pass reports is the failure of the first of its calls that
      fails, passed on unchanged; a pass none of whose calls fails reports no
      error. NotFound and AlreadyExists never escape a pass. */
  lemma ReconcileErrorsAreFaults(s: Store, req: Key)
    requires Wellformed(s)
    ensures ReconcilePass(s, req).err == FirstFault(s.faults, PassCalls(s, req))
    ensures var r := ReconcilePass(s, req);
      r.err.Some? ==> r.err.value.Other? && r.err.value.reason in s.faults.Values
  {
    var calls := PassCalls(s, req);
    var fetch := Call(Get, KappaKind, req);
    if !(fetch in s.faults || req !in s.kappas || s.kappas[req].meta.deletionTimestamp.Some?) {
      var kappa := s.kappas[req];
      assert KeyOf(kappa.meta) == req;
      var marked := MarkStatus(kappa);
      assert ConfigMapKey(marked) == ConfigMapKey(kappa);
      assert SecretKey(marked) == SecretKey(kappa);
      assert FirstFault(s.faults, calls) == FirstFault(s.faults, calls[1..]);
      assert FirstFault(s.faults, calls[1..]) ==
        if calls[1] in s.faults then Fault(s.faults, calls[1]) else FirstFault(s.faults, calls[2..]);
      assert FirstFault(s.faults, calls[2..]) ==
        if calls[2] in s.faults then Fault(s.faults, calls[2]) else FirstFault(s.faults, calls[3..]);
      assert FirstFault(s.faults, calls[3..]) ==
        if calls[3] in s.faults then Fault(s.faults, calls[3]) else FirstFault(s.faults, calls[4..]);
      assert calls[4..][1..] == [];
      var status := StatusStep(s, kappa);
      if status.err.None? {
        assert ConfigMapWrite(status.store, marked) == ConfigMapWrite(s, kappa);
        var cm := ConfigMapStep(status.store, marked);
        if cm.err.None? {
          assert cm.store.faults == s.faults;
        }
      }
    }
  }

  /** No step runs after a failing one, and nothing already done is undone: a
      failed status update leaves the cluster as it was, a failed ConfigMap call
      leaves it with only the status written, and a failed Secret create leaves
      the status written and the ConfigMap in place. */
  lemma ReconcileStopsAtFirstFailure(s: Store, req: Key)
    requires Wellformed(s)
    requires req in s.kappas && s.kappas[req].meta.deletionTimestamp.None?
    requires Call(Get, KappaKind, req) !in s.faults
    ensures var r := ReconcilePass(s, req);
      Call(UpdateStatus, KappaKind, req) in s.faults ==>
        r == Outcome(s, Fault(s.faults, Call(UpdateStatus, KappaKind, req)))
    ensures var r := ReconcilePass(s, req);
      var kappa := s.kappas[req];
      Call(UpdateStatus, KappaKind, req) !in s.faults &&
      (Call(Get, ConfigMapKind, ConfigMapKey(kappa)) in s.faults ||
       Call(ConfigMapWrite(s, kappa), ConfigMapKind, ConfigMapKey(kappa)) in s.faults) ==>
        r.err.Some? && r.store == s.(kappas := s.kappas[req := MarkStatus(kappa)])
    ensures var r := ReconcilePass(s, req);
      var kappa := s.kappas[req];
      var secretCreate := Call(Create, SecretKind, SecretKey(kappa));
      Call(UpdateStatus, KappaKind, req) !in s.faults &&
      Call(Get, ConfigMapKind, ConfigMapKey(kappa)) !in s.faults &&
      Call(ConfigMapWrite(s, kappa), ConfigMapKind, ConfigMapKey(kappa)) !in s.faults &&
      secretCreate in s.faults ==>
        r.err == Fault(s.faults, secretCreate) &&
        r.store == s.(kappas := s.kappas[req := MarkStatus(kappa)],
                      configMaps := if ConfigMapKey(kappa) in s.configMaps then s.configMaps
                                    else s.configMaps[ConfigMapKey(kappa) := DesiredConfigMap(kappa)])
  {
  }

  /** The status is written first, the ConfigMap second and the Secret last: a
      pass that changed the ConfigMaps made a status update that succeeded, and
      one that changed the Secrets also got past both ConfigMap calls and
      reports no error. */
  lemma ReconcileOrder(s: Store, req: Key)
    requires Wellformed(s)
    ensures var r := ReconcilePass(s, req);
      r.store.configMaps != s.configMaps ==>
        req in s.kappas && Call(UpdateStatus, KappaKind, req) !in s.faults &&
        r.store.kappas == s.kappas[req := MarkStatus(s.kappas[req])]
    ensures var r := ReconcilePass(s, req);
      r.store.secrets != s.secrets ==>
        r.err.None? && req in s.kappas && Call(UpdateStatus, KappaKind, req) !in s.faults &&
        Call(Get, ConfigMapKind, ConfigMapKey(s.kappas[req])) !in s.faults &&
        Call(ConfigMapWrite(s, s.kappas[req]), ConfigMapKind, ConfigMapKey(s.kappas[req])) !in s.faults &&
        ConfigMapKey(s.kappas[req]) in r.store.configMaps &&
        r.store.kappas == s.kappas[req := MarkStatus(s.kappas[req])]
  {
  }

  /** A pass touches only the Kappa it was asked about and that Kappa's two
      children: the Kappa's status may become true, and a missing child may be
      created as built, owned by the Kappa. Children that already exist are left
      exactly as they are, whatever their data or owners. */
  lemma ReconcileChanges(s: Store, req: Key)
    requires Wellformed(s)
    ensures var r := ReconcilePass(s, req);
      r.store.kappas == s.kappas ||
      (req in s.kappas && r.store.kappas == s.kappas[req := MarkStatus(s.kappas[req])])
    ensures var r := ReconcilePass(s, req);
      r.store.configMaps == s.configMaps ||
      (req in s.kappas && ConfigMapKey(s.kappas[req]) !in s.configMaps &&
       r.store.configMaps == s.configMaps[ConfigMapKey(s.kappas[req]) := DesiredConfigMap(s.kappas[req])])
    ensures var r := ReconcilePass(s, req);
      r.store.secrets == s.secrets ||
      (req in s.kappas && SecretKey(s.kappas[req]) !in s.secrets &&
       r.store.secrets == s.secrets[SecretKey(s.kappas[req]) := DesiredSecret(s.kappas[req])])
  {
  }

  /** A pass reports success only if the Kappa is gone, being deleted, or has
      both children afterwards. */
  lemma ReconcileSuccess(s: Store, req: Key)
    requires Wellformed(s)
    requires ReconcilePass(s, req).err.None?
    ensures var r := ReconcilePass(s, req);
      req !in s.kappas || s.kappas[req].meta.deletionTimestamp.Some? ||
      (r.store.kappas == s.kappas[req := MarkStatus(s.kappas[req])] &&
       ConfigMapKey(s.kappas[req]) in r.store.configMaps && SecretKey(s.kappas[req]) in r.store.secrets)
  {
  }

  /** A pass over a Kappa whose status is already set and whose children both
      exist changes nothing, whichever of its calls fail. */
  lemma PassOverReconciledChangesNothing(s: Store, req: Key)
    requires Wellformed(s)
    requires req in s.kappas && s.kappas[req].status.hasCucumber
    requires ConfigMapKey(s.kappas[req]) in s.configMaps && SecretKey(s.kappas[req]) in s.secrets
    ensures ReconcilePass(s, req).store == s
  {
  }

  /** Once a pass has succeeded, another pass changes nothing at all, whichever
      of its calls fail: the status is already set, the ConfigMap is written
      back as stored and the Secret already exists. */
  lemma SecondPassChangesNothing(s: Store, req: Key, faults: map<Call, string>)
    requires Wellformed(s)
    requires ReconcilePass(s, req).err.None?
    ensures var again := ReconcilePass(s, req).store.(faults := faults);
      Wellformed(again) && ReconcilePass(again, req).store == again
  {
    var first := ReconcilePass(s, req).store;
    var again := first.(faults := faults);
    assert Wellformed(again);
    ReconcileSuccess(s, req);
    if req in s.kappas && s.kappas[req].meta.deletionTimestamp.None? {
      var kappa := MarkStatus(s.kappas[req]);
      assert again.kappas[req] == kappa;
      assert ConfigMapKey(kappa) == ConfigMapKey(s.kappas[req]);
      assert SecretKey(kappa) == SecretKey(s.kappas[req]);
      PassOverReconciledChangesNothing(again, req);
    }
  }

  /** With no failing calls, a pass over a live Kappa succeeds, sets its status
      and leaves both children present: created as built if they were missing,
      untouched if they were there. */
  lemma FaultFreePass(s: Store, req: Key)
    requires Wellformed(s) && s.faults == map[]
    requires req in s.kappas && s.kappas[req].meta.deletionTimestamp.None?
    ensures var r := ReconcilePass(s, req);
      var kappa := s.kappas[req];
      r.err.None? &&
      r.store.kappas == s.kappas[req := MarkStatus(kappa)] &&
      ConfigMapKey(kappa) in r.store.configMaps &&
      r.store.configMaps[ConfigMapKey(kappa)] ==
        (if ConfigMapKey(kappa) in s.configMaps then s.configMaps[ConfigMapKey(kappa)] else DesiredConfigMap(kappa)) &&
      SecretKey(kappa) in r.store.secrets &&
      r.store.secrets[SecretKey(kappa)] ==
        (if SecretKey(kappa) in s.secrets then s.secrets[SecretKey(kappa)] else DesiredSecret(kappa))
  {
  }

  /** A Kappa named "kappa" in namespace "ns" gets a ConfigMap "kappa-config"
      in "ns" whose "hello" is "Hello, kappa", and a Secret "kappa-secret". */
  lemma KappaExample(uid: Uid)
    ensures var kappa := Kappa(ObjectMeta("kappa", "ns", uid, [], None), KappaSpec(false), KappaStatus(false));
      var s := Store(map[Key("ns", "kappa") := kappa], map[], map[], map[]);
      var r := ReconcilePass(s, Key("ns", "kappa"));
      r.err.None? &&
      r.store.kappas[Key("ns", "kappa")].status.hasCucumber &&
      Key("ns", "kappa-config") in r.store.configMaps &&
      r.store.configMaps[Key("ns", "kappa-config")].data["hello"] == "Hello, kappa" &&
      OwnedBy(r.store.configMaps[Key("ns", "kappa-config")].meta.ownerReferences, uid) &&
      Key("ns", "kappa-secret") in r.store.secrets
  {
    var kappa := Kappa(ObjectMeta("kappa", "ns", uid, [], None), KappaSpec(false), KappaStatus(false));
    var s := Store(map[Key("ns", "kappa") := kappa], map[], map[], map[]);
    assert Wellformed(s);
    FaultFreePass(s, Key("ns", "kappa"));
    assert ConfigMapKey(kappa) == Key("ns", "kappa-config");
    assert SecretKey(kappa) == Key("ns", "kappa-secret");
    assert SayHello("kappa") == "Hello, kappa";
  }
}
