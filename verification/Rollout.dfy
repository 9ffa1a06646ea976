/** Every admitted version of a Deployment gets a ChangeWorkload: the Deployment reconciler together
    with everything else that updates the Deployment. */
module Rollout {
  import opened Options
  import opened Admission

  /** The stored Deployment, the ChangeWorkloads that exist, and all that have ever been created. */
  datatype Cluster = Cluster(d: Deployment, existing: set<string>, created: set<string>)

  datatype Event =
    | Update(u: Admission.Update)
    | Reconcile(createOk: bool, patchOk: bool)
    | DeleteWorkload(name: string)

  predicate Has(d: Deployment, key: string) { key in Entries(d.labels) }

  /** The reconciler on the present Deployment.  Either API call may fail, which ends it; without any
      labels it dies on the write to the nil map. */
  function ReconcileDeployment(hash: Hash, c: Cluster, createOk: bool, patchOk: bool): Cluster {
    var name := WorkloadName(c.d);
    if Has(c.d, DEFENSE_STATUS) || (name !in c.existing && !createOk) then c
    else
      var c' := c.(existing := c.existing + {name},
                   created := if name in c.existing then c.created else c.created + {name});
      if c.d.labels.None? || !patchOk then c'
      else c'.(d := Updated(hash, c.d, MarkProcessed(c.d.labels.value)))
  }

  function Next(hash: Hash, c: Cluster, e: Event): Cluster {
    match e
    case Update(u) => c.(d := Updated(hash, c.d, u))
    case Reconcile(createOk, patchOk) => ReconcileDeployment(hash, c, createOk, patchOk)
    case DeleteWorkload(name) => c.(existing := c.existing - {name})
  }

  /** A processed version has had its ChangeWorkload created. */
  predicate Covered(c: Cluster) {
    Has(c.d, VERSION) && Has(c.d, DEFENSE_STATUS) ==> WorkloadName(c.d) in c.created
  }

  predicate Consistent(hash: Hash, c: Cluster) {
    Versioned(hash, c.d) && c.existing <= c.created && Covered(c)
  }

  /** A user update is honest if the processed label on it was there before, for the same version. */
  predicate Honest(stored: Deployment, d: Deployment) {
    && d.name == stored.name
    && (Has(d, DEFENSE_STATUS) ==>
          Has(stored, DEFENSE_STATUS) && Has(stored, VERSION)
          && Value(d.labels, VERSION) == Value(stored.labels, VERSION))
  }

  predicate Legitimate(c: Cluster, e: Event) {
    match e
    case Update(UserUpdate(d)) => Honest(c.d, d)
    case Update(MarkProcessed(_)) => false  // only as the second half of an atomic Reconcile
    case _ => true
  }

  // ---------------------------------------------------------------- one update

  lemma UpdatedIsVersioned(hash: Hash, stored: Deployment, u: Admission.Update)
    requires Versioned(hash, stored)
    ensures Versioned(hash, Updated(hash, stored, u))
  {
    var sent := Sent(stored, u);
    if sent.Some? && AdmitUpdate(hash, stored, sent.value).Some? {
      MutationVersions(hash, sent.value);
    }
  }

  /** Which admitted user updates lose coverage: those that arrive with the processed label and the very
      hash of their template as version label, when that version never had a ChangeWorkload.  Every
      other update is either rewritten, which drops the processed label, or covered already. */
  lemma UncoveredExactly(hash: Hash, c: Cluster, d: Deployment)
    requires AdmitUpdate(hash, c.d, d).Some?
    ensures var c' := Next(hash, c, Update(UserUpdate(d)));
            !Covered(c') <==> Versioned(hash, d) && Has(d, VERSION) && Has(d, DEFENSE_STATUS)
                              && WorkloadName(d) !in c.created
  {
    KeysDiffer();
    assert Updated(hash, c.d, UserUpdate(d)) == Mutated(hash, d).value;
  }

  lemma HonestUpdateCovered(hash: Hash, c: Cluster, d: Deployment)
    requires Consistent(hash, c) && Honest(c.d, d)
    ensures Covered(Next(hash, c, Update(UserUpdate(d))))
  {
    if AdmitUpdate(hash, c.d, d).Some? {
      UncoveredExactly(hash, c, d);
      assert Has(d, DEFENSE_STATUS) ==> WorkloadName(d) == WorkloadName(c.d);
    }
  }

  /** A rollback writes a template back: the version changes and the processed label goes, or neither. */
  lemma RollbackCovered(hash: Hash, c: Cluster, template: Template)
    requires Consistent(hash, c)
    ensures Covered(Next(hash, c, Update(Rollback(template))))
  {
    SameLabelsCovered(hash, c, c.d.(template := template));
  }

  lemma SameLabelsCovered(hash: Hash, c: Cluster, d: Deployment)
    requires Consistent(hash, c) && d.name == c.d.name && d.labels == c.d.labels
    ensures AdmitUpdate(hash, c.d, d).Some? ==> Covered(c.(d := Mutated(hash, d).value))
  {
    if AdmitUpdate(hash, c.d, d).Some? {
      UncoveredExactly(hash, c, d);
    }
  }

  /** A label patch that leaves the version alone and does not add the processed label. */
  lemma PatchCovered(hash: Hash, c: Cluster, patch: LabelPatch)
    requires Consistent(hash, c) && VERSION !in patch
    requires DEFENSE_STATUS in patch ==> patch[DEFENSE_STATUS].None?
    ensures AdmitUpdate(hash, c.d, PatchLabels(c.d, patch)).Some? ==>
              Covered(c.(d := Mutated(hash, PatchLabels(c.d, patch)).value))
  {
    var d := PatchLabels(c.d, patch);
    assert Value(d.labels, VERSION) == Value(c.d.labels, VERSION);
    if AdmitUpdate(hash, c.d, d).Some? {
      UncoveredExactly(hash, c, d);
      assert Has(d, DEFENSE_STATUS) ==> Has(c.d, DEFENSE_STATUS);
    }
  }

  lemma SuspendPatchKeys(read: Labels, add: bool, blocking: bool, now: string)
    requires SuspendTarget(read, add, blocking, now).Some?
    ensures var patch := Diff(read, SuspendTarget(read, add, blocking, now).value);
            VERSION !in patch && (DEFENSE_STATUS in patch ==> patch[DEFENSE_STATUS].None?)
  {
    KeysDiffer();
  }

  lemma UpdateCovered(hash: Hash, c: Cluster, u: Admission.Update)
    requires Consistent(hash, c) && Legitimate(c, Update(u))
    ensures Covered(Next(hash, c, Update(u)))
  {
    match u
    case UserUpdate(d) => HonestUpdateCovered(hash, c, d);
    case Rollback(template) => RollbackCovered(hash, c, template);
    case MarkSuspended(read, now) =>
      if SuspendTarget(read, true, true, now).Some? {
        SuspendPatchKeys(read, true, true, now);
        PatchCovered(hash, c, Diff(read, SuspendTarget(read, true, true, now).value));
      }
    case LiftSuspension(read) =>
      if SuspendTarget(read, false, true, "").Some? {
        SuspendPatchKeys(read, false, true, "");
        PatchCovered(hash, c, Diff(read, SuspendTarget(read, false, true, "").value));
      }
  }

  // ---------------------------------------------------------------- the reconciler

  lemma MarkOwnLabels(hash: Hash, d: Deployment)
    requires Versioned(hash, d) && d.labels.Some? && SUSPEND !in d.labels.value
    ensures Updated(hash, d, MarkProcessed(d.labels.value)) == d.(labels := Some(ProcessedTarget(d.labels.value)))
  {
    var labels := d.labels.value;
    MergeDiff(labels, ProcessedTarget(labels));
    KeysDiffer();
    assert Value(Some(ProcessedTarget(labels)), VERSION) == Value(d.labels, VERSION);
  }

  lemma MarkSuspendedLabels(hash: Hash, d: Deployment)
    requires d.labels.Some? && SUSPEND in d.labels.value
    ensures Updated(hash, d, MarkProcessed(d.labels.value)) == d
  {
    var labels := d.labels.value;
    MergeDiff(labels, ProcessedTarget(labels));
    assert IGNORED_SUSPEND !in ProcessedTarget(labels);
    SuspendedAdmitsExactly(hash, d, PatchLabels(d, Diff(labels, ProcessedTarget(labels))));
  }

  /** What one reconciliation achieves on an unprocessed Deployment when no call fails: the ChangeWorkload
      of exactly its version exists; the processed label is set, and ignored-suspend removed, exactly
      unless the Deployment is suspended; template and version stay. */
  lemma ReconcileExactly(hash: Hash, c: Cluster)
    requires Consistent(hash, c) && c.d.labels.Some? && !Has(c.d, DEFENSE_STATUS)
    ensures var c' := ReconcileDeployment(hash, c, true, true);
            && WorkloadName(c.d) in c'.existing * c'.created && c.created <= c'.created
            && WorkloadName(c'.d) == WorkloadName(c.d) && c'.d.template == c.d.template
            && (Has(c'.d, DEFENSE_STATUS) <==> !Has(c.d, SUSPEND))
            && (!Has(c.d, SUSPEND) ==> !Has(c'.d, IGNORED_SUSPEND))
            && (Has(c.d, SUSPEND) ==> c'.d == c.d)
            && (!Has(c.d, SUSPEND) ==> ProcessedTouches(Entries(c.d.labels), Entries(c'.d.labels)))
  {
    KeysDiffer();
    if Has(c.d, SUSPEND) {
      MarkSuspendedLabels(hash, c.d);
    } else {
      MarkOwnLabels(hash, c.d);
      ProcessedTargetTouches(c.d.labels.value);
    }
  }

  lemma ReconcileCovered(hash: Hash, c: Cluster, createOk: bool, patchOk: bool)
    requires Consistent(hash, c)
    ensures Consistent(hash, ReconcileDeployment(hash, c, createOk, patchOk))
  {
    var c' := ReconcileDeployment(hash, c, createOk, patchOk);
    if c'.d != c.d {
      UpdatedIsVersioned(hash, c.d, MarkProcessed(c.d.labels.value));
      ReconcileExactly(hash, c);
      assert c' == ReconcileDeployment(hash, c, true, true);
    }
  }

  // ---------------------------------------------------------------- runs

  ghost predicate ClusterRun(hash: Hash, c: Cluster, events: seq<Event>, end: Cluster)
    decreases |events|
  {
    if events == [] then c == end
    else Legitimate(c, events[0]) && ClusterRun(hash, Next(hash, c, events[0]), events[1..], end)
  }

  /** Every admitted version gets a workload: along any run of user updates, rollbacks, suspensions,
      deletions and reconciliations, some of whose API calls fail, a Deployment that carries the version
      and the processed label has had a ChangeWorkload created under the name of exactly that version. */
  lemma {:induction false} EveryAdmittedVersionGetsAWorkload(hash: Hash, c: Cluster, events: seq<Event>, end: Cluster)
    requires Consistent(hash, c) && ClusterRun(hash, c, events, end)
    ensures Consistent(hash, end)
    ensures Has(end.d, VERSION) && Has(end.d, DEFENSE_STATUS) ==>
              Names.CombineString(end.d.name, Version(hash, end.d.template)) in end.created
    decreases |events|
  {
    if events != [] {
      match events[0] {
        case Update(u) =>
          UpdatedIsVersioned(hash, c.d, u);
          UpdateCovered(hash, c, u);
        case Reconcile(createOk, patchOk) => ReconcileCovered(hash, c, createOk, patchOk);
        case DeleteWorkload(_) =>
      }
      EveryAdmittedVersionGetsAWorkload(hash, Next(hash, c, events[0]), events[1..], end);
    }
  }

  /** A Deployment created without the processed label starts consistent. */
  lemma CreationConsistent(hash: Hash, d: Deployment)
    requires Mutated(hash, d).Some? && !Has(d, DEFENSE_STATUS)
    ensures Consistent(hash, Cluster(Mutated(hash, d).value, {}, {}))
  {
    MutationVersions(hash, d);
    KeysDiffer();
  }

  // ---------------------------------------------------------------- where it fails

  /** Reconciling is not atomic in the code.  A patch computed from labels read before the version changed
      marks the new version as processed; coverage then survives exactly if the new version had a
      ChangeWorkload already. */
  lemma StaleMarkExactly(hash: Hash, c: Cluster, read: Labels)
    requires Consistent(hash, c) && c.d.labels.Some? && Has(c.d, VERSION) && !Has(c.d, SUSPEND)
    requires DEFENSE_STATUS !in read
    ensures var c' := Next(hash, c, Update(MarkProcessed(read)));
            && Has(c'.d, DEFENSE_STATUS) && WorkloadName(c'.d) == WorkloadName(c.d)
            && (Covered(c') <==> WorkloadName(c.d) in c.created)
  {
    KeysDiffer();
    var patch := Diff(read, ProcessedTarget(read));
    assert VERSION !in patch && DEFENSE_STATUS in patch && patch[DEFENSE_STATUS] == Some(PROCESSED);
    var d := PatchLabels(c.d, patch);
    assert Value(d.labels, VERSION) == Value(c.d.labels, VERSION);
    assert Mutate(hash, d) == Admitted;
  }

  /** The race itself, as a run: a reconciliation reads version A, whose workload exists; the user moves to
      version B; and the patch computed from the labels of A lands.  Version B is then processed, and no
      ChangeWorkload was ever created for it. */
  lemma ReconcileRace(hash: Hash, name: string, a: Template, b: Template)
    returns (start: Cluster, read: Labels, end: Cluster)
    requires a.labels.Some? && b.labels.Some? && Version(hash, a) != Version(hash, b)
    ensures Consistent(hash, start) && start.d == Deployment(name, Some(read), a) && !Has(start.d, DEFENSE_STATUS)
    ensures WorkloadName(start.d) in start.existing && start.created == {WorkloadName(start.d)}
    ensures var moved := Next(hash, start, Update(UserUpdate(start.d.(template := b))));
            && Honest(start.d, start.d.(template := b))
            && end == Next(hash, moved, Update(MarkProcessed(read)))
    ensures Value(end.d.labels, VERSION) == Version(hash, b) && Has(end.d, DEFENSE_STATUS) && !Covered(end)
  {
    KeysDiffer();
    read := map[VERSION := Version(hash, a)];
    var first := Deployment(name, Some(read), a);
    var w := WorkloadName(first);
    start := Cluster(first, {w}, {w});
    var moved := Next(hash, start, Update(UserUpdate(first.(template := b))));
    assert moved.d == Mutate(hash, first.(template := b)).d;
    MutationVersions(hash, first.(template := b));
    assert !Has(moved.d, DEFENSE_STATUS) && !Has(moved.d, SUSPEND) && Has(moved.d, VERSION);
    assert WorkloadName(moved.d) != w by { CombineDiffers(name, Version(hash, a), Version(hash, b)); }
    StaleMarkExactly(hash, moved, read);
    end := Next(hash, moved, Update(MarkProcessed(read)));
  }

  lemma CombineDiffers(name: string, v: string, w: string)
    requires v != w
    ensures Names.CombineString(name, v) != Names.CombineString(name, w)
  {
    var x, y := Names.CombineString(name, v), Names.CombineString(name, w);
    assert x[|name| + 5..] == v && y[|name| + 5..] == w;
  }
}
