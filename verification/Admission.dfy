/** Admission of Deployments, the suspend label, rollback, and the workload of every version.

    MD5 over the JSON of the stripped template is an arbitrary function `hash` of it. */
module Admission {
  import opened Options
  import Names

  type Labels = map<string, string>

  const VERSION := "admission-webhook-altershield.antgroup.com/version"
  const DEFENSE_STATUS := "altershield.defense.antgroup.com/defense-status"
  const PROCESSED := "processed"
  const SUSPEND := "altershield.defense.antgroup.com/suspend"
  const IGNORED_SUSPEND := "altershield.defense.antgroup.com/ignored-suspend"
  const POD_TEMPLATE_HASH := "pod-template-hash"

  lemma KeysDiffer()
    ensures VERSION != DEFENSE_STATUS && VERSION != SUSPEND && VERSION != IGNORED_SUSPEND
    ensures DEFENSE_STATUS != SUSPEND && DEFENSE_STATUS != IGNORED_SUSPEND && SUSPEND != IGNORED_SUSPEND
    ensures VERSION != POD_TEMPLATE_HASH
  {
    assert |VERSION| > |IGNORED_SUSPEND| > |DEFENSE_STATUS| > |SUSPEND| > |POD_TEMPLATE_HASH|;
  }

  /** A pod template; `spec` stands for everything but the labels.  A label map may be nil. */
  datatype Template = Template(labels: Option<Labels>, spec: string)

  /** The template without its version label; a nil label map and an empty one serialise alike. */
  datatype Stripped = Stripped(labels: Labels, spec: string)

  datatype Deployment = Deployment(name: string, labels: Option<Labels>, template: Template)

  type Hash = Stripped -> string

  /** Reading a Go map: a nil map reads as empty, a missing key as "". */
  function Entries(m: Option<Labels>): Labels {
    if m.Some? then m.value else map[]
  }

  function Value(m: Option<Labels>, key: string): string {
    if key in Entries(m) then Entries(m)[key] else ""
  }

  function Strip(t: Template): Stripped {
    Stripped(Entries(t.labels) - {VERSION}, t.spec)
  }

  function Version(hash: Hash, t: Template): string { hash(Strip(t)) }

  predicate Versioned(hash: Hash, d: Deployment) {
    Value(d.labels, VERSION) == Version(hash, d.template)
  }

  // ---------------------------------------------------------------- the webhooks

  /** The mutator admits as is, answers with a changed object, or dies writing to a nil map. */
  datatype Mutation = Admitted | Rewritten(d: Deployment) | Panicked

  function Mutate(hash: Hash, d: Deployment): Mutation {
    var version := Version(hash, d.template);
    if Value(d.labels, VERSION) == version then Admitted
    else if d.labels.None? || d.template.labels.None? then Panicked
    else Rewritten(d.(labels := Some((d.labels.value - {DEFENSE_STATUS})[VERSION := version]),
                      template := d.template.(labels := Some(d.template.labels.value[VERSION := version]))))
  }

  predicate ValidateUpdate(d: Deployment, old_: Deployment) {
    IGNORED_SUSPEND in Entries(d.labels) || SUSPEND !in Entries(old_.labels)
  }

  function Mutated(hash: Hash, d: Deployment): Option<Deployment> {
    match Mutate(hash, d)
    case Admitted => Some(d)
    case Rewritten(d') => Some(d')
    case Panicked => None
  }

  /** An update sent to the API server: first the mutating, then the validating webhook. */
  function AdmitUpdate(hash: Hash, old_: Deployment, d: Deployment): Option<Deployment> {
    var m := Mutated(hash, d);
    if m.Some? && ValidateUpdate(m.value, old_) then m else None
  }

  /** After admission the version label is the hash of the template without that label. */
  lemma MutationVersions(hash: Hash, d: Deployment)
    requires Mutated(hash, d).Some?
    ensures Versioned(hash, Mutated(hash, d).value)
    ensures Mutated(hash, d).value.template.spec == d.template.spec
    ensures Strip(Mutated(hash, d).value.template) == Strip(d.template)
  {
    var d' := Mutated(hash, d).value;
    assert Entries(d'.template.labels) - {VERSION} == Entries(d.template.labels) - {VERSION};
  }

  /** Two label maps agree, except perhaps on some keys. */
  ghost predicate SameBut(a: Labels, b: Labels, keys: set<string>) {
    forall k :: k !in keys ==> (k in a <==> k in b) && (k in a ==> a[k] == b[k])
  }

  /** What the mutator touches: a Deployment whose version label does not match loses the defence status and
      gets the version, on itself and on its template; a Deployment whose label matches, and every other label,
      the rest of the template and the name stay as submitted. */
  lemma MutationKeepsTheRest(hash: Hash, d: Deployment)
    requires Mutated(hash, d).Some?
    ensures var d' := Mutated(hash, d).value;
            && d'.name == d.name && d'.template.spec == d.template.spec
            && (Versioned(hash, d) ==> d' == d)
            && (!Versioned(hash, d) ==> DEFENSE_STATUS !in Entries(d'.labels))
            && SameBut(Entries(d.labels), Entries(d'.labels), {VERSION, DEFENSE_STATUS})
            && SameBut(Entries(d.template.labels), Entries(d'.template.labels), {VERSION})
  {
    KeysDiffer();
  }

  /** When an update is refused: by the validator if the stored Deployment is suspended and the update does not
      carry ignored-suspend, by the mutator if it has to write to a nil label map. */
  lemma AdmitsExactly(hash: Hash, stored: Deployment, d: Deployment)
    ensures AdmitUpdate(hash, stored, d).Some? <==>
              && (SUSPEND !in Entries(stored.labels) || IGNORED_SUSPEND in Entries(d.labels))
              && (Versioned(hash, d) || (d.labels.Some? && d.template.labels.Some?))
  {
    KeysDiffer();
  }

  /** Mutating twice equals mutating once. */
  lemma MutationIdempotent(hash: Hash, d: Deployment)
    requires Mutated(hash, d).Some?
    ensures Mutate(hash, Mutated(hash, d).value) == Admitted
    ensures Mutated(hash, Mutated(hash, d).value) == Mutated(hash, d)
  {
    MutationVersions(hash, d);
  }

  /** The template itself need not carry the version: when the Deployment's label already matches,
      the template is stored as submitted.  It carries the version exactly if the label did not match,
      or the submitted template did. */
  lemma TemplateLabelExactly(hash: Hash, d: Deployment)
    requires Mutated(hash, d).Some?
    ensures Value(Mutated(hash, d).value.template.labels, VERSION) == Version(hash, d.template)
            <==> !Versioned(hash, d) || Value(d.template.labels, VERSION) == Version(hash, d.template)
  {
  }

  // ---------------------------------------------------------------- label patches of the operator

  /** A merge patch of labels: Some sets a key, None removes it. */
  type LabelPatch = map<string, Option<string>>

  /** The patch that carries exactly the keys on which two label maps differ. */
  function Diff(base: Labels, changed: Labels): LabelPatch {
    map k | k in base.Keys + changed.Keys && !(k in base && k in changed && base[k] == changed[k])
      :: if k in changed then Some(changed[k]) else None
  }

  function Merge(labels: Labels, patch: LabelPatch): Labels {
    map k | k in labels.Keys + patch.Keys && (k in patch ==> patch[k].Some?)
      :: if k in patch then patch[k].value else labels[k]
  }

  lemma MergeDiff(base: Labels, changed: Labels)
    ensures Merge(base, Diff(base, changed)) == changed
  {
  }

  /** What addOrRemoveDeploymentSuspendLabel makes of the labels it read; None for no call. */
  function SuspendTarget(labels: Labels, add: bool, blocking: bool, now: string): Option<Labels> {
    if add && blocking then
      if SUSPEND in labels then None else Some(labels[SUSPEND := now])
    else if SUSPEND !in labels then None
    else Some(labels[IGNORED_SUSPEND := "true"] - {SUSPEND, DEFENSE_STATUS})
  }

  /** Suspending sets the suspend label to the time and nothing else, unless it is there; lifting exchanges it
      for ignored-suspend and removes the defence status, if it is there.  Otherwise nothing changes. */
  ghost predicate SuspendTouches(a: Labels, b: Labels, suspend: bool, now: string) {
    if suspend == (SUSPEND in a) then b == a
    else if suspend then SUSPEND in b && b[SUSPEND] == now && SameBut(a, b, {SUSPEND})
    else
      && SUSPEND !in b && DEFENSE_STATUS !in b && IGNORED_SUSPEND in b && b[IGNORED_SUSPEND] == "true"
      && SameBut(a, b, {SUSPEND, DEFENSE_STATUS, IGNORED_SUSPEND})
  }

  lemma SuspendTargetTouches(labels: Labels, add: bool, blocking: bool, now: string)
    ensures var target := SuspendTarget(labels, add, blocking, now);
            SuspendTouches(labels, if target.Some? then target.value else labels, add && blocking, now)
  {
    KeysDiffer();
  }

  /** What defenseProcessedDeployment makes of the labels it read. */
  function ProcessedTarget(labels: Labels): Labels {
    labels[DEFENSE_STATUS := PROCESSED] - {IGNORED_SUSPEND}
  }

  /** Marking as processed sets the defence status, removes ignored-suspend, and touches nothing else. */
  ghost predicate ProcessedTouches(a: Labels, b: Labels) {
    && DEFENSE_STATUS in b && b[DEFENSE_STATUS] == "processed" && IGNORED_SUSPEND !in b
    && SameBut(a, b, {DEFENSE_STATUS, IGNORED_SUSPEND})
  }

  lemma ProcessedTargetTouches(labels: Labels)
    ensures ProcessedTouches(labels, ProcessedTarget(labels))
  {
    KeysDiffer();
  }

  function PatchLabels(d: Deployment, patch: LabelPatch): Deployment {
    d.(labels := Some(Merge(Entries(d.labels), patch)))
  }

  /** The suspend call on labels that were read just now. */
  function SuspendCall(hash: Hash, d: Deployment, add: bool, blocking: bool, now: string): Option<Deployment> {
    var labels := Entries(d.labels);
    var target := SuspendTarget(labels, add, blocking, now);
    if target.None? then Some(d) else AdmitUpdate(hash, d, PatchLabels(d, Diff(labels, target.value)))
  }

  /** The suspend call always succeeds on a versioned Deployment, leaves the template alone, and leaves
      the suspend label exactly when pods failed and blocking is on.  Lifting also marks the Deployment
      as ignored and unprocessed. */
  lemma SuspendCallExact(hash: Hash, d: Deployment, add: bool, blocking: bool, now: string)
    requires Versioned(hash, d)
    ensures SuspendCall(hash, d, add, blocking, now).Some?
    ensures var d' := SuspendCall(hash, d, add, blocking, now).value;
            && d'.template == d.template && Versioned(hash, d')
            && (SUSPEND in Entries(d'.labels) <==> add && blocking)
            && (SUSPEND in Entries(d.labels) && !(add && blocking) ==>
                  IGNORED_SUSPEND in Entries(d'.labels) && DEFENSE_STATUS !in Entries(d'.labels))
            && SuspendTouches(Entries(d.labels), Entries(d'.labels), add && blocking, now)
  {
    var labels := Entries(d.labels);
    var target := SuspendTarget(labels, add, blocking, now);
    SuspendTargetTouches(labels, add, blocking, now);
    if target.Some? {
      MergeDiff(labels, target.value);
      assert Value(Some(target.value), VERSION) == Value(d.labels, VERSION);
    }
  }

  // ---------------------------------------------------------------- suspension freezes the Deployment

  /** Updates of a Deployment.  Patches are computed from labels read at any earlier time. */
  datatype Update =
    | UserUpdate(d: Deployment)
    | Rollback(template: Template)
    | MarkSuspended(read: Labels, now: string)
    | MarkProcessed(read: Labels)
    | LiftSuspension(read: Labels)

  /** The object an update sends, given the stored one; None if it sends nothing. */
  function Sent(stored: Deployment, u: Update): Option<Deployment> {
    match u
    case UserUpdate(d) => Some(d)
    case Rollback(template) => Some(stored.(template := template))
    case MarkSuspended(read, now) =>
      var target := SuspendTarget(read, true, true, now);
      if target.None? then None else Some(PatchLabels(stored, Diff(read, target.value)))
    case MarkProcessed(read) => Some(PatchLabels(stored, Diff(read, ProcessedTarget(read))))
    case LiftSuspension(read) =>
      var target := SuspendTarget(read, false, true, "");
      if target.None? then None else Some(PatchLabels(stored, Diff(read, target.value)))
  }

  /** The Deployment stored after an update: unchanged if it is refused. */
  function Updated(hash: Hash, stored: Deployment, u: Update): Deployment {
    var sent := Sent(stored, u);
    if sent.None? then stored
    else
      var r := AdmitUpdate(hash, stored, sent.value);
      if r.Some? then r.value else stored
  }

  /** The labels an update of the operator may change, and a rollback. */
  function Touched(u: Update): set<string> {
    match u
    case UserUpdate(_) => {}
    case Rollback(_) => {VERSION, DEFENSE_STATUS}
    case MarkSuspended(_, _) => {SUSPEND}
    case MarkProcessed(_) => {DEFENSE_STATUS, IGNORED_SUSPEND}
    case LiftSuspension(_) => {SUSPEND, DEFENSE_STATUS, IGNORED_SUSPEND}
  }

  /** A merge patch between two label maps touches only what they differ on. */
  lemma PatchTouches(labels: Labels, base: Labels, changed: Labels, keys: set<string>)
    requires SameBut(base, changed, keys)
    ensures SameBut(labels, Merge(labels, Diff(base, changed)), keys)
  {
  }

  /** However old the labels it was computed from, an update of the operator leaves all labels but its own as
      they are stored, and a label patch leaves the template as well. */
  lemma StaleUpdateTouches(hash: Hash, stored: Deployment, u: Update)
    requires Versioned(hash, stored) && !u.UserUpdate?
    ensures var d := Updated(hash, stored, u);
            && d.name == stored.name && SameBut(Entries(stored.labels), Entries(d.labels), Touched(u))
            && (!u.Rollback? ==> d.template == stored.template)
  {
    KeysDiffer();
    var sent := Sent(stored, u);
    if sent.Some? {
      SentTouches(stored, u);
      assert !u.Rollback? ==> Value(sent.value.labels, VERSION) == Value(stored.labels, VERSION);
      if Mutated(hash, sent.value).Some? {
        MutationKeepsTheRest(hash, sent.value);
      }
    }
  }

  lemma SentTouches(stored: Deployment, u: Update)
    requires !u.UserUpdate? && Sent(stored, u).Some?
    ensures var d := Sent(stored, u).value;
            && d.name == stored.name
            && SameBut(Entries(stored.labels), Entries(d.labels), if u.Rollback? then {} else Touched(u))
            && (!u.Rollback? ==> d.template == stored.template)
  {
    match u
    case Rollback(_) =>
    case MarkSuspended(read, now) =>
      SuspendTargetTouches(read, true, true, now);
      PatchTouches(Entries(stored.labels), read, SuspendTarget(read, true, true, now).value, {SUSPEND});
    case MarkProcessed(read) =>
      ProcessedTargetTouches(read);
      PatchTouches(Entries(stored.labels), read, ProcessedTarget(read), {DEFENSE_STATUS, IGNORED_SUSPEND});
    case LiftSuspension(read) =>
      SuspendTargetTouches(read, false, true, "");
      PatchTouches(Entries(stored.labels), read, SuspendTarget(read, false, true, "").value, Touched(u));
  }

  function UpdatedAll(hash: Hash, stored: Deployment, us: seq<Update>): Deployment
    decreases |us|
  {
    if us == [] then stored else UpdatedAll(hash, Updated(hash, stored, us[0]), us[1..])
  }

  predicate Frozen(d: Deployment) {
    SUSPEND in Entries(d.labels) && IGNORED_SUSPEND !in Entries(d.labels)
  }

  /** On a suspended Deployment an update is admitted exactly if it carries the ignored-suspend label
      (and does not kill the mutator). */
  lemma SuspendedAdmitsExactly(hash: Hash, stored: Deployment, d: Deployment)
    requires SUSPEND in Entries(stored.labels)
    ensures AdmitUpdate(hash, stored, d).Some? <==>
              IGNORED_SUSPEND in Entries(d.labels) && Mutate(hash, d) != Panicked
  {
  }

  /** Suspension freeze: from a state with suspend and without ignored-suspend, along any run of updates
      in which no user update carries ignored-suspend, the whole Deployment is unchanged until the
      operator itself lifts the suspension.  Rollbacks are refused as well. */
  lemma {:induction false} SuspensionFreezes(hash: Hash, stored: Deployment, us: seq<Update>)
    requires Frozen(stored)
    requires forall u :: u in us ==> !u.LiftSuspension? && (u.UserUpdate? ==> IGNORED_SUSPEND !in Entries(u.d.labels))
    ensures UpdatedAll(hash, stored, us) == stored
    decreases |us|
  {
    if us != [] {
      var u := us[0];
      assert u in us;
      var sent := Sent(stored, u);
      if sent.Some? {
        assert IGNORED_SUSPEND !in Entries(sent.value.labels);
        SuspendedAdmitsExactly(hash, stored, sent.value);
      }
      assert forall v :: v in us[1..] ==> v in us;
      SuspensionFreezes(hash, stored, us[1..]);
    }
  }

  /** The absence of ignored-suspend matters: suspending a Deployment that still carries it freezes
      nothing, since an update that keeps its labels is admitted. */
  lemma LeftoverIgnoreDefeatsSuspension(hash: Hash, stored: Deployment, template: Template)
    requires {SUSPEND, IGNORED_SUSPEND} <= Entries(stored.labels).Keys && template.labels.Some?
    ensures Updated(hash, stored, UserUpdate(stored.(template := template))).template.spec == template.spec
    ensures Versioned(hash, Updated(hash, stored, UserUpdate(stored.(template := template))))
  {
    var d := stored.(template := template);
    SuspendedAdmitsExactly(hash, stored, d);
    MutationVersions(hash, d);
  }

  /** How a Deployment comes to carry both labels: lifting a suspension sets ignored-suspend, and if the
      Deployment is suspended again before it is reconciled, the label is still there. */
  lemma SuspendedAgainKeepsIgnore(hash: Hash, stored: Deployment, now: string)
    requires Frozen(stored) && Versioned(hash, stored)
    ensures var lifted := Updated(hash, stored, LiftSuspension(Entries(stored.labels)));
            var again := Updated(hash, lifted, MarkSuspended(Entries(lifted.labels), now));
            && !Frozen(lifted) && SUSPEND !in Entries(lifted.labels)
            && {SUSPEND, IGNORED_SUSPEND} <= Entries(again.labels).Keys && again.template == stored.template
  {
    KeysDiffer();
    var labels := Entries(stored.labels);
    SuspendCallExact(hash, stored, false, true, "");
    var lifted := Updated(hash, stored, LiftSuspension(labels));
    assert lifted == SuspendCall(hash, stored, false, true, "").value;
    SuspendCallExact(hash, lifted, true, true, now);
    var target := SuspendTarget(Entries(lifted.labels), true, true, now);
    MergeDiff(Entries(lifted.labels), target.value);
    assert Updated(hash, lifted, MarkSuspended(Entries(lifted.labels), now))
        == SuspendCall(hash, lifted, true, true, now).value;
  }

  // ---------------------------------------------------------------- rollback

  /** The template of the ReplicaSet made from a Deployment's template. */
  function ReplicaSetTemplate(t: Template, podTemplateHash: string): Template {
    t.(labels := Some(Entries(t.labels)[POD_TEMPLATE_HASH := podTemplateHash]))
  }

  /** The template the rollback writes back. */
  function RollbackTemplate(rs: Template): Template {
    rs.(labels := if rs.labels.Some? then Some(rs.labels.value - {POD_TEMPLATE_HASH}) else None)
  }

  function WorkloadName(d: Deployment): string {
    Names.CombineString(d.name, Value(d.labels, VERSION))
  }

  /** The written-back template is the ReplicaSet's without the pod-template-hash label, and strips to the old
      one exactly if the old one did not itself use the
      pod-template-hash label. */
  lemma RollbackTemplateExactly(t: Template, h: string)
    ensures Strip(RollbackTemplate(ReplicaSetTemplate(t, h))) == Strip(t) <==> POD_TEMPLATE_HASH !in Entries(t.labels)
    ensures var r := RollbackTemplate(ReplicaSetTemplate(t, h));
            && r.spec == t.spec && POD_TEMPLATE_HASH !in Entries(r.labels)
            && SameBut(Entries(t.labels), Entries(r.labels), {POD_TEMPLATE_HASH})
  {
    var a := Strip(RollbackTemplate(ReplicaSetTemplate(t, h))).labels;
    KeysDiffer();
    assert a == Entries(t.labels) - {POD_TEMPLATE_HASH} - {VERSION};
    assert POD_TEMPLATE_HASH in Entries(t.labels) ==> POD_TEMPLATE_HASH in Strip(t).labels;
    if POD_TEMPLATE_HASH !in Entries(t.labels) {
      assert a == Strip(t).labels;
    }
  }

  /** Rollback round trip: unless the Deployment is suspended, rolling back to the ReplicaSet of an earlier
      version re-derives that version, hence the name of its ChangeWorkload, and drops the processed
      label if the version changes. */
  lemma RollbackRestoresVersion(hash: Hash, earlier: Deployment, stored: Deployment, h: string)
    requires Versioned(hash, earlier) && earlier.name == stored.name
    requires POD_TEMPLATE_HASH !in Entries(earlier.template.labels)
    requires stored.labels.Some? && SUSPEND !in stored.labels.value
    ensures var d := Updated(hash, stored, Rollback(RollbackTemplate(ReplicaSetTemplate(earlier.template, h))));
            && Value(d.labels, VERSION) == Value(earlier.labels, VERSION)
            && WorkloadName(d) == WorkloadName(earlier)
            && d.template.spec == earlier.template.spec
            && (Value(stored.labels, VERSION) != Value(earlier.labels, VERSION) ==>
                  DEFENSE_STATUS !in Entries(d.labels))
            && d.name == stored.name && SameBut(Entries(stored.labels), Entries(d.labels), {VERSION, DEFENSE_STATUS})
  {
    var template := RollbackTemplate(ReplicaSetTemplate(earlier.template, h));
    RollbackTemplateExactly(earlier.template, h);
    var sent := stored.(template := template);
    assert Mutate(hash, sent) != Panicked;
    assert Mutated(hash, sent).Some?;
    assert Updated(hash, stored, Rollback(template)) == Mutated(hash, sent).value;
    MutationVersions(hash, sent);
    MutationKeepsTheRest(hash, sent);
  }
}
