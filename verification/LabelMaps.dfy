/** The webhook and the label patches as they work in memory: on label maps that are shared by
    reference and changed in place. */
module LabelMaps {
  import opened Options
  import opened Admission

  /** A Go map; a nil map is a null reference. */
  class LabelMap {
    var m: Labels

    constructor (m: Labels)
      ensures this.m == m
    {
      this.m := m;
    }
  }

  function MapView(labels: LabelMap?): Option<Labels>
    reads labels
  {
    if labels == null then None else Some(labels.m)
  }

  /** `delete(m, key)` does nothing on a nil map. */
  method Delete(labels: LabelMap?, key: string)
    modifies labels
    ensures labels != null ==> labels.m == old(labels.m) - {key}
  {
    if labels != null {
      labels.m := labels.m - {key};
    }
  }

  /** A Deployment as decoded from a request or read from the API server. */
  class DeploymentObject {
    const name: string
    var labels: LabelMap?
    var templateLabels: LabelMap?
    var spec: string

    ghost predicate Separate()
      reads this
    {
      labels != null ==> labels != templateLabels
    }

    function View(): Deployment
      reads this, labels, templateLabels
    {
      Deployment(name, MapView(labels), Template(MapView(templateLabels), spec))
    }

    constructor (name: string, labels: LabelMap?, templateLabels: LabelMap?, spec: string)
      requires labels != null ==> labels != templateLabels
      ensures this.name == name && this.labels == labels && this.templateLabels == templateLabels && this.spec == spec
      ensures Separate()
    {
      this.name, this.labels, this.templateLabels, this.spec := name, labels, templateLabels, spec;
    }
  }

  function WithoutVersion(t: Template): Template {
    t.(labels := if t.labels.Some? then Some(t.labels.value - {VERSION}) else None)
  }

  /** The Deployment is passed by value, but its label maps are shared: hashing strips the version label
      from the caller's template as well. */
  method GetDeploymentTemplateHash(d: DeploymentObject, hash: Hash) returns (version: string)
    requires d.Separate()
    modifies d.templateLabels
    ensures version == Version(hash, old(d.View()).template)
    ensures d.View() == old(d.View()).(template := WithoutVersion(old(d.View()).template))
  {
    Delete(d.templateLabels, VERSION);
    var labels: Labels := if d.templateLabels == null then map[] else d.templateLabels.m;
    version := hash(Stripped(labels, d.spec));
  }

  /** The mutating webhook.  When it admits a Deployment, its copy has lost the version label of the
      template; that copy is not sent anywhere. */
  method HandleMutation(d: DeploymentObject, hash: Hash) returns (response: Mutation)
    requires d.Separate()
    modifies d.labels, d.templateLabels
    ensures response == Mutate(hash, old(d.View()))
    ensures response.Rewritten? ==> d.View() == response.d
    ensures response.Admitted? ==> d.View() == old(d.View()).(template := WithoutVersion(old(d.View()).template))
    ensures response.Rewritten? ==>
              && SameBut(Entries(old(d.View()).labels), Entries(response.d.labels), {VERSION, DEFENSE_STATUS})
              && DEFENSE_STATUS !in Entries(response.d.labels) && response.d.name == d.name
  {
    ghost var submitted := d.View();
    if Mutated(hash, submitted).Some? {
      MutationKeepsTheRest(hash, submitted);
    }
    var version := GetDeploymentTemplateHash(d, hash);
    var oldVersion := Value(MapView(d.labels), VERSION);
    if oldVersion == version {
      return Admitted;
    }
    Delete(d.labels, DEFENSE_STATUS);
    if d.labels == null || d.templateLabels == null {
      return Panicked;
    }
    d.labels.m := d.labels.m[VERSION := version];
    d.templateLabels.m := d.templateLabels.m[VERSION := version];
    ghost var t := old(d.View()).template.labels.value;
    assert (t - {VERSION})[VERSION := version] == t[VERSION := version];
    response := Rewritten(d.View());
  }

  /** An in-memory change of the labels followed by a merge patch against the copy made before. */
  datatype PatchCall = NoCall | Send(patch: LabelPatch) | Crash

  method AddOrRemoveDeploymentSuspendLabel(labels: LabelMap?, add: bool, blocking: bool, now: string)
    returns (call: PatchCall)
    modifies labels
    ensures labels == null ==> call == if add && blocking then Crash else NoCall
    ensures labels != null ==>
              var target := SuspendTarget(old(labels.m), add, blocking, now);
              && call == (if target.None? then NoCall else Send(Diff(old(labels.m), target.value)))
              && labels.m == (if target.None? then old(labels.m) else target.value)
              && SuspendTouches(old(labels.m), labels.m, add && blocking, now)
  {
    SuspendTargetTouches(if labels == null then map[] else labels.m, add, blocking, now);
    var base := if labels == null then map[] else labels.m;
    if add && blocking {
      if labels == null {
        return Crash;
      }
      if SUSPEND in labels.m {
        return NoCall;
      }
      labels.m := labels.m[SUSPEND := now];
    } else {
      if labels == null || SUSPEND !in labels.m {
        return NoCall;
      }
      labels.m := labels.m[IGNORED_SUSPEND := "true"];
      Delete(labels, SUSPEND);
      Delete(labels, DEFENSE_STATUS);
      assert base[IGNORED_SUSPEND := "true"] - {SUSPEND} - {DEFENSE_STATUS}
          == base[IGNORED_SUSPEND := "true"] - {SUSPEND, DEFENSE_STATUS};
    }
    call := Send(Diff(base, labels.m));
  }

  method DefenseProcessedDeployment(labels: LabelMap?) returns (call: PatchCall)
    modifies labels
    ensures labels == null ==> call == Crash
    ensures labels != null ==>
              && call == Send(Diff(old(labels.m), ProcessedTarget(old(labels.m))))
              && labels.m == ProcessedTarget(old(labels.m)) && ProcessedTouches(old(labels.m), labels.m)
  {
    ProcessedTargetTouches(if labels == null then map[] else labels.m);
    if labels == null {
      return Crash;
    }
    var base := labels.m;
    labels.m := labels.m[DEFENSE_STATUS := PROCESSED];
    Delete(labels, IGNORED_SUSPEND);
    call := Send(Diff(base, labels.m));
  }

  /** A ReplicaSet's name, counts and pod template. */
  class ReplicaSetObject {
    const name: string
    var templateLabels: LabelMap?
    var spec: string

    function Template(): Admission.Template
      reads this, templateLabels
    {
      Admission.Template(MapView(templateLabels), spec)
    }

    constructor (name: string, templateLabels: LabelMap?, spec: string)
      ensures this.name == name && this.templateLabels == templateLabels && this.spec == spec
    {
      this.name, this.templateLabels, this.spec := name, templateLabels, spec;
    }
  }

  /** The write-back of rollback: the Deployment ends up with the ReplicaSet's own label map. */
  method WriteBackTemplate(d: DeploymentObject, rs: ReplicaSetObject)
    requires d.labels != null ==> d.labels != rs.templateLabels
    modifies d, rs.templateLabels
    ensures d.View() == old(d.View()).(template := RollbackTemplate(old(rs.Template())))
    ensures d.templateLabels == rs.templateLabels && d.labels == old(d.labels) && d.Separate()
  {
    Delete(rs.templateLabels, POD_TEMPLATE_HASH);
    d.templateLabels, d.spec := rs.templateLabels, rs.spec;
  }

  /** The whole rollback in memory: writing the template back and passing the mutating webhook, which then
      changes the very map the ReplicaSet's template holds. */
  method RollbackInMemory(d: DeploymentObject, rs: ReplicaSetObject, hash: Hash) returns (response: Mutation)
    requires d.labels != null ==> d.labels != rs.templateLabels
    modifies d, d.labels, rs.templateLabels
    ensures response == Mutate(hash, old(d.View()).(template := RollbackTemplate(old(rs.Template()))))
    ensures response.Rewritten? ==> d.View() == response.d && rs.Template() == response.d.template
  {
    WriteBackTemplate(d, rs);
    response := HandleMutation(d, hash);
  }
}
