// What admission guarantees over whole chains of updates, and for the Instances made from admitted deployments.
module AdmissionTheorems {
  import opened Common
  import opened Admission
  import Ids

  // ---- From a deployment to its Instance ----

  // The part of mutateInstance that copies the spec of the deployment.
  function Mutated(instance: InstanceSpec, deployment: DeploymentSpec): InstanceSpec {
    instance.(
      tenantId := deployment.tenantId, configuration := deployment.configuration, oidc := deployment.oidc,
      tolerance := deployment.tolerance, dataPlane := deployment.dataPlane)
  }

  // An update history: every spec is valid, and accepted as an update of the one before.
  predicate DeploymentHistory(h: seq<DeploymentSpec>) {
    && h != []
    && (forall i :: 0 <= i < |h| ==> DeploymentValid(h[i]))
    && (forall i :: 0 <= i < |h| - 1 ==> DeploymentUpdateValid(h[i + 1], h[i]))
  }

  predicate InstanceHistory(h: seq<InstanceSpec>) {
    && h != []
    && (forall i :: 0 <= i < |h| ==> InstanceValid(h[i]))
    && (forall i :: 0 <= i < |h| - 1 ==> InstanceUpdateValid(h[i + 1], h[i]))
  }

  // The Instance was last written from this deployment.
  predicate InSync(instance: InstanceSpec, deployment: DeploymentSpec) {
    && instance.tenantId == deployment.tenantId && instance.configuration == deployment.configuration
    && instance.oidc == deployment.oidc && instance.tolerance == deployment.tolerance
    && instance.dataPlane == deployment.dataPlane
  }

  /** The copy takes over from the deployment what they have in common, and keeps the ID and the target. */
  lemma MutatedIsInSync(instance: InstanceSpec, deployment: DeploymentSpec)
    ensures var mutated := Mutated(instance, deployment);
      InSync(mutated, deployment) && mutated.id == instance.id && mutated.target == instance.target
    ensures InSync(instance, deployment) <==> Mutated(instance, deployment) == instance
  {
  }

  // The one change that admission lets a deployment make in several updates, but no Instance in one.
  predicate Replaced(tolerance: Option<string>, earlier: Option<string>) {
    tolerance.Some? && earlier.Some? && tolerance != earlier
  }

  /** An Instance that is reconciled again after any number of admitted updates of its deployment is accepted, exactly
      if the tolerance has not been replaced by another one meanwhile. */
  lemma InstanceFollowsDeployment(instance: InstanceSpec, h: seq<DeploymentSpec>)
    requires InstanceValid(instance) && DeploymentHistory(h) && InSync(instance, h[0])
    ensures InstanceValid(Mutated(instance, h[|h| - 1]))
    ensures InstanceUpdateValid(Mutated(instance, h[|h| - 1]), instance) <==>
      !Replaced(h[|h| - 1].tolerance, h[0].tolerance)
  {
    DeploymentKeepsKind(h);
  }

  const ZONED := DeploymentSpec("tenant01", "test", "", None, Some("zone"), None)
  const PLACED := InstanceSpec("tenant01", "instance", "", ObjectReference("target", "ns"), None, Some("zone"), None)

  /** Such a chain: zone, none, node. The Instance that missed the update in the middle is rejected at the end. */
  lemma ReplacedToleranceIsRejected()
    ensures var h := [ZONED, ZONED.(tolerance := None), ZONED.(tolerance := Some("node"))];
      && DeploymentHistory(h)
      && InstanceValid(PLACED) && InSync(PLACED, h[0])
      && !InstanceUpdateValid(Mutated(PLACED, h[2]), PLACED)
  {
    assert "zone"[0] != "node"[0];
  }

  /** After a single admitted update of the deployment, the new spec of the Instance is always accepted. */
  lemma InstanceFollowsEachUpdate(instance: InstanceSpec, before: DeploymentSpec, after: DeploymentSpec)
    requires InstanceValid(instance) && InSync(instance, before)
    requires DeploymentValid(before) && DeploymentValid(after) && DeploymentUpdateValid(after, before)
    ensures var mutated := Mutated(instance, after);
      InstanceValid(mutated) && InstanceUpdateValid(mutated, instance) && InSync(mutated, after)
  {
    assert DeploymentHistory([before, after]);
    InstanceFollowsDeployment(instance, [before, after]);
  }

  lemma {:induction false} DeploymentKeepsKind(h: seq<DeploymentSpec>)
    requires DeploymentHistory(h)
    ensures h[|h| - 1].tenantId == h[0].tenantId
    ensures h[|h| - 1].dataPlane.Some? == h[0].dataPlane.Some?
  {
    if |h| > 1 {
      assert DeploymentHistory(h[..|h| - 1]);
      DeploymentKeepsKind(h[..|h| - 1]);
      assert DeploymentUpdateValid(h[|h| - 2 + 1], h[|h| - 2]);
    }
  }

  /** An ID that is cut from an identifier of at least eight characters has the length that admission asks for. */
  lemma NewIdIsAdmitted(spec: InstanceSpec, drawn: string)
    requires |drawn| >= INSTANCE_ID_LENGTH
    ensures var id := Ids.Truncated(drawn);
      Ids.Shortens(drawn, id) && !InstanceHas(spec.(id := id), FieldError(Id, WrongLength))
  {
  }

  // ---- What never changes about an Instance ----

  /** Along any chain of admitted updates, tenant, ID, target and kind of data plane of an Instance are constant; the
      tolerance is constant as long as it is there. */
  lemma {:induction false} InstanceKeepsIdentity(h: seq<InstanceSpec>, i: nat, j: nat)
    requires InstanceHistory(h) && i <= j < |h|
    ensures h[j].tenantId == h[i].tenantId && h[j].id == h[i].id && h[j].target == h[i].target
    ensures h[j].dataPlane.Some? == h[i].dataPlane.Some?
    ensures (forall k :: i <= k <= j ==> h[k].tolerance.Some?) ==> h[j].tolerance == h[i].tolerance
  {
    if i < j {
      InstanceKeepsIdentity(h, i, j - 1);
      assert InstanceUpdateValid(h[j - 1 + 1], h[j - 1]);
    }
  }

  /** The tolerance is not constant: it can be replaced by way of an update that drops it. */
  lemma ToleranceCanBeReplaced(spec: InstanceSpec)
    requires InstanceValid(spec) && spec.dataPlane.None?
    ensures InstanceHistory([spec.(tolerance := Some("zone")), spec.(tolerance := None),
      spec.(tolerance := Some("node"))])
    ensures !InstanceUpdateValid(spec.(tolerance := Some("node")), spec.(tolerance := Some("zone")))
  {
    assert "zone"[0] != "node"[0];
  }

  // ---- The hosting namespace ----

  function HostingNamespace(spec: InstanceSpec): string {
    spec.tenantId + "-" + spec.id
  }

  /** The hosting namespaces of two admitted Instances, at whatever points of their histories, have the same name only
      if tenant and ID are the same. */
  lemma HostingNamespaceIsUnique(h: seq<InstanceSpec>, g: seq<InstanceSpec>, i: nat, j: nat)
    requires InstanceHistory(h) && InstanceHistory(g) && i < |h| && j < |g|
    ensures HostingNamespace(h[i]) == HostingNamespace(g[j]) <==> h[0].tenantId == g[0].tenantId && h[0].id == g[0].id
  {
    InstanceKeepsIdentity(h, 0, i);
    InstanceKeepsIdentity(g, 0, j);
    var a, b := HostingNamespace(h[i]), HostingNamespace(g[j]);
    assert InstanceValid(h[i]) && InstanceValid(g[j]);
    assert a[..8] == h[i].tenantId && a[9..] == h[i].id;
    assert b[..8] == g[j].tenantId && b[9..] == g[j].id;
  }
}
