// Admission of LandscaperDeployments and Instances, and the Instance spec that a deployment is copied to.
module Admission {
  import opened Common

  const TENANT_ID_LENGTH: nat := 8
  const INSTANCE_ID_LENGTH: nat := 8

  datatype SecretReference = SecretReference(ref: ObjectReference, key: string)
  datatype DataPlane = DataPlane(secretRef: Option<SecretReference>, kubeconfig: string)

  // `configuration` and `oidc` are opaque to admission; `tolerance` is the control plane failure tolerance of the high
  // availability config, if there is one.
  datatype DeploymentSpec = DeploymentSpec(
    tenantId: string, purpose: string, configuration: string, oidc: Option<string>, tolerance: Option<string>,
      dataPlane: Option<DataPlane>)

  datatype InstanceSpec = InstanceSpec(
    tenantId: string, id: string, configuration: string, target: ObjectReference, oidc: Option<string>,
      tolerance: Option<string>, dataPlane: Option<DataPlane>)

  datatype Field =
    | TenantId | Id | Purpose | TargetName | TargetNamespace | Tolerance | Target
    | DataPlaneField | SecretKey | SecretName | SecretNamespace

  datatype Reason = WrongLength | Empty | NotAllowed | Combined | Missing | Twice | Immutable

  datatype FieldError = FieldError(field: Field, reason: Reason)

  // ---- Which errors a spec has ----

  predicate ReferenceHas(ref: ObjectReference, name: Field, namespace: Field, e: FieldError) {
    || (e == FieldError(name, Empty) && ref.name == "")
    || (e == FieldError(namespace, Empty) && ref.namespace == "")
  }

  predicate SecretHas(secret: SecretReference, e: FieldError) {
    (e == FieldError(SecretKey, Empty) && secret.key == "") || ReferenceHas(secret.ref, SecretName, SecretNamespace, e)
  }

  predicate ToleranceHas(tolerance: string, e: FieldError) {
    e == FieldError(Tolerance, NotAllowed) && tolerance !in ["zone", "node"]
  }

  predicate DataPlaneHas(dataPlane: DataPlane, e: FieldError) {
    || (e == FieldError(DataPlaneField, Missing) && dataPlane.secretRef.None? && dataPlane.kubeconfig == "")
    || (e == FieldError(DataPlaneField, Twice) && dataPlane.secretRef.Some? && dataPlane.kubeconfig != "")
    || (dataPlane.secretRef.Some? && SecretHas(dataPlane.secretRef.value, e))
  }

  // What an Instance and a deployment have in common.
  predicate SharedHas(oidc: Option<string>, tolerance: Option<string>, dataPlane: Option<DataPlane>, e: FieldError) {
    || (e == FieldError(DataPlaneField, Combined) && dataPlane.Some? && (oidc.Some? || tolerance.Some?))
    || (tolerance.Some? && ToleranceHas(tolerance.value, e))
    || (dataPlane.Some? && DataPlaneHas(dataPlane.value, e))
  }

  predicate SharedUpdateHas(tolerance: Option<string>, dataPlane: Option<DataPlane>,
                            oldTolerance: Option<string>, oldDataPlane: Option<DataPlane>, e: FieldError) {
    || (e == FieldError(Tolerance, Immutable) && tolerance.Some? && oldTolerance.Some? && tolerance != oldTolerance)
    || (e == FieldError(DataPlaneField, Immutable) && dataPlane.Some? != oldDataPlane.Some?)
  }

  predicate InstanceHas(spec: InstanceSpec, e: FieldError) {
    || ReferenceHas(spec.target, TargetName, TargetNamespace, e)
    || (e == FieldError(TenantId, WrongLength) && |spec.tenantId| != TENANT_ID_LENGTH)
    || (e == FieldError(Id, WrongLength) && |spec.id| != INSTANCE_ID_LENGTH)
    || SharedHas(spec.oidc, spec.tolerance, spec.dataPlane, e)
  }

  predicate InstanceUpdateHas(spec: InstanceSpec, earlier: InstanceSpec, e: FieldError) {
    || (e == FieldError(TenantId, Immutable) && spec.tenantId != earlier.tenantId)
    || (e == FieldError(Id, Immutable) && spec.id != earlier.id)
    || (e == FieldError(Target, Immutable) && spec.target != earlier.target)
    || SharedUpdateHas(spec.tolerance, spec.dataPlane, earlier.tolerance, earlier.dataPlane, e)
  }

  predicate DeploymentHas(spec: DeploymentSpec, e: FieldError) {
    || (e == FieldError(TenantId, WrongLength) && |spec.tenantId| != TENANT_ID_LENGTH)
    || (e == FieldError(Purpose, Empty) && spec.purpose == "")
    || SharedHas(spec.oidc, spec.tolerance, spec.dataPlane, e)
  }

  predicate DeploymentUpdateHas(spec: DeploymentSpec, earlier: DeploymentSpec, e: FieldError) {
    || (e == FieldError(TenantId, Immutable) && spec.tenantId != earlier.tenantId)
    || SharedUpdateHas(spec.tolerance, spec.dataPlane, earlier.tolerance, earlier.dataPlane, e)
  }

  // ---- Validation ----

  method ValidateObjectReference(ref: ObjectReference, name: Field, namespace: Field) returns (errors: seq<FieldError>)
    ensures forall e :: e in errors <==> ReferenceHas(ref, name, namespace, e)
  {
    errors := [];
    if |ref.name| == 0 {
      errors := errors + [FieldError(name, Empty)];
    }
    if |ref.namespace| == 0 {
      errors := errors + [FieldError(namespace, Empty)];
    }
  }

  method ValidateSecretReference(secret: SecretReference) returns (errors: seq<FieldError>)
    ensures forall e :: e in errors <==> SecretHas(secret, e)
  {
    errors := [];
    if |secret.key| == 0 {
      errors := errors + [FieldError(SecretKey, Empty)];
    }
    var more := ValidateObjectReference(secret.ref, SecretName, SecretNamespace);
    errors := errors + more;
  }

  method ValidateHighAvailabilityConfig(tolerance: string) returns (errors: seq<FieldError>)
    ensures forall e :: e in errors <==> ToleranceHas(tolerance, e)
  {
    errors := [];
    if tolerance != "zone" && tolerance != "node" {
      errors := errors + [FieldError(Tolerance, NotAllowed)];
    }
  }

  method ValidateDataPlane(dataPlane: DataPlane) returns (errors: seq<FieldError>)
    ensures forall e :: e in errors <==> DataPlaneHas(dataPlane, e)
  {
    errors := [];
    if dataPlane.secretRef.None? && |dataPlane.kubeconfig| == 0 {
      errors := errors + [FieldError(DataPlaneField, Missing)];
    }
    if dataPlane.secretRef.Some? && |dataPlane.kubeconfig| > 0 {
      errors := errors + [FieldError(DataPlaneField, Twice)];
    }
    if dataPlane.secretRef.Some? {
      var more := ValidateSecretReference(dataPlane.secretRef.value);
      errors := errors + more;
    }
  }

  method ValidateShared(oidc: Option<string>, tolerance: Option<string>, dataPlane: Option<DataPlane>)
      returns (errors: seq<FieldError>)
    ensures forall e :: e in errors <==> SharedHas(oidc, tolerance, dataPlane, e)
  {
    errors := [];
    if dataPlane.Some? && (oidc.Some? || tolerance.Some?) {
      errors := errors + [FieldError(DataPlaneField, Combined)];
    }
    if tolerance.Some? {
      var more := ValidateHighAvailabilityConfig(tolerance.value);
      errors := errors + more;
    }
    if dataPlane.Some? {
      var more := ValidateDataPlane(dataPlane.value);
      errors := errors + more;
    }
  }

  method ValidateSharedUpdate(tolerance: Option<string>, dataPlane: Option<DataPlane>,
                              oldTolerance: Option<string>, oldDataPlane: Option<DataPlane>)
    returns (errors: seq<FieldError>)
    ensures forall e :: e in errors <==> SharedUpdateHas(tolerance, dataPlane, oldTolerance, oldDataPlane, e)
  {
    errors := [];
    if tolerance.Some? && oldTolerance.Some? {
      if tolerance.value != oldTolerance.value {
        errors := errors + [FieldError(Tolerance, Immutable)];
      }
    }
    if (oldDataPlane.Some? && dataPlane.None?) || (oldDataPlane.None? && dataPlane.Some?) {
      errors := errors + [FieldError(DataPlaneField, Immutable)];
    }
  }

  method ValidateInstance(spec: InstanceSpec, earlier: Option<InstanceSpec>) returns (errors: seq<FieldError>)
    ensures forall e :: e in errors <==>
      InstanceHas(spec, e) || (earlier.Some? && InstanceUpdateHas(spec, earlier.value, e))
  {
    errors := ValidateInstanceSpec(spec);
    if earlier.Some? {
      var update := ValidateInstanceSpecUpdate(spec, earlier.value);
      errors := errors + update;
    }
  }

  method ValidateInstanceSpec(spec: InstanceSpec) returns (errors: seq<FieldError>)
    ensures forall e :: e in errors <==> InstanceHas(spec, e)
  {
    errors := ValidateObjectReference(spec.target, TargetName, TargetNamespace);
    if |spec.tenantId| != TENANT_ID_LENGTH {
      errors := errors + [FieldError(TenantId, WrongLength)];
    }
    if |spec.id| != INSTANCE_ID_LENGTH {
      errors := errors + [FieldError(Id, WrongLength)];
    }
    var more := ValidateShared(spec.oidc, spec.tolerance, spec.dataPlane);
    errors := errors + more;
  }

  method ValidateInstanceSpecUpdate(spec: InstanceSpec, earlier: InstanceSpec) returns (errors: seq<FieldError>)
    ensures forall e :: e in errors <==> InstanceUpdateHas(spec, earlier, e)
  {
    errors := [];
    if spec.tenantId != earlier.tenantId {
      errors := errors + [FieldError(TenantId, Immutable)];
    }
    if spec.id != earlier.id {
      errors := errors + [FieldError(Id, Immutable)];
    }
    if !(spec.target.name == earlier.target.name && spec.target.namespace == earlier.target.namespace) {
      errors := errors + [FieldError(Target, Immutable)];
    }
    var more := ValidateSharedUpdate(spec.tolerance, spec.dataPlane, earlier.tolerance, earlier.dataPlane);
    errors := errors + more;
  }

  method ValidateLandscaperDeployment(spec: DeploymentSpec, earlier: Option<DeploymentSpec>)
      returns (errors: seq<FieldError>)
    ensures forall e :: e in errors <==>
      DeploymentHas(spec, e) || (earlier.Some? && DeploymentUpdateHas(spec, earlier.value, e))
  {
    errors := ValidateLandscaperDeploymentSpec(spec);
    if earlier.Some? {
      var update := ValidateLandscaperDeploymentSpecUpdate(spec, earlier.value);
      errors := errors + update;
    }
  }

  method ValidateLandscaperDeploymentSpec(spec: DeploymentSpec) returns (errors: seq<FieldError>)
    ensures forall e :: e in errors <==> DeploymentHas(spec, e)
  {
    errors := [];
    if |spec.tenantId| != TENANT_ID_LENGTH {
      errors := errors + [FieldError(TenantId, WrongLength)];
    }
    if |spec.purpose| == 0 {
      errors := errors + [FieldError(Purpose, Empty)];
    }
    var more := ValidateShared(spec.oidc, spec.tolerance, spec.dataPlane);
    errors := errors + more;
  }

  method ValidateLandscaperDeploymentSpecUpdate(spec: DeploymentSpec, earlier: DeploymentSpec)
      returns (errors: seq<FieldError>)
    ensures forall e :: e in errors <==> DeploymentUpdateHas(spec, earlier, e)
  {
    errors := [];
    if spec.tenantId != earlier.tenantId {
      errors := errors + [FieldError(TenantId, Immutable)];
    }
    var more := ValidateSharedUpdate(spec.tolerance, spec.dataPlane, earlier.tolerance, earlier.dataPlane);
    errors := errors + more;
  }

  // ---- Admitted specs ----

  predicate SharedValid(oidc: Option<string>, tolerance: Option<string>, dataPlane: Option<DataPlane>) {
    && (tolerance.Some? ==> tolerance.value in ["zone", "node"])
    && (dataPlane.Some? ==>
          && oidc.None? && tolerance.None?
          && match dataPlane.value.secretRef
             case None => dataPlane.value.kubeconfig != ""
             case Some(secret) =>
               dataPlane.value.kubeconfig == "" && secret.key != "" && secret.ref.name != "" &&
                 secret.ref.namespace != "")
  }

  predicate InstanceValid(spec: InstanceSpec) {
    && spec.target.name != "" && spec.target.namespace != ""
    && |spec.tenantId| == TENANT_ID_LENGTH && |spec.id| == INSTANCE_ID_LENGTH
    && SharedValid(spec.oidc, spec.tolerance, spec.dataPlane)
  }

  predicate DeploymentValid(spec: DeploymentSpec) {
    |spec.tenantId| == TENANT_ID_LENGTH && spec.purpose != "" && SharedValid(spec.oidc, spec.tolerance, spec.dataPlane)
  }

  // An update may introduce or drop a tolerance, but not replace it, and keeps the kind of data plane.
  predicate SharedUpdateValid(tolerance: Option<string>, dataPlane: Option<DataPlane>, oldTolerance: Option<string>,
      oldDataPlane: Option<DataPlane>) {
    (tolerance == oldTolerance || tolerance.None? || oldTolerance.None?) && dataPlane.Some? == oldDataPlane.Some?
  }

  predicate InstanceUpdateValid(spec: InstanceSpec, earlier: InstanceSpec) {
    && spec.tenantId == earlier.tenantId && spec.id == earlier.id && spec.target == earlier.target
    && SharedUpdateValid(spec.tolerance, spec.dataPlane, earlier.tolerance, earlier.dataPlane)
  }

  predicate DeploymentUpdateValid(spec: DeploymentSpec, earlier: DeploymentSpec) {
    && spec.tenantId == earlier.tenantId
    && SharedUpdateValid(spec.tolerance, spec.dataPlane, earlier.tolerance, earlier.dataPlane)
  }

  /** The errors name the field that is wrong, and why. */
  lemma ErrorsByField(spec: InstanceSpec, earlier: InstanceSpec, deployment: DeploymentSpec, before: DeploymentSpec)
    ensures InstanceHas(spec, FieldError(Id, WrongLength)) <==> |spec.id| != 8
    ensures InstanceHas(spec, FieldError(TenantId, WrongLength)) <==> |spec.tenantId| != 8
    ensures DeploymentHas(deployment, FieldError(TenantId, WrongLength)) <==> |deployment.tenantId| != 8
    ensures DeploymentHas(deployment, FieldError(Purpose, Empty)) <==> deployment.purpose == ""
    ensures InstanceUpdateHas(spec, earlier, FieldError(Id, Immutable)) <==> spec.id != earlier.id
    ensures InstanceUpdateHas(spec, earlier, FieldError(TenantId, Immutable)) <==> spec.tenantId != earlier.tenantId
    ensures InstanceUpdateHas(spec, earlier, FieldError(Target, Immutable)) <==> spec.target != earlier.target
    ensures DeploymentUpdateHas(deployment, before, FieldError(TenantId, Immutable)) <==>
      deployment.tenantId != before.tenantId
    ensures InstanceUpdateHas(spec, earlier, FieldError(Tolerance, Immutable)) <==>
      !(spec.tolerance == earlier.tolerance || spec.tolerance.None? || earlier.tolerance.None?)
    ensures InstanceUpdateHas(spec, earlier, FieldError(DataPlaneField, Immutable)) <==>
      spec.dataPlane.Some? != earlier.dataPlane.Some?
  {
  }

  lemma SharedAdmission(oidc: Option<string>, tolerance: Option<string>, dataPlane: Option<DataPlane>)
    ensures (forall e :: !SharedHas(oidc, tolerance, dataPlane, e)) <==> SharedValid(oidc, tolerance, dataPlane)
  {
    if forall e :: !SharedHas(oidc, tolerance, dataPlane, e) {
      assert !SharedHas(oidc, tolerance, dataPlane, FieldError(DataPlaneField, Combined));
      assert !SharedHas(oidc, tolerance, dataPlane, FieldError(Tolerance, NotAllowed));
      assert !SharedHas(oidc, tolerance, dataPlane, FieldError(DataPlaneField, Missing));
      assert !SharedHas(oidc, tolerance, dataPlane, FieldError(DataPlaneField, Twice));
      assert !SharedHas(oidc, tolerance, dataPlane, FieldError(SecretKey, Empty));
      assert !SharedHas(oidc, tolerance, dataPlane, FieldError(SecretName, Empty));
      assert !SharedHas(oidc, tolerance, dataPlane, FieldError(SecretNamespace, Empty));
    }
  }

  lemma SharedUpdateAdmission(tolerance: Option<string>, dataPlane: Option<DataPlane>, oldTolerance: Option<string>,
      oldDataPlane: Option<DataPlane>)
    ensures (forall e :: !SharedUpdateHas(tolerance, dataPlane, oldTolerance, oldDataPlane, e))
      <==> SharedUpdateValid(tolerance, dataPlane, oldTolerance, oldDataPlane)
  {
    if forall e :: !SharedUpdateHas(tolerance, dataPlane, oldTolerance, oldDataPlane, e) {
      assert !SharedUpdateHas(tolerance, dataPlane, oldTolerance, oldDataPlane, FieldError(Tolerance, Immutable));
      assert !SharedUpdateHas(tolerance, dataPlane, oldTolerance, oldDataPlane, FieldError(DataPlaneField, Immutable));
    }
  }

  /** The specs and updates without an error are exactly the valid ones. */
  lemma InstanceAdmission(spec: InstanceSpec, earlier: InstanceSpec)
    ensures (forall e :: !InstanceHas(spec, e)) <==> InstanceValid(spec)
    ensures (forall e :: !InstanceUpdateHas(spec, earlier, e)) <==> InstanceUpdateValid(spec, earlier)
  {
    hide SharedHas, SharedValid, SharedUpdateHas, SharedUpdateValid;
    SharedAdmission(spec.oidc, spec.tolerance, spec.dataPlane);
    SharedUpdateAdmission(spec.tolerance, spec.dataPlane, earlier.tolerance, earlier.dataPlane);
    assert forall e :: SharedHas(spec.oidc, spec.tolerance, spec.dataPlane, e) ==> InstanceHas(spec, e);
    assert forall e :: SharedUpdateHas(spec.tolerance, spec.dataPlane, earlier.tolerance, earlier.dataPlane, e) ==>
      InstanceUpdateHas(spec, earlier, e);
    if forall e :: !InstanceHas(spec, e) {
      assert forall f, r :: !InstanceHas(spec, FieldError(f, r));
    }
    if forall e :: !InstanceUpdateHas(spec, earlier, e) {
      assert forall f, r :: !InstanceUpdateHas(spec, earlier, FieldError(f, r));
    }
  }

  lemma DeploymentAdmission(spec: DeploymentSpec, earlier: DeploymentSpec)
    ensures (forall e :: !DeploymentHas(spec, e)) <==> DeploymentValid(spec)
    ensures (forall e :: !DeploymentUpdateHas(spec, earlier, e)) <==> DeploymentUpdateValid(spec, earlier)
  {
    hide SharedHas, SharedValid, SharedUpdateHas, SharedUpdateValid;
    SharedAdmission(spec.oidc, spec.tolerance, spec.dataPlane);
    SharedUpdateAdmission(spec.tolerance, spec.dataPlane, earlier.tolerance, earlier.dataPlane);
    assert forall e :: SharedHas(spec.oidc, spec.tolerance, spec.dataPlane, e) ==> DeploymentHas(spec, e);
    assert forall e :: SharedUpdateHas(spec.tolerance, spec.dataPlane, earlier.tolerance, earlier.dataPlane, e) ==>
      DeploymentUpdateHas(spec, earlier, e);
    if forall e :: !DeploymentHas(spec, e) {
      assert forall f, r :: !DeploymentHas(spec, FieldError(f, r));
    }
    if forall e :: !DeploymentUpdateHas(spec, earlier, e) {
      assert forall f, r :: !DeploymentUpdateHas(spec, earlier, FieldError(f, r));
    }
  }
}
