// ServiceTargetConfigs and LandscaperDeployments as scheduling sees them.
module Targets {
  import opened Common

  const MIN_INT64: int := -0x8000_0000_0000_0000
  const MAX_INT64: int := 0x7FFF_FFFF_FFFF_FFFF

  type Int64 = x: int | MIN_INT64 <= x <= MAX_INT64

  datatype ServiceTargetConfig = ServiceTargetConfig(
    ref: ObjectReference,
    priority: Int64,
    restricted: bool,
    instanceRefs: seq<ObjectReference>)
  {
    // The number of Instances on the target, plus one: the divisor of the priority.
    function Divisor(): (n: int)
      ensures n >= 1
    {
      |instanceRefs| + 1
    }
  }

  datatype Deployment = Deployment(tenantId: string, labels: map<string, string>)

  datatype SchedulingError =
    | NoTargetAvailable
    | NoConfigAvailable
    | RuleWithoutTargets
    | NegativeRulePriority
    | NotOneCondition
    | EmptySelector
}
