/**
 The Function resource as the operator reads it: what the user specifies and what the operator reports.
 */
module FunctionResource {
  import opened Wrappers
  import opened Triggers

  datatype Kind = LightDeployment | HeavyDeployment | HeavyJob

  datatype Gpu = Gpu(required: bool, provider: string)

  /** Execution.Deployment of the spec. */
  datatype Scaling = Scaling(minReplicas: Option<int>, maxReplicas: Option<int>, scaleDownDelay: Option<int>)

  datatype Spec = Spec(
    project: string,
    kind: Kind,
    gpu: Option<Gpu>,
    scaling: Option<Scaling>,
    triggers: seq<Trigger>,
    runtime: string,        // preset, requirements and Dockerfile
    source: string)

  /** Namespace and name of a resource. */
  datatype Key = Key(namespace: string, name: string)

  predicate IsExternalGpu(spec: Spec) {
    spec.gpu.Some? && spec.gpu.value.required && spec.gpu.value.provider != "self-managed"
  }

  predicate Deploys(spec: Spec) {
    !IsExternalGpu(spec) && !spec.kind.HeavyJob?
  }

  datatype Phase = Unset | Building | Ready | Failed

  datatype BuildState = BuildRunning | BuildSucceeded | BuildFailed

  datatype Build = Build(state: BuildState, imageRef: string)

  datatype Status = Status(phase: Phase, build: Option<Build>, observed: int)

  /** `version` is the resource version every write changes; `generation` counts spec changes. */
  datatype Function = Function(spec: Spec, finalizer: bool, generation: int, version: nat, status: Status)

  function Image(f: Function): string {
    if f.status.build.Some? then f.status.build.value.imageRef else ""
  }

  predicate BuildDone(st: Status) {
    st.build.Some? && st.build.value.state.BuildSucceeded?
  }
}
