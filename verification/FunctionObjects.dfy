/**
 The six cluster objects named after a function, as one pass of the operator leaves them: which it
 creates, updates and removes, and what becomes of API calls that fail.
 */
module FunctionObjects {
  import opened Wrappers
  import opened FunctionResource
  import Triggers
  import Consumers

  datatype ObjectKind = Deployment | Service | Hpa | ScaledObject | HttpScaledObject | HttpRoute

  const AUTOSCALERS: set<ObjectKind> := {Hpa, ScaledObject, HttpScaledObject}

  datatype Config = Config(baseDomain: string, sidecarImage: string)

  /** The container that fetches the function's events, and where it fetches them. */
  datatype Sidecar = Sidecar(image: string, stream: string, consumer: string)

  /** The part of a spec that depends on the function. */
  datatype Content =
    | Pods(replicas: int, image: string, sidecar: Option<Sidecar>, selfManagedGpu: bool)
    | Port8080
    | CpuRange(min: int, max: int)
    | QueueScale(max: int, cooldown: int, stream: string, consumer: string)
    | RequestScale(host: string, path: string, max: int)
    | RouteToFunction(host: string, path: string)
    | RouteToInvoker(host: string, path: string)

  /** What the operator writes: labels made of project and function, and the spec. */
  datatype Managed = Managed(project: string, func: string, content: Content)

  /** `rest` is everything the operator leaves alone: identity, status, annotations. */
  datatype Object = Object(managed: Managed, rest: int)

  type Objects = map<ObjectKind, Object>

  // What a spec asks for

  function Host(cfg: Config, spec: Spec): string {
    spec.project + ".api." + cfg.baseDomain
  }

  function Path(key: Key): string {
    "/functions/" + key.name + "/invoke"
  }

  function Chosen(o: Option<int>, default: int): int {
    if o.Some? then o.value else default
  }

  function MinReplicas(spec: Spec): Option<int> {
    if spec.scaling.Some? then spec.scaling.value.minReplicas else None
  }

  function MaxReplicas(spec: Spec): int {
    if spec.scaling.Some? then Chosen(spec.scaling.value.maxReplicas, 10) else 10
  }

  function ResolveReplicas(spec: Spec): int {
    match spec.kind
    case LightDeployment => if Chosen(MinReplicas(spec), 1) < 1 then 1 else Chosen(MinReplicas(spec), 1)
    case HeavyDeployment => Chosen(MinReplicas(spec), 0)
    case HeavyJob => 0
  }

  predicate HasHttpTrigger(spec: Spec) {
    spec.kind.LightDeployment? || spec.kind.HeavyDeployment?
    || exists i :: 0 <= i < |spec.triggers| && spec.triggers[i].kind == "Http"
  }

  function DesiredDeployment(cfg: Config, key: Key, spec: Spec, image: string): Option<Managed> {
    if spec.kind.HeavyJob? then None
    else
      var selfManaged := spec.gpu.Some? && spec.gpu.value.required && spec.gpu.value.provider == "self-managed";
      var sidecar := if Triggers.HasEventTrigger(spec.triggers) && cfg.sidecarImage != ""
                     then Some(Sidecar(cfg.sidecarImage, "CDC-project-" + spec.project, "func-" + key.name)) else None;
      Some(Managed(spec.project, key.name, Pods(ResolveReplicas(spec), image, sidecar, selfManaged)))
  }

  function DesiredService(key: Key, spec: Spec): Option<Managed> {
    if spec.kind.HeavyJob? || !HasHttpTrigger(spec) then None
    else Some(Managed(spec.project, key.name, Port8080))
  }

  function DesiredHpa(key: Key, spec: Spec): Option<Managed> {
    if !spec.kind.LightDeployment? then None
    else
      var min := Chosen(MinReplicas(spec), 1);
      Some(Managed(spec.project, key.name, CpuRange(if min >= 1 then min else 1, MaxReplicas(spec))))
  }

  function DesiredScaledObject(key: Key, spec: Spec): Option<Managed> {
    if !spec.kind.HeavyDeployment? || !Triggers.HasEventTrigger(spec.triggers) then None
    else
      var cooldown := if spec.scaling.Some? then Chosen(spec.scaling.value.scaleDownDelay, 300) else 300;
      Some(Managed(spec.project, key.name,
                   QueueScale(MaxReplicas(spec), cooldown, "CDC-project-" + spec.project, "func-" + key.name)))
  }

  function DesiredHttpScaledObject(cfg: Config, key: Key, spec: Spec): Option<Managed> {
    if !spec.kind.HeavyDeployment? || Triggers.HasEventTrigger(spec.triggers) || !HasHttpTrigger(spec) then None
    else Some(Managed(spec.project, key.name, RequestScale(Host(cfg, spec), Path(key), MaxReplicas(spec))))
  }

  function DesiredRoute(cfg: Config, key: Key, spec: Spec): Option<Managed> {
    if spec.kind.HeavyJob? || !HasHttpTrigger(spec) then None
    else Some(Managed(spec.project, key.name, RouteToFunction(Host(cfg, spec), Path(key))))
  }

  function DesiredInvokerRoute(cfg: Config, key: Key, spec: Spec): Managed {
    Managed(spec.project, key.name, RouteToInvoker(Host(cfg, spec), Path(key)))
  }

  function Wanted(cfg: Config, key: Key, spec: Spec, image: string, k: ObjectKind): Option<Managed> {
    match k
    case Deployment => DesiredDeployment(cfg, key, spec, image)
    case Service => DesiredService(key, spec)
    case Hpa => DesiredHpa(key, spec)
    case ScaledObject => DesiredScaledObject(key, spec)
    case HttpScaledObject => DesiredHttpScaledObject(cfg, key, spec)
    case HttpRoute => DesiredRoute(cfg, key, spec)
  }

  // API calls of a pass and their answers

  datatype Stage = Workload | Invoker | Access | Autoscale | Routing

  datatype Call = Read(stage: Stage, kind: ObjectKind) | Write(stage: Stage, kind: ObjectKind)

  /** `Lost`: the call took effect but its caller saw an error. */
  datatype Answer = Done | Refused | Conflict | Lost

  /** Every call not listed is answered `Done`. `born` marks the objects this pass creates. */
  datatype Answers = Answers(calls: map<Call, Answer>, consumerOk: bool, grantsOk: bool, born: int)

  function Of(a: Answers, c: Call): Answer {
    if c in a.calls then a.calls[c] else Done
  }

  predicate Effective(x: Answer) {
    x.Done? || x.Lost?
  }

  predicate AllOk(a: Answers) {
    a.consumerOk && a.grantsOk && forall c :: c in a.calls ==> a.calls[c].Done?
  }

  /** CreateOrUpdate writes an existing object only when its content changes. */
  predicate SkipsEqual(k: ObjectKind) {
    k.ScaledObject? || k.HttpScaledObject? || k.HttpRoute?
  }

  function Upserted(o: Objects, k: ObjectKind, m: Managed, s: Stage, a: Answers): (Objects, Answer) {
    if !Of(a, Read(s, k)).Done? then (o, Of(a, Read(s, k)))
    else if k in o && o[k].managed == m && SkipsEqual(k) then (o, Done)
    else
      var x := Of(a, Write(s, k));
      (if Effective(x) then o[k := Object(m, if k in o then o[k].rest else a.born)] else o, x)
  }

  /** Removal of a stale object; its errors are ignored. */
  function Dropped(o: Objects, k: ObjectKind, s: Stage, a: Answers): Objects {
    if Of(a, Read(s, k)).Done? && k in o && Effective(Of(a, Write(s, k))) then o - {k} else o
  }

  datatype Outcome = Completed | FailedAt(stage: Stage) | Requeued(stage: Stage)

  function WorkloadPass(cfg: Config, o: Objects, key: Key, spec: Spec, image: string, a: Answers): (Objects, Answer) {
    var d := DesiredDeployment(cfg, key, spec, image);
    if IsExternalGpu(spec) || d.None? then
      (Dropped(Dropped(Dropped(o, Deployment, Workload, a), Service, Workload, a), HttpRoute, Workload, a), Done)
    else Upserted(o, Deployment, d.value, Workload, a)
  }

  function ServicePass(o: Objects, key: Key, spec: Spec, a: Answers): (Objects, Answer) {
    var d := DesiredService(key, spec);
    if d.None? then (Dropped(o, Service, Access, a), Done) else Upserted(o, Service, d.value, Access, a)
  }

  function ScalingPass(cfg: Config, o: Objects, key: Key, spec: Spec, a: Answers): (Objects, Answer) {
    var hpa, queue, http := DesiredHpa(key, spec), DesiredScaledObject(key, spec), DesiredHttpScaledObject(cfg, key, spec);
    if hpa.Some? then
      Upserted(Dropped(Dropped(o, ScaledObject, Autoscale, a), HttpScaledObject, Autoscale, a), Hpa, hpa.value, Autoscale, a)
    else if queue.Some? then
      Upserted(Dropped(Dropped(o, Hpa, Autoscale, a), HttpScaledObject, Autoscale, a), ScaledObject, queue.value, Autoscale, a)
    else if http.Some? then
      Upserted(Dropped(Dropped(o, Hpa, Autoscale, a), ScaledObject, Autoscale, a), HttpScaledObject, http.value, Autoscale, a)
    else
      (Dropped(Dropped(Dropped(o, Hpa, Autoscale, a), ScaledObject, Autoscale, a), HttpScaledObject, Autoscale, a), Done)
  }

  function RoutePass(cfg: Config, o: Objects, key: Key, spec: Spec, a: Answers): (Objects, Answer) {
    var d := DesiredRoute(cfg, key, spec);
    if d.None? then (Dropped(o, HttpRoute, Routing, a), Done) else Upserted(o, HttpRoute, d.value, Routing, a)
  }

  function OnError(s: Stage, x: Answer): Outcome {
    if x.Conflict? && (s.Autoscale? || s.Routing?) then Requeued(s) else FailedAt(s)
  }

  function Pass(cfg: Config, o: Objects, key: Key, spec: Spec, image: string, a: Answers): (Objects, Outcome) {
    var w := WorkloadPass(cfg, o, key, spec, image, a);
    if !w.1.Done? then (w.0, OnError(Workload, w.1))
    else if IsExternalGpu(spec) then
      var i := Upserted(w.0, HttpRoute, DesiredInvokerRoute(cfg, key, spec), Invoker, a);
      (i.0, if i.1.Done? && a.grantsOk then Completed else FailedAt(Invoker))
    else
      var v := ServicePass(w.0, key, spec, a);
      if !v.1.Done? || !a.consumerOk then (v.0, FailedAt(Access))
      else
        var g := ScalingPass(cfg, v.0, key, spec, a);
        if !g.1.Done? then (g.0, OnError(Autoscale, g.1))
        else
          var r := RoutePass(cfg, g.0, key, spec, a);
          (r.0, if r.1.Done? then Completed else OnError(Routing, r.1))
  }

  class FunctionCluster {
    var objects: map<ObjectKind, Object>

    constructor ()
      ensures objects == map[]
    {
      objects := map[];
    }

    method CreateOrUpdate(k: ObjectKind, m: Managed, s: Stage, a: Answers) returns (x: Answer)
      modifies this
      ensures (objects, x) == Upserted(old(objects), k, m, s, a)
    {
      x := Of(a, Read(s, k));
      if x.Done? {
        if k !in objects {
          x := Of(a, Write(s, k));
          if Effective(x) {
            objects := objects[k := Object(m, a.born)];
          }
        } else if objects[k].managed != m || !SkipsEqual(k) {
          x := Of(a, Write(s, k));
          if Effective(x) {
            objects := objects[k := objects[k].(managed := m)];
          }
        }
      }
    }

    method DeleteStale(k: ObjectKind, s: Stage, a: Answers)
      modifies this
      ensures objects == Dropped(old(objects), k, s, a)
    {
      if Of(a, Read(s, k)).Done? && k in objects {
        if Effective(Of(a, Write(s, k))) {
          objects := objects - {k};
        }
      }
    }

    method ReconcileWorkload(cfg: Config, key: Key, spec: Spec, image: string, a: Answers) returns (x: Answer)
      modifies this
      ensures (objects, x) == WorkloadPass(cfg, old(objects), key, spec, image, a)
    {
      x := Done;
      if IsExternalGpu(spec) {
        DeleteStale(Deployment, Workload, a);
        DeleteStale(Service, Workload, a);
        DeleteStale(HttpRoute, Workload, a);
        return;
      }
      var d := DesiredDeployment(cfg, key, spec, image);
      if d.None? {
        DeleteStale(Deployment, Workload, a);
        DeleteStale(Service, Workload, a);
        DeleteStale(HttpRoute, Workload, a);
        return;
      }
      x := CreateOrUpdate(Deployment, d.value, Workload, a);
    }

    method ReconcileFunctionService(key: Key, spec: Spec, a: Answers) returns (x: Answer)
      modifies this
      ensures (objects, x) == ServicePass(old(objects), key, spec, a)
    {
      var d := DesiredService(key, spec);
      if d.None? {
        DeleteStale(Service, Access, a);
        return Done;
      }
      x := CreateOrUpdate(Service, d.value, Access, a);
    }

    method ReconcileAutoscaling(cfg: Config, key: Key, spec: Spec, a: Answers) returns (x: Answer)
      modifies this
      ensures (objects, x) == ScalingPass(cfg, old(objects), key, spec, a)
    {
      hide Dropped, Upserted;
      var hpa := DesiredHpa(key, spec);
      if hpa.Some? {
        DeleteStale(ScaledObject, Autoscale, a);
        DeleteStale(HttpScaledObject, Autoscale, a);
        x := CreateOrUpdate(Hpa, hpa.value, Autoscale, a);
        return;
      }
      var queue := DesiredScaledObject(key, spec);
      if queue.Some? {
        DeleteStale(Hpa, Autoscale, a);
        DeleteStale(HttpScaledObject, Autoscale, a);
        x := CreateOrUpdate(ScaledObject, queue.value, Autoscale, a);
        return;
      }
      var http := DesiredHttpScaledObject(cfg, key, spec);
      if http.Some? {
        DeleteStale(Hpa, Autoscale, a);
        DeleteStale(ScaledObject, Autoscale, a);
        x := CreateOrUpdate(HttpScaledObject, http.value, Autoscale, a);
        return;
      }
      DeleteStale(Hpa, Autoscale, a);
      DeleteStale(ScaledObject, Autoscale, a);
      DeleteStale(HttpScaledObject, Autoscale, a);
      x := Done;
    }

    method ReconcileFunctionHttpRoute(cfg: Config, key: Key, spec: Spec, a: Answers) returns (x: Answer)
      modifies this
      ensures (objects, x) == RoutePass(cfg, old(objects), key, spec, a)
    {
      var d := DesiredRoute(cfg, key, spec);
      if d.None? {
        DeleteStale(HttpRoute, Routing, a);
        return Done;
      }
      x := CreateOrUpdate(HttpRoute, d.value, Routing, a);
    }

    method Reconcile(cfg: Config, key: Key, spec: Spec, image: string, a: Answers) returns (r: Outcome)
      modifies this
      ensures (objects, r) == Pass(cfg, old(objects), key, spec, image, a)
    {
      hide WorkloadPass, ServicePass, ScalingPass, RoutePass, Upserted, Dropped;
      var x := ReconcileWorkload(cfg, key, spec, image, a);
      if !x.Done? {
        return OnError(Workload, x);
      }
      if IsExternalGpu(spec) {
        x := CreateOrUpdate(HttpRoute, DesiredInvokerRoute(cfg, key, spec), Invoker, a);
        return if x.Done? && a.grantsOk then Completed else FailedAt(Invoker);
      }
      x := ReconcileFunctionService(key, spec, a);
      if !x.Done? || !a.consumerOk {
        return FailedAt(Access);
      }
      x := ReconcileAutoscaling(cfg, key, spec, a);
      if !x.Done? {
        return OnError(Autoscale, x);
      }
      x := ReconcileFunctionHttpRoute(cfg, key, spec, a);
      r := if x.Done? then Completed else OnError(Routing, x);
    }
  }

  // What a pass leaves

  /** A removal of `k` at stage `s` finds it and takes effect. */
  predicate RemovesAt(s: Stage, k: ObjectKind, a: Answers) {
    Of(a, Read(s, k)).Done? && Effective(Of(a, Write(s, k)))
  }

  /** Some removal of the unwanted kind `k` takes effect in a pass that runs to its end. */
  predicate Removed(k: ObjectKind, a: Answers) {
    match k
    case Deployment => RemovesAt(Workload, k, a)
    case Service => RemovesAt(Workload, k, a) || RemovesAt(Access, k, a)
    case HttpRoute => RemovesAt(Workload, k, a) || RemovesAt(Routing, k, a)
    case _ => RemovesAt(Autoscale, k, a)
  }

  /** The objects are exactly those the spec asks for, each with the content it asks for. */
  ghost predicate Matches(cfg: Config, o: Objects, key: Key, spec: Spec, image: string) {
    forall k: ObjectKind ::
      && (k in o <==> Wanted(cfg, key, spec, image, k).Some?)
      && (k in o ==> o[k].managed == Wanted(cfg, key, spec, image, k).value)
  }

  predicate SameAt(o: Objects, p: Objects, k: ObjectKind) {
    (k in o <==> k in p) && (k in o ==> o[k] == p[k])
  }

  lemma UpsertedAt(o: Objects, k: ObjectKind, m: Managed, s: Stage, a: Answers, j: ObjectKind)
    ensures var r := Upserted(o, k, m, s, a);
      && (j != k ==> SameAt(r.0, o, j))
      && (r.1.Done? ==> k in r.0 && r.0[k].managed == m && (k in o ==> r.0[k].rest == o[k].rest))
      && (AllOk(a) ==> r.1.Done?)
  {
  }

  lemma DroppedAt(o: Objects, k: ObjectKind, s: Stage, a: Answers, j: ObjectKind)
    ensures var r := Dropped(o, k, s, a);
      if j == k && RemovesAt(s, k, a) then j !in r else SameAt(r, o, j)
  {
  }

  lemma DropTwoAt(o: Objects, k: ObjectKind, l: ObjectKind, s: Stage, a: Answers, j: ObjectKind)
    ensures var r := Dropped(Dropped(o, k, s, a), l, s, a);
      if (j == k || j == l) && RemovesAt(s, j, a) then j !in r else SameAt(r, o, j)
  {
    hide Dropped, RemovesAt;
    DroppedAt(o, k, s, a, j);
    DroppedAt(Dropped(o, k, s, a), l, s, a, j);
  }

  lemma AllOkRemoves(s: Stage, k: ObjectKind, a: Answers)
    requires AllOk(a)
    ensures RemovesAt(s, k, a)
  {
  }

  /** What a stage did to kind `k`: brought it to the wanted content, or removed it if it could. */
  predicate Settled(before: Objects, after: Objects, k: ObjectKind, want: Option<Managed>, removed: bool) {
    if want.Some? then
      k in after && after[k].managed == want.value && (k in before ==> after[k].rest == before[k].rest)
    else if removed then k !in after
    else SameAt(after, before, k)
  }

  lemma WantedByKind(cfg: Config, key: Key, spec: Spec, image: string)
    ensures Wanted(cfg, key, spec, image, Deployment).None? <==> spec.kind.HeavyJob?
    ensures Wanted(cfg, key, spec, image, Service).None? <==> spec.kind.HeavyJob?
    ensures Wanted(cfg, key, spec, image, HttpRoute).None? <==> spec.kind.HeavyJob?
    ensures Wanted(cfg, key, spec, image, Hpa).Some? <==> spec.kind.LightDeployment?
    ensures Wanted(cfg, key, spec, image, ScaledObject).Some?
            <==> spec.kind.HeavyDeployment? && Triggers.HasEventTrigger(spec.triggers)
    ensures Wanted(cfg, key, spec, image, HttpScaledObject).Some?
            <==> spec.kind.HeavyDeployment? && !Triggers.HasEventTrigger(spec.triggers)
  {
  }

  lemma WorkloadAt(cfg: Config, o: Objects, key: Key, spec: Spec, image: string, a: Answers, k: ObjectKind)
    requires !IsExternalGpu(spec)
    ensures var r := WorkloadPass(cfg, o, key, spec, image, a);
      && (r.1.Done? ==>
            if k.Deployment? then Settled(o, r.0, k, Wanted(cfg, key, spec, image, k), RemovesAt(Workload, k, a))
            else if spec.kind.HeavyJob? && k !in AUTOSCALERS && RemovesAt(Workload, k, a) then k !in r.0
            else SameAt(r.0, o, k))
      && (AllOk(a) ==> r.1.Done?)
  {
    WantedByKind(cfg, key, spec, image);
    var d := DesiredDeployment(cfg, key, spec, image);
    assert d == Wanted(cfg, key, spec, image, Deployment);
    hide DesiredDeployment, Wanted, Upserted, Dropped, RemovesAt, AllOk;
    if d.Some? {
      UpsertedAt(o, Deployment, d.value, Workload, a, k);
    } else {
      DropTwoAt(o, Deployment, Service, Workload, a, k);
      DroppedAt(Dropped(Dropped(o, Deployment, Workload, a), Service, Workload, a), HttpRoute, Workload, a, k);
    }
  }

  lemma ServiceAt(cfg: Config, o: Objects, key: Key, spec: Spec, image: string, a: Answers, k: ObjectKind)
    ensures var r := ServicePass(o, key, spec, a);
      && (r.1.Done? ==>
            if k.Service? then Settled(o, r.0, k, Wanted(cfg, key, spec, image, k), RemovesAt(Access, k, a))
            else SameAt(r.0, o, k))
      && (AllOk(a) ==> r.1.Done?)
  {
    var d := DesiredService(key, spec);
    assert d == Wanted(cfg, key, spec, image, Service);
    hide DesiredService, Wanted, Upserted, Dropped, RemovesAt, AllOk;
    if d.Some? {
      UpsertedAt(o, Service, d.value, Access, a, k);
    } else {
      DroppedAt(o, Service, Access, a, k);
    }
  }

  lemma RouteAt(cfg: Config, o: Objects, key: Key, spec: Spec, image: string, a: Answers, k: ObjectKind)
    ensures var r := RoutePass(cfg, o, key, spec, a);
      && (r.1.Done? ==>
            if k.HttpRoute? then Settled(o, r.0, k, Wanted(cfg, key, spec, image, k), RemovesAt(Routing, k, a))
            else SameAt(r.0, o, k))
      && (AllOk(a) ==> r.1.Done?)
  {
    var d := DesiredRoute(cfg, key, spec);
    assert d == Wanted(cfg, key, spec, image, HttpRoute);
    hide DesiredRoute, Wanted, Upserted, Dropped, RemovesAt, AllOk;
    if d.Some? {
      UpsertedAt(o, HttpRoute, d.value, Routing, a, k);
    } else {
      DroppedAt(o, HttpRoute, Routing, a, k);
    }
  }

  lemma ScalingAt(cfg: Config, o: Objects, key: Key, spec: Spec, image: string, a: Answers, k: ObjectKind)
    ensures var r := ScalingPass(cfg, o, key, spec, a);
      && (r.1.Done? ==>
            if k in AUTOSCALERS then Settled(o, r.0, k, Wanted(cfg, key, spec, image, k), RemovesAt(Autoscale, k, a))
            else SameAt(r.0, o, k))
      && (AllOk(a) ==> r.1.Done?)
  {
    WantedByKind(cfg, key, spec, image);
    var hpa, queue, http := DesiredHpa(key, spec), DesiredScaledObject(key, spec), DesiredHttpScaledObject(cfg, key, spec);
    assert hpa == Wanted(cfg, key, spec, image, Hpa) && queue == Wanted(cfg, key, spec, image, ScaledObject);
    assert http == Wanted(cfg, key, spec, image, HttpScaledObject);
    hide DesiredHpa, DesiredScaledObject, DesiredHttpScaledObject, Wanted, Upserted, Dropped, RemovesAt, AllOk;
    if hpa.Some? {
      DropTwoAt(o, ScaledObject, HttpScaledObject, Autoscale, a, k);
      UpsertedAt(Dropped(Dropped(o, ScaledObject, Autoscale, a), HttpScaledObject, Autoscale, a),
                 Hpa, hpa.value, Autoscale, a, k);
    } else if queue.Some? {
      DropTwoAt(o, Hpa, HttpScaledObject, Autoscale, a, k);
      UpsertedAt(Dropped(Dropped(o, Hpa, Autoscale, a), HttpScaledObject, Autoscale, a),
                 ScaledObject, queue.value, Autoscale, a, k);
    } else if http.Some? {
      DropTwoAt(o, Hpa, ScaledObject, Autoscale, a, k);
      UpsertedAt(Dropped(Dropped(o, Hpa, Autoscale, a), ScaledObject, Autoscale, a),
                 HttpScaledObject, http.value, Autoscale, a, k);
    } else {
      DropTwoAt(o, Hpa, ScaledObject, Autoscale, a, k);
      DroppedAt(Dropped(Dropped(o, Hpa, Autoscale, a), ScaledObject, Autoscale, a), HttpScaledObject, Autoscale, a, k);
    }
  }

  /**
   A pass that completes brings every wanted kind to the wanted content, keeping the rest of the
   object, and removes an unwanted kind exactly if one of its removals took effect.
   */
  lemma CompletedPass(cfg: Config, o: Objects, key: Key, spec: Spec, image: string, a: Answers, k: ObjectKind)
    requires !IsExternalGpu(spec) && Pass(cfg, o, key, spec, image, a).1.Completed?
    ensures Settled(o, Pass(cfg, o, key, spec, image, a).0, k, Wanted(cfg, key, spec, image, k), Removed(k, a))
  {
    hide WorkloadPass, ServicePass, ScalingPass, RoutePass, RemovesAt, Wanted, IsExternalGpu;
    var w := WorkloadPass(cfg, o, key, spec, image, a);
    var v := ServicePass(w.0, key, spec, a);
    var g := ScalingPass(cfg, v.0, key, spec, a);
    var r := RoutePass(cfg, g.0, key, spec, a);
    assert r.0 == Pass(cfg, o, key, spec, image, a).0 && w.1.Done? && v.1.Done? && g.1.Done? && r.1.Done?;
    hide Pass;
    WantedByKind(cfg, key, spec, image);
    WorkloadAt(cfg, o, key, spec, image, a, k);
    ServiceAt(cfg, w.0, key, spec, image, a, k);
    ScalingAt(cfg, v.0, key, spec, image, a, k);
    RouteAt(cfg, g.0, key, spec, image, a, k);
  }

  lemma AllOkCompletes(cfg: Config, o: Objects, key: Key, spec: Spec, image: string, a: Answers)
    requires AllOk(a)
    ensures Pass(cfg, o, key, spec, image, a).1.Completed?
  {
    hide ScalingPass, ServicePass, RoutePass, WorkloadPass;
    var w := WorkloadPass(cfg, o, key, spec, image, a);
    if IsExternalGpu(spec) {
      ExternalWorkload(cfg, o, key, spec, image, a);
      UpsertedAt(w.0, HttpRoute, DesiredInvokerRoute(cfg, key, spec), Invoker, a, HttpRoute);
    } else {
      var v := ServicePass(w.0, key, spec, a);
      var g := ScalingPass(cfg, v.0, key, spec, a);
      WorkloadAt(cfg, o, key, spec, image, a, Deployment);
      ServiceAt(cfg, w.0, key, spec, image, a, Deployment);
      ScalingAt(cfg, v.0, key, spec, image, a, Deployment);
      RouteAt(cfg, g.0, key, spec, image, a, Deployment);
    }
  }

  lemma ExternalWorkload(cfg: Config, o: Objects, key: Key, spec: Spec, image: string, a: Answers)
    requires IsExternalGpu(spec)
    ensures WorkloadPass(cfg, o, key, spec, image, a).1.Done?
  {
  }

  // Convergence

  /**
   A completed pass leaves exactly what the spec asks for if and only if each object the spec no
   longer asks for met a removal that took effect; removals that fail go unnoticed.
   */
  lemma CompletedMatchesIff(cfg: Config, o: Objects, key: Key, spec: Spec, image: string, a: Answers)
    requires !IsExternalGpu(spec) && Pass(cfg, o, key, spec, image, a).1.Completed?
    ensures Matches(cfg, Pass(cfg, o, key, spec, image, a).0, key, spec, image)
            <==> forall k :: k in o && Wanted(cfg, key, spec, image, k).None? ==> Removed(k, a)
  {
    hide Pass, Wanted, Removed;
    forall k: ObjectKind
      ensures Settled(o, Pass(cfg, o, key, spec, image, a).0, k, Wanted(cfg, key, spec, image, k), Removed(k, a))
    {
      CompletedPass(cfg, o, key, spec, image, a, k);
    }
    assert forall k: ObjectKind ::
        Settled(o, Pass(cfg, o, key, spec, image, a).0, k, Wanted(cfg, key, spec, image, k), Removed(k, a));
  }

  /** With every call answered, what is left depends on the spec alone, not on what was there. */
  lemma Converges(cfg: Config, o: Objects, key: Key, spec: Spec, image: string, a: Answers)
    requires !IsExternalGpu(spec) && AllOk(a)
    ensures Pass(cfg, o, key, spec, image, a).1.Completed?
    ensures Matches(cfg, Pass(cfg, o, key, spec, image, a).0, key, spec, image)
  {
    AllOkCompletes(cfg, o, key, spec, image, a);
    forall k: ObjectKind
      ensures Removed(k, a)
    {
      AllOkRemoves(Workload, k, a);
      AllOkRemoves(Autoscale, k, a);
    }
    hide Pass, Wanted, Removed;
    CompletedMatchesIff(cfg, o, key, spec, image, a);
  }

  lemma HistoryIndependent(cfg: Config, o: Objects, p: Objects, key: Key, spec: Spec, image: string, a: Answers, b: Answers)
    requires !IsExternalGpu(spec) && AllOk(a) && AllOk(b)
    ensures var x, y := Pass(cfg, o, key, spec, image, a).0, Pass(cfg, p, key, spec, image, b).0;
      x.Keys == y.Keys && forall k :: k in x ==> x[k].managed == y[k].managed
  {
    Converges(cfg, o, key, spec, image, a);
    Converges(cfg, p, key, spec, image, b);
    hide Pass, Wanted;
  }

  /** A second pass changes nothing, not even the parts the operator leaves alone. */
  lemma SecondPassChangesNothing(cfg: Config, o: Objects, key: Key, spec: Spec, image: string, a: Answers, b: Answers)
    requires !IsExternalGpu(spec) && AllOk(a) && AllOk(b)
    ensures var x := Pass(cfg, o, key, spec, image, a).0;
      Pass(cfg, x, key, spec, image, b) == (x, Completed)
  {
    var x := Pass(cfg, o, key, spec, image, a).0;
    var y := Pass(cfg, x, key, spec, image, b).0;
    Converges(cfg, o, key, spec, image, a);
    Converges(cfg, x, key, spec, image, b);
    forall k: ObjectKind
      ensures SameAt(y, x, k)
    {
      CompletedPass(cfg, x, key, spec, image, b, k);
    }
    hide Pass, Wanted;
    assert forall k: ObjectKind :: SameAt(y, x, k);
    assert y == x by {
      assert forall k :: k in y ==> SameAt(y, x, k);
      assert forall k :: k in x ==> SameAt(y, x, k);
    }
  }

  /** Deployments get exactly one autoscaler, chosen by kind and triggers; jobs get none of the six. */
  lemma MatchedShape(cfg: Config, o: Objects, key: Key, spec: Spec, image: string)
    requires Matches(cfg, o, key, spec, image)
    ensures spec.kind.HeavyJob? ==> o == map[]
    ensures !spec.kind.HeavyJob? ==>
              o.Keys == {Deployment, Service, HttpRoute,
                         if spec.kind.LightDeployment? then Hpa
                         else if Triggers.HasEventTrigger(spec.triggers) then ScaledObject
                         else HttpScaledObject}
    ensures !spec.kind.HeavyJob? ==> |o.Keys * AUTOSCALERS| == 1
  {
    WantedByKind(cfg, key, spec, image);
    hide Wanted;
    var scaler := if spec.kind.LightDeployment? then Hpa
    else if Triggers.HasEventTrigger(spec.triggers) then ScaledObject
    else HttpScaledObject;
    forall k: ObjectKind
      ensures k in o <==> !spec.kind.HeavyJob? && k in {Deployment, Service, HttpRoute, scaler}
    {
      assert k in o <==> Wanted(cfg, key, spec, image, k).Some?;
      match k {
        case Deployment =>
        case Service =>
        case Hpa =>
        case ScaledObject =>
        case HttpScaledObject =>
        case HttpRoute =>
      }
    }
    if !spec.kind.HeavyJob? {
      assert o.Keys * AUTOSCALERS == {scaler};
    }
  }

  // What the objects say

  predicate NeedsProvider(spec: Spec) {
    spec.gpu.Some? && spec.gpu.value.required && spec.gpu.value.provider != "self-managed"
  }

  predicate ListensToEvents(spec: Spec) {
    exists i :: 0 <= i < |spec.triggers|
      && var t := spec.triggers[i];
         (t.kind == "DatabaseChange" && t.change.Some?) || (t.kind == "ObjectStorage" && t.storage.Some?)
  }

  /** The setting if it was given, else its default. */
  predicate IsSetting(value: int, given: Option<int>, default: int) {
    match given
    case Some(v) => value == v
    case None => value == default
  }

  function GivenMin(spec: Spec): Option<int> {
    match spec.scaling case Some(sc) => sc.minReplicas case None => None
  }

  function GivenMax(spec: Spec): Option<int> {
    match spec.scaling case Some(sc) => sc.maxReplicas case None => None
  }

  function GivenDelay(spec: Spec): Option<int> {
    match spec.scaling case Some(sc) => sc.scaleDownDelay case None => None
  }

  /** At least one, and the given number if that is at least one. */
  predicate AtLeastOne(value: int, given: Option<int>) {
    value >= 1 && match given case Some(v) => value == v || (v < 1 && value == 1) case None => value == 1
  }

  /**
   The pods run the given image; a sidecar goes with them exactly if there are events to listen to and
   an image for it, and it fetches from the consumer the operator keeps for this function.
   */
  ghost predicate RunsFunction(cfg: Config, m: Managed, key: Key, spec: Spec, image: string) {
    && m.project == spec.project && m.func == key.name && m.content.Pods? && m.content.image == image
    && (if spec.kind.LightDeployment? then AtLeastOne(m.content.replicas, GivenMin(spec))
        else IsSetting(m.content.replicas, GivenMin(spec), 0))
    && (m.content.selfManagedGpu <==> spec.gpu.Some? && spec.gpu.value.required && spec.gpu.value.provider == "self-managed")
    && (m.content.sidecar.Some? <==> ListensToEvents(spec) && cfg.sidecarImage != "")
    && (m.content.sidecar.Some? ==>
          && m.content.sidecar.value.image == cfg.sidecarImage
          && Consumers.Place(m.content.sidecar.value.stream, m.content.sidecar.value.consumer)
             == Consumers.PlaceOf(spec.project, key.name))
  }

  /** Scaling by the backlog of the very consumer the operator keeps for this function. */
  predicate ScalesByQueue(m: Managed, key: Key, spec: Spec) {
    && m.project == spec.project && m.func == key.name && m.content.QueueScale?
    && Consumers.Place(m.content.stream, m.content.consumer) == Consumers.PlaceOf(spec.project, key.name)
    && IsSetting(m.content.max, GivenMax(spec), 10) && IsSetting(m.content.cooldown, GivenDelay(spec), 300)
  }

  predicate ScalesByCpu(m: Managed, key: Key, spec: Spec) {
    && m.project == spec.project && m.func == key.name && m.content.CpuRange?
    && AtLeastOne(m.content.min, GivenMin(spec)) && IsSetting(m.content.max, GivenMax(spec), 10)
  }

  predicate ScalesByRequests(cfg: Config, m: Managed, key: Key, spec: Spec) {
    && m.project == spec.project && m.func == key.name && m.content.RequestScale?
    && m.content.host == spec.project + ".api." + cfg.baseDomain
    && m.content.path == "/functions/" + key.name + "/invoke"
    && IsSetting(m.content.max, GivenMax(spec), 10)
  }

  predicate RoutesTo(cfg: Config, m: Managed, key: Key, spec: Spec) {
    && m.project == spec.project && m.func == key.name
    && (NeedsProvider(spec) ==>
          m.content == RouteToInvoker(spec.project + ".api." + cfg.baseDomain, "/functions/" + key.name + "/invoke"))
    && (!NeedsProvider(spec) ==>
          m.content == RouteToFunction(spec.project + ".api." + cfg.baseDomain, "/functions/" + key.name + "/invoke"))
  }

  /** What the objects of a deployment are after a pass, whatever was there before. */
  ghost predicate SaysWhatIsAsked(cfg: Config, o: Objects, key: Key, spec: Spec, image: string) {
    && Deployment in o && RunsFunction(cfg, o[Deployment].managed, key, spec, image)
    && Service in o && o[Service].managed == Managed(spec.project, key.name, Port8080)
    && HttpRoute in o && RoutesTo(cfg, o[HttpRoute].managed, key, spec)
    && (spec.kind.LightDeployment? ==> Hpa in o && ScalesByCpu(o[Hpa].managed, key, spec))
    && (spec.kind.HeavyDeployment? && ListensToEvents(spec) ==>
          ScaledObject in o && ScalesByQueue(o[ScaledObject].managed, key, spec))
    && (spec.kind.HeavyDeployment? && !ListensToEvents(spec) ==>
          HttpScaledObject in o && ScalesByRequests(cfg, o[HttpScaledObject].managed, key, spec))
  }

  lemma EventsHeard(spec: Spec)
    ensures ListensToEvents(spec) <==> Triggers.HasEventTrigger(spec.triggers)
  {
    var ts := spec.triggers;
    forall i | 0 <= i < |ts|
      ensures Triggers.IsChange(ts[i]) || Triggers.IsStorage(ts[i])
              <==> (ts[i].kind == "DatabaseChange" && ts[i].change.Some?) || (ts[i].kind == "ObjectStorage" && ts[i].storage.Some?)
    {
    }
  }

  lemma WorkloadWanted(cfg: Config, key: Key, spec: Spec, image: string)
    requires !NeedsProvider(spec) && !spec.kind.HeavyJob?
    ensures var d := Wanted(cfg, key, spec, image, Deployment); d.Some? && RunsFunction(cfg, d.value, key, spec, image)
  {
    EventsHeard(spec);
    hide ListensToEvents, Triggers.HasEventTrigger;
  }

  lemma AccessWanted(cfg: Config, key: Key, spec: Spec, image: string)
    requires !NeedsProvider(spec) && !spec.kind.HeavyJob?
    ensures Wanted(cfg, key, spec, image, Service) == Some(Managed(spec.project, key.name, Port8080))
    ensures var d := Wanted(cfg, key, spec, image, HttpRoute); d.Some? && RoutesTo(cfg, d.value, key, spec)
  {
  }

  lemma ScalerWanted(cfg: Config, key: Key, spec: Spec, image: string)
    requires !spec.kind.HeavyJob?
    ensures spec.kind.LightDeployment? ==>
              var d := Wanted(cfg, key, spec, image, Hpa); d.Some? && ScalesByCpu(d.value, key, spec)
    ensures spec.kind.HeavyDeployment? && ListensToEvents(spec) ==>
              var d := Wanted(cfg, key, spec, image, ScaledObject); d.Some? && ScalesByQueue(d.value, key, spec)
    ensures spec.kind.HeavyDeployment? && !ListensToEvents(spec) ==>
              var d := Wanted(cfg, key, spec, image, HttpScaledObject); d.Some? && ScalesByRequests(cfg, d.value, key, spec)
  {
    EventsHeard(spec);
    hide ListensToEvents, Triggers.HasEventTrigger;
  }

  /**
   A completed pass of a deployment leaves objects that say what the function's spec asks for, down to
   every setting, name and default, from any cluster state and under any answers.
   */
  lemma CompletedSays(cfg: Config, o: Objects, key: Key, spec: Spec, image: string, a: Answers)
    requires !NeedsProvider(spec) && !spec.kind.HeavyJob? && Pass(cfg, o, key, spec, image, a).1.Completed?
    ensures SaysWhatIsAsked(cfg, Pass(cfg, o, key, spec, image, a).0, key, spec, image)
  {
    assert !IsExternalGpu(spec);
    hide Pass, Wanted, Removed, RunsFunction, RoutesTo, ScalesByCpu, ScalesByQueue, ScalesByRequests, ListensToEvents;
    forall k: ObjectKind
      ensures Settled(o, Pass(cfg, o, key, spec, image, a).0, k, Wanted(cfg, key, spec, image, k), Removed(k, a))
    {
      CompletedPass(cfg, o, key, spec, image, a, k);
    }
    WorkloadWanted(cfg, key, spec, image);
    AccessWanted(cfg, key, spec, image);
    ScalerWanted(cfg, key, spec, image);
    assert forall k: ObjectKind ::
        Settled(o, Pass(cfg, o, key, spec, image, a).0, k, Wanted(cfg, key, spec, image, k), Removed(k, a));
  }

  /** A completed pass of a function on a provider's GPU leaves the route to its invoker. */
  lemma CompletedRoutes(cfg: Config, o: Objects, key: Key, spec: Spec, image: string, a: Answers)
    requires NeedsProvider(spec) && Pass(cfg, o, key, spec, image, a).1.Completed?
    ensures var r := Pass(cfg, o, key, spec, image, a).0;
      HttpRoute in r && RoutesTo(cfg, r[HttpRoute].managed, key, spec)
  {
    hide WorkloadPass, Upserted;
    var w := WorkloadPass(cfg, o, key, spec, image, a);
    UpsertedAt(w.0, HttpRoute, DesiredInvokerRoute(cfg, key, spec), Invoker, a, HttpRoute);
  }

  predicate Troubled(a: Answers, s: Stage, x: Answer) {
    exists c :: c in a.calls && c.stage == s && a.calls[c] == x
  }

  lemma UpsertTrouble(o: Objects, k: ObjectKind, m: Managed, s: Stage, a: Answers)
    ensures var x := Upserted(o, k, m, s, a).1; !x.Done? ==> Troubled(a, s, x)
  {
  }

  /**
   A pass that does not complete says at which stage and why: it is tried again soon exactly for a write
   conflict over autoscalers or route, and counts as failed for anything else.
   */
  lemma WhyIncomplete(cfg: Config, o: Objects, key: Key, spec: Spec, image: string, a: Answers)
    ensures match Pass(cfg, o, key, spec, image, a).1
      case Completed => NeedsProvider(spec) ==> a.grantsOk
      case Requeued(s) => (s == Autoscale || s == Routing) && Troubled(a, s, Conflict)
      case FailedAt(s) =>
        || (s == Access && !a.consumerOk) || (s == Invoker && !a.grantsOk)
        || Troubled(a, s, Refused) || Troubled(a, s, Lost)
        || (s != Autoscale && s != Routing && Troubled(a, s, Conflict))
  {
    StageTrouble(cfg, o, key, spec, image, a);
    var w := WorkloadPass(cfg, o, key, spec, image, a);
    UpsertTrouble(w.0, HttpRoute, DesiredInvokerRoute(cfg, key, spec), Invoker, a);
    StageTrouble(cfg, w.0, key, spec, image, a);
    var v := ServicePass(w.0, key, spec, a);
    StageTrouble(cfg, v.0, key, spec, image, a);
    StageTrouble(cfg, ScalingPass(cfg, v.0, key, spec, a).0, key, spec, image, a);
    hide WorkloadPass, ServicePass, ScalingPass, RoutePass, Upserted, Troubled;
  }

  lemma StageTrouble(cfg: Config, o: Objects, key: Key, spec: Spec, image: string, a: Answers)
    ensures var x := WorkloadPass(cfg, o, key, spec, image, a).1; !x.Done? ==> Troubled(a, Workload, x)
    ensures var x := ServicePass(o, key, spec, a).1; !x.Done? ==> Troubled(a, Access, x)
    ensures var x := ScalingPass(cfg, o, key, spec, a).1; !x.Done? ==> Troubled(a, Autoscale, x)
    ensures var x := RoutePass(cfg, o, key, spec, a).1; !x.Done? ==> Troubled(a, Routing, x)
  {
    forall p: Objects, k: ObjectKind, m: Managed, s: Stage
      ensures var x := Upserted(p, k, m, s, a).1; !x.Done? ==> Troubled(a, s, x)
    {
      UpsertTrouble(p, k, m, s, a);
    }
    hide Upserted, Dropped, Troubled;
    hide DesiredDeployment, DesiredService, DesiredHpa, DesiredScaledObject, DesiredHttpScaledObject, DesiredRoute;
  }

  /** The objects agree with each other: start size and floor of a light deployment, route and scaler address. */
  lemma WantedAgree(cfg: Config, key: Key, spec: Spec, image: string)
    ensures spec.kind.LightDeployment? ==>
              DesiredDeployment(cfg, key, spec, image).value.content.replicas == DesiredHpa(key, spec).value.content.min >= 1
    ensures DesiredHttpScaledObject(cfg, key, spec).Some? ==>
              var s, r := DesiredHttpScaledObject(cfg, key, spec).value.content, DesiredRoute(cfg, key, spec).value.content;
              s.host == r.host && s.path == r.path
  {
  }

  // External GPU

  /** Such a pass never looks at the autoscalers: whatever was there stays, whatever is answered. */
  lemma ExternalLeavesAutoscalers(cfg: Config, o: Objects, key: Key, spec: Spec, image: string, a: Answers, k: ObjectKind)
    requires IsExternalGpu(spec) && k in AUTOSCALERS
    ensures SameAt(Pass(cfg, o, key, spec, image, a).0, o, k)
  {
    hide Upserted, Dropped, RemovesAt;
    var o2 := Dropped(Dropped(o, Deployment, Workload, a), Service, Workload, a);
    DropTwoAt(o, Deployment, Service, Workload, a, k);
    DroppedAt(o2, HttpRoute, Workload, a, k);
    UpsertedAt(Dropped(o2, HttpRoute, Workload, a), HttpRoute, DesiredInvokerRoute(cfg, key, spec), Invoker, a, k);
  }

  /**
   So it leaves the invoker route alone behind if and only if no autoscaler was there; and it
   deletes and recreates that route every time.
   */
  lemma ExternalPass(cfg: Config, o: Objects, key: Key, spec: Spec, image: string, a: Answers)
    requires IsExternalGpu(spec) && AllOk(a)
    ensures var r := Pass(cfg, o, key, spec, image, a);
      && r.1.Completed?
      && HttpRoute in r.0 && r.0[HttpRoute] == Object(DesiredInvokerRoute(cfg, key, spec), a.born)
      && r.0.Keys == {HttpRoute} + o.Keys * AUTOSCALERS
      && (r.0.Keys == {HttpRoute} <==> o.Keys !! AUTOSCALERS)
  {
    var r := Pass(cfg, o, key, spec, image, a);
    AllOkCompletes(cfg, o, key, spec, image, a);
    var o2 := Dropped(Dropped(o, Deployment, Workload, a), Service, Workload, a);
    var o3 := Dropped(o2, HttpRoute, Workload, a);
    forall k: ObjectKind
      ensures k in o3 <==> k in o && k in AUTOSCALERS
    {
      AllOkRemoves(Workload, k, a);
      DropTwoAt(o, Deployment, Service, Workload, a, k);
      DroppedAt(o2, HttpRoute, Workload, a, k);
    }
    assert r.0 == o3[HttpRoute := Object(DesiredInvokerRoute(cfg, key, spec), a.born)];
    assert r.0.Keys == {HttpRoute} + o.Keys * AUTOSCALERS;
    RouteAlone(o.Keys, r.0.Keys);
  }

  lemma RouteAlone(before: set<ObjectKind>, after: set<ObjectKind>)
    requires after == {HttpRoute} + before * AUTOSCALERS
    ensures after == {HttpRoute} <==> before !! AUTOSCALERS
  {
    if !(before !! AUTOSCALERS) {
      var k :| k in before && k in AUTOSCALERS;
      assert k in after && k != HttpRoute;
    } else {
      assert before * AUTOSCALERS == {};
    }
  }
}
