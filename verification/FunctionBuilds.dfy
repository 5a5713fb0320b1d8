/**
 Builds and deployments of functions: operator passes cut at every API call, interleaved with each
 other, with spec edits, with other writers of the same resource and with jobs that end.
 */
module FunctionBuilds {
  import opened Wrappers
  import opened Text
  import opened FunctionResource
  import opened Sets

  /** `hash` is the short SHA of job names and image tags; the predicates are spec validation. */
  datatype Config = Config(
    registry: string,
    maxConcurrentBuilds: int,
    hash: string -> string,
    dockerfileOk: string -> bool,
    sourceOk: string -> bool,
    gpuOk: Spec -> bool)

  /** The labels of a build job, and how it ended if it did. */
  datatype Job = Job(project: string, func: string, generation: int, succeeded: bool, failed: bool)

  datatype Deployment = Deployment(image: string, generation: int)

  function Decimal(n: int): string {
    if n < 0 then "-" + Numeral(-n, Radix.Decimal) else Numeral(n, Radix.Decimal)
  }

  function ShortHash(cfg: Config, project: string, func: string, generation: int): string {
    cfg.hash(project + "-" + func + "-" + Decimal(generation))
  }

  function JobName(cfg: Config, project: string, func: string, generation: int): string {
    "build-" + project + "-" + func + "-" + ShortHash(cfg, project, func, generation)
  }

  function ImageDestination(cfg: Config, project: string, func: string, generation: int): (r: string)
    ensures r != ""
  {
    cfg.registry + "/project-" + project + "/" + func + ":"
    + Decimal(generation) + "-" + ShortHash(cfg, project, func, generation)
  }

  // Reading the job list

  datatype Verdict = NoJob | JobRunning | JobSucceeded | JobFailed

  function Scan(jobs: seq<Job>): Verdict
    decreases |jobs|
  {
    if jobs == [] then NoJob
    else if jobs[0].succeeded then JobSucceeded
    else if jobs[0].failed then JobFailed
    else if Scan(jobs[1..]).NoJob? then JobRunning else Scan(jobs[1..])
  }

  predicate Unfinished(j: Job) {
    !j.succeeded && !j.failed
  }

  function RunningIn(jobs: seq<Job>): nat
    decreases |jobs|
  {
    if jobs == [] then 0
    else RunningIn(jobs[..|jobs| - 1]) + if Unfinished(jobs[|jobs| - 1]) then 1 else 0
  }

  method FindBuildJob(jobs: seq<Job>) returns (v: Verdict)
    ensures v == Scan(jobs)
  {
    v := NoJob;
    for i := 0 to |jobs|
      invariant v == if i == 0 then NoJob else JobRunning
      invariant Scan(jobs) == if Scan(jobs[i..]).NoJob? && i > 0 then JobRunning else Scan(jobs[i..])
    {
      assert jobs[i..][1..] == jobs[i + 1..];
      if jobs[i].succeeded {
        return JobSucceeded;
      }
      if jobs[i].failed {
        return JobFailed;
      }
      v := JobRunning;
    }
  }

  method CountRunning(jobs: seq<Job>) returns (n: nat)
    ensures n == RunningIn(jobs)
  {
    n := 0;
    for i := 0 to |jobs|
      invariant n == RunningIn(jobs[..i])
    {
      assert jobs[..i + 1][..i] == jobs[..i];
      if Unfinished(jobs[i]) {
        n := n + 1;
      }
    }
    assert jobs[..|jobs|] == jobs;
  }

  // One pass of the reconciler, cut where it calls the API

  datatype Point = Fetched | Preparing | Listing | Counting | Admitted | Deploying | Settling | Writing

  /** `fn` is the reconciler's own copy; at `Writing` it carries the status about to be written. */
  datatype Pass = Off | Pass(key: Key, fn: Function, at: Point)

  datatype System = System(
    functions: map<Key, Function>,
    jobs: map<string, Job>,
    deployments: map<Key, Deployment>,
    workers: map<nat, Pass>)

  const START: System := System(map[], map[], map[], map[])

  datatype Project = Found | Missing

  /**
   What a running pass does next, with what the API answers. Lists come from a cache, which may show
   the jobs as they were some time ago.
   */
  datatype Step =
    | AddFinalizer
    | Gate(project: Project)
    | Prepare
    | List(names: seq<string>, seen: map<string, Job>)
    | Count(names: seq<string>, seen: map<string, Job>)
    | CreateJob
    | Deploy(ok: bool)
    | Others(ok: bool)
    | Settle(ready: bool)
    | Write

  datatype Action =
    | Created(key: Key, spec: Spec)
    | Edited(key: Key, spec: Spec)
    | Touched(key: Key)
    | JobEnds(name: string, ok: bool)
    | Fetch(w: nat, key: Key)
    | Work(w: nat, step: Step)
    | Abandon(w: nat)          // a crash, an API error or a conflict that ends the pass

  datatype Effect =
    | Nothing
    | PutJob(name: string, job: Job)
    | PutFunction(key: Key, fn: Function)
    | PutDeployment(key: Key, d: Deployment)
    | DropDeployment(key: Key)

  predicate Labelled(j: Job, fn: Function, key: Key) {
    j.project == fn.spec.project && j.func == key.name && j.generation == fn.generation
  }

  /** Jobs are only added, keep their labels, and once ended stay as they ended. */
  ghost predicate JobsGrow(before: map<string, Job>, after: map<string, Job>) {
    forall n :: n in before ==>
      && n in after
      && after[n].project == before[n].project && after[n].func == before[n].func
      && after[n].generation == before[n].generation
      && (!Unfinished(before[n]) ==> after[n] == before[n])
  }

  /** `names` lists, in some order and once each, the jobs `want` selects. */
  ghost predicate Lists(jobs: map<string, Job>, want: Job -> bool, names: seq<string>) {
    && (forall i :: 0 <= i < |names| ==> names[i] in jobs && want(jobs[names[i]]))
    && (forall i, j :: 0 <= i < j < |names| ==> names[i] != names[j])
    && (forall n :: n in jobs && want(jobs[n]) ==> n in names)
  }

  function Items(jobs: map<string, Job>, names: seq<string>): (r: seq<Job>)
    requires forall i :: 0 <= i < |names| ==> names[i] in jobs
    ensures |r| == |names|
  {
    seq(|names|, i requires 0 <= i < |names| => jobs[names[i]])
  }

  function Failing(p: Pass): Pass
    requires p.Pass?
  {
    p.(fn := p.fn.(status := p.fn.status.(phase := Failed)), at := Writing)
  }

  function Reporting(p: Pass, st: Status): Pass
    requires p.Pass?
  {
    p.(fn := p.fn.(status := st), at := Writing)
  }

  predicate NeedsBuild(f: Function) {
    f.status.observed < f.generation || (f.status.phase.Building? && !BuildDone(f.status))
  }

  function Gated(cfg: Config, p: Pass, project: Project): Pass
    requires p.Pass?
  {
    if p.key.namespace != "project-" + p.fn.spec.project then Failing(p)
    else if project.Missing? then Off
    else if !cfg.gpuOk(p.fn.spec) then Failing(p)
    else if NeedsBuild(p.fn) then p.(at := Preparing)
    else if Image(p.fn) == "" then Off
    else p.(at := Deploying)
  }

  function Listed(cfg: Config, p: Pass, v: Verdict): Pass
    requires p.Pass?
  {
    var st := p.fn.status;
    match v
    case JobSucceeded =>
      Reporting(p, st.(build := Some(Build(BuildSucceeded,
                                           ImageDestination(cfg, p.fn.spec.project, p.key.name, p.fn.generation))),
                       observed := p.fn.generation))
    case JobFailed =>
      Reporting(p, Status(Failed, Some(Build(BuildFailed, "")), p.fn.generation))
    case JobRunning =>
      if st.phase.Building? then Off
      else Reporting(p, st.(phase := Building, build := Some(Build(BuildRunning, ""))))
    case NoJob =>
      p.(at := if cfg.maxConcurrentBuilds > 0 then Counting else Admitted)
  }

  /** A worker's step: where its pass goes and what it does to the cluster. */
  ghost function Advance(cfg: Config, s: System, p: Pass, step: Step): Option<(Pass, Effect)>
    requires p.Pass? && p.key in s.functions
  {
    var fn := p.fn;
    var cur := s.functions[p.key];
    match step
    case AddFinalizer =>
      if !p.at.Fetched? || fn.finalizer then None
      else if fn.version != cur.version then Some((Off, Nothing))
      else
        var f := cur.(finalizer := true, version := cur.version + 1);
        Some((p.(fn := f), PutFunction(p.key, f)))
    case Gate(project) =>
      if !p.at.Fetched? || !fn.finalizer then None else Some((Gated(cfg, p, project), Nothing))
    case Prepare =>
      if !p.at.Preparing? then None
      else Some((if cfg.dockerfileOk(fn.spec.runtime) then p.(at := Listing) else Failing(p), Nothing))
    case List(names, seen) =>
      if p.at.Listing? && JobsGrow(seen, s.jobs) && Lists(seen, (j: Job) => Labelled(j, fn, p.key), names)
      then Some((Listed(cfg, p, Scan(Items(seen, names))), Nothing))
      else None
    case Count(names, seen) =>
      if p.at.Counting? && JobsGrow(seen, s.jobs) && Lists(seen, (j: Job) => j.project == fn.spec.project, names)
      then Some((if RunningIn(Items(seen, names)) >= cfg.maxConcurrentBuilds then Off else p.(at := Admitted), Nothing))
      else None
    case CreateJob =>
      var name := JobName(cfg, fn.spec.project, p.key.name, fn.generation);
      if !p.at.Admitted? then None
      else if !cfg.sourceOk(fn.spec.source) || name in s.jobs then Some((Off, Nothing))
      else Some((Reporting(p, fn.status.(phase := Building, build := Some(Build(BuildRunning, "")))),
                 PutJob(name, Job(fn.spec.project, p.key.name, fn.generation, false, false))))
    case Deploy(ok) =>
      if !p.at.Deploying? then None
      else if !Deploys(fn.spec) then Some((p.(at := Settling), if ok then DropDeployment(p.key) else Nothing))
      else if ok then Some((p.(at := Settling), PutDeployment(p.key, Deployment(Image(fn), fn.generation))))
      else Some((Failing(p), Nothing))
    case Others(ok) =>
      if !p.at.Settling? || ok then None else Some((Failing(p), Nothing))
    case Settle(ready) =>
      if !p.at.Settling? then None
      else if Deploys(fn.spec) && (p.key !in s.deployments || (fn.spec.kind.LightDeployment? && !ready))
      then Some((Off, Nothing))
      else Some((Reporting(p, fn.status.(phase := Ready, observed := fn.generation)), Nothing))
    case Write =>
      if !p.at.Writing? then None
      else if fn.version != cur.version then Some((Off, Nothing))
      else Some((Off, PutFunction(p.key, cur.(status := fn.status, version := cur.version + 1))))
  }

  function Apply(s: System, e: Effect): System {
    match e
    case Nothing => s
    case PutJob(n, j) => s.(jobs := s.jobs[n := j])
    case PutFunction(k, f) => s.(functions := s.functions[k := f])
    case PutDeployment(k, d) => s.(deployments := s.deployments[k := d])
    case DropDeployment(k) => s.(deployments := s.deployments - {k})
  }

  function WorkerPass(s: System, w: nat): Pass {
    if w in s.workers then s.workers[w] else Off
  }

  ghost function Next(cfg: Config, s: System, a: Action): Option<System> {
    match a
    case Created(key, spec) =>
      if key in s.functions then None
      else Some(Apply(s, PutFunction(key, Function(spec, false, 1, 0, Status(Unset, None, 0)))))
    case Edited(key, spec) =>
      if key !in s.functions || s.functions[key].spec == spec then None
      else
        var f := s.functions[key];
        Some(Apply(s, PutFunction(key, f.(spec := spec, generation := f.generation + 1, version := f.version + 1))))
    case Touched(key) =>
      if key !in s.functions then None
      else Some(Apply(s, PutFunction(key, s.functions[key].(version := s.functions[key].version + 1))))
    case JobEnds(name, ok) =>
      if name !in s.jobs || !Unfinished(s.jobs[name]) then None
      else Some(Apply(s, PutJob(name, s.jobs[name].(succeeded := ok, failed := !ok))))
    case Fetch(w, key) =>
      if !WorkerPass(s, w).Off? || key !in s.functions then None
      else Some(s.(workers := s.workers[w := Pass(key, s.functions[key], Fetched)]))
    case Abandon(w) =>
      Some(s.(workers := s.workers[w := Off]))
    case Work(w, step) =>
      var p := WorkerPass(s, w);
      if p.Off? || p.key !in s.functions then None
      else
        var r := Advance(cfg, s, p, step);
        if r.None? then None
        else Some(Apply(s, r.value.1).(workers := s.workers[w := r.value.0]))
  }

  ghost function Exec(cfg: Config, s: System, actions: seq<Action>): Option<System>
    decreases |actions|
  {
    if actions == [] then Some(s)
    else
      var n := Next(cfg, s, actions[0]);
      if n.None? then None else Exec(cfg, n.value, actions[1..])
  }

  // What every run keeps

  /** The project whose namespace this is. */
  function ProjectOf(key: Key): string {
    if |key.namespace| >= 8 then key.namespace[8..] else ""
  }

  /** A job labelled for this function and generation succeeded. */
  predicate Built(cfg: Config, jobs: map<string, Job>, key: Key, generation: int) {
    var n := JobName(cfg, ProjectOf(key), key.name, generation);
    n in jobs && jobs[n].succeeded && jobs[n].project == ProjectOf(key)
    && jobs[n].func == key.name && jobs[n].generation == generation
  }

  /** A job labelled for this function and generation failed. */
  predicate GaveUp(cfg: Config, jobs: map<string, Job>, key: Key, generation: int) {
    var n := JobName(cfg, ProjectOf(key), key.name, generation);
    n in jobs && jobs[n].failed && jobs[n].project == ProjectOf(key)
    && jobs[n].func == key.name && jobs[n].generation == generation
  }

  /** Ready follows a successful build; a failed build is reported as a failure, and truly failed. */
  predicate PhaseOk(cfg: Config, jobs: map<string, Job>, key: Key, st: Status) {
    && (st.phase.Ready? ==> BuildDone(st))
    && (st.build.Some? && st.build.value.state.BuildFailed? ==> st.phase.Failed? && GaveUp(cfg, jobs, key, st.observed))
    && (st.build.Some? && st.build.value.state.BuildRunning? ==> st.phase.Building? || st.phase.Failed?)
  }

  predicate StatusOk(cfg: Config, jobs: map<string, Job>, key: Key, st: Status, generation: int) {
    && st.observed <= generation
    && (st.build.Some? ==> (st.build.value.imageRef != "" <==> BuildDone(st)))
    && (st.build.Some? && st.build.value.imageRef != "" ==>
          && st.build.value.imageRef == ImageDestination(cfg, ProjectOf(key), key.name, st.observed)
          && Built(cfg, jobs, key, st.observed))
    && (st.phase.Building? && st.observed == generation ==> BuildDone(st))
    && PhaseOk(cfg, jobs, key, st)
  }

  predicate PassOk(cfg: Config, s: System, p: Pass) {
    p.Pass? ==>
      && p.key in s.functions
      && StatusOk(cfg, s.jobs, p.key, p.fn.status, p.fn.generation)
      && (var cur := s.functions[p.key];
          && p.fn.generation <= cur.generation && p.fn.version <= cur.version
          && (p.fn.version == cur.version ==>
                && p.fn.generation == cur.generation && p.fn.spec == cur.spec
                && cur.status.observed <= p.fn.status.observed
                && (p.at.Writing? || p.fn == cur)))
      && (p.at.Fetched? || p.at.Writing? || p.key.namespace == "project-" + p.fn.spec.project)
      && (p.at.Preparing? || p.at.Listing? || p.at.Counting? || p.at.Admitted? ==> p.fn.status.observed < p.fn.generation)
      && (p.at.Fetched? || p.at.Writing? || cfg.gpuOk(p.fn.spec))
      && (p.at.Listing? || p.at.Counting? || p.at.Admitted? ==> cfg.dockerfileOk(p.fn.spec.runtime))
      && (p.at.Deploying? || p.at.Settling? ==> Image(p.fn) != "" && p.fn.status.observed == p.fn.generation)
  }

  predicate DeploymentOk(cfg: Config, s: System, key: Key, d: Deployment) {
    && key in s.functions && d.generation <= s.functions[key].generation
    && d.image == ImageDestination(cfg, ProjectOf(key), key.name, d.generation)
    && Built(cfg, s.jobs, key, d.generation)
  }

  predicate JobOk(cfg: Config, name: string, j: Job) {
    && name == JobName(cfg, j.project, j.func, j.generation)
    && !(j.succeeded && j.failed)
  }

  ghost predicate Invariant(cfg: Config, s: System) {
    && (forall n :: n in s.jobs ==> JobOk(cfg, n, s.jobs[n]))
    && (forall k :: k in s.functions ==> StatusOk(cfg, s.jobs, k, s.functions[k].status, s.functions[k].generation))
    && (forall k :: k in s.deployments ==> DeploymentOk(cfg, s, k, s.deployments[k]))
    && (forall w :: w in s.workers ==> PassOk(cfg, s, s.workers[w]))
  }

  /** Functions stay, their generations and observed generations never go back. */
  ghost predicate FunctionsAge(before: map<Key, Function>, after: map<Key, Function>) {
    forall k :: k in before ==>
      && k in after
      && before[k].generation <= after[k].generation && before[k].version <= after[k].version
      && before[k].status.observed <= after[k].status.observed
      && (before[k].version == after[k].version ==> before[k] == after[k])
  }

  lemma StatusPersists(cfg: Config, before: map<string, Job>, after: map<string, Job>, key: Key, st: Status, generation: int)
    requires JobsGrow(before, after) && StatusOk(cfg, before, key, st, generation)
    ensures StatusOk(cfg, after, key, st, generation)
  {
    hide JobName, ImageDestination, ProjectOf;
  }

  lemma PassPersists(cfg: Config, s: System, s': System, p: Pass)
    requires JobsGrow(s.jobs, s'.jobs) && FunctionsAge(s.functions, s'.functions) && PassOk(cfg, s, p)
    ensures PassOk(cfg, s', p)
  {
    hide StatusOk, JobsGrow;
    if p.Pass? {
      StatusPersists(cfg, s.jobs, s'.jobs, p.key, p.fn.status, p.fn.generation);
    }
  }

  /** An effect the invariant survives. */
  ghost predicate EffectOk(cfg: Config, s: System, e: Effect) {
    match e
    case Nothing => true
    case PutJob(n, j) =>
      && JobOk(cfg, n, j)
      && (n in s.jobs ==> Unfinished(s.jobs[n]) && j.project == s.jobs[n].project && j.func == s.jobs[n].func
                          && j.generation == s.jobs[n].generation)
    case PutFunction(k, f) =>
      && StatusOk(cfg, s.jobs, k, f.status, f.generation)
      && (k in s.functions ==>
            && s.functions[k].version < f.version && s.functions[k].generation <= f.generation
            && s.functions[k].status.observed <= f.status.observed)
    case PutDeployment(k, d) => DeploymentOk(cfg, s, k, d)
    case DropDeployment(_) => true
  }

  lemma EffectGrows(cfg: Config, s: System, e: Effect)
    requires EffectOk(cfg, s, e)
    ensures JobsGrow(s.jobs, Apply(s, e).jobs) && FunctionsAge(s.functions, Apply(s, e).functions)
  {
    hide StatusOk, JobOk, DeploymentOk;
  }

  lemma EffectKeeps(cfg: Config, s: System, e: Effect)
    requires Invariant(cfg, s) && EffectOk(cfg, s, e)
    ensures Invariant(cfg, Apply(s, e))
  {
    hide StatusOk, JobOk, PassOk, JobsGrow, FunctionsAge;
    var s' := Apply(s, e);
    EffectGrows(cfg, s, e);
    forall k | k in s'.functions
      ensures StatusOk(cfg, s'.jobs, k, s'.functions[k].status, s'.functions[k].generation)
    {
      StatusPersists(cfg, s.jobs, s'.jobs, k, s'.functions[k].status, s'.functions[k].generation);
    }
    forall k | k in s'.deployments
      ensures DeploymentOk(cfg, s', k, s'.deployments[k])
    {
      DeploymentPersists(cfg, s, s', k, s'.deployments[k]);
    }
    forall w | w in s'.workers
      ensures PassOk(cfg, s', s'.workers[w])
    {
      PassPersists(cfg, s, s', s'.workers[w]);
    }
  }

  lemma DeploymentPersists(cfg: Config, s: System, s': System, key: Key, d: Deployment)
    requires JobsGrow(s.jobs, s'.jobs) && FunctionsAge(s.functions, s'.functions) && DeploymentOk(cfg, s, key, d)
    ensures DeploymentOk(cfg, s', key, d)
  {
    hide JobName, ImageDestination, ProjectOf;
  }

  // Every step of a pass keeps it

  lemma {:induction false} ScanWitness(jobs: seq<Job>) returns (i: nat)
    requires Scan(jobs).JobSucceeded? || Scan(jobs).JobFailed?
    ensures i < |jobs| && (forall j :: 0 <= j < i ==> Unfinished(jobs[j]))
    ensures if Scan(jobs).JobSucceeded? then jobs[i].succeeded else !jobs[i].succeeded && jobs[i].failed
    decreases |jobs|
  {
    if jobs[0].succeeded || jobs[0].failed {
      i := 0;
    } else {
      var k := ScanWitness(jobs[1..]);
      i := k + 1;
      assert forall j :: 0 < j < i ==> jobs[j] == jobs[1..][j - 1];
    }
  }

  /** A listing that shows an end proves that this generation was built or given up. */
  lemma ListingShowsBuilt(cfg: Config, s: System, key: Key, fn: Function, names: seq<string>, seen: map<string, Job>)
    requires Invariant(cfg, s) && key.namespace == "project-" + fn.spec.project
    requires JobsGrow(seen, s.jobs) && Lists(seen, (j: Job) => Labelled(j, fn, key), names)
    requires Scan(Items(seen, names)).JobSucceeded? || Scan(Items(seen, names)).JobFailed?
    ensures if Scan(Items(seen, names)).JobSucceeded? then Built(cfg, s.jobs, key, fn.generation)
            else GaveUp(cfg, s.jobs, key, fn.generation)
  {
    hide JobName, StatusOk, PassOk, DeploymentOk;
    var i := ScanWitness(Items(seen, names));
    assert Labelled(seen[names[i]], fn, key) && JobOk(cfg, names[i], s.jobs[names[i]]);
    HomeOf(key, fn.spec.project);
  }

  lemma HomeOf(key: Key, project: string)
    requires key.namespace == "project-" + project
    ensures ProjectOf(key) == project
  {
    assert |"project-"| == 8;
  }

  lemma ListKeeps(cfg: Config, s: System, p: Pass, names: seq<string>, seen: map<string, Job>)
    requires Invariant(cfg, s) && p.Pass? && PassOk(cfg, s, p) && Advance(cfg, s, p, List(names, seen)).Some?
    ensures PassOk(cfg, s, Advance(cfg, s, p, List(names, seen)).value.0)
  {
    hide Invariant, JobName, ImageDestination, ProjectOf, Built, GaveUp;
    HomeOf(p.key, p.fn.spec.project);
    if Scan(Items(seen, names)).JobSucceeded? || Scan(Items(seen, names)).JobFailed? {
      ListingShowsBuilt(cfg, s, p.key, p.fn, names, seen);
    }
  }

  lemma DeployKeeps(cfg: Config, s: System, p: Pass, ok: bool)
    requires p.Pass? && PassOk(cfg, s, p) && Advance(cfg, s, p, Deploy(ok)).Some?
    ensures var r := Advance(cfg, s, p, Deploy(ok)).value;
      EffectOk(cfg, s, r.1) && PassOk(cfg, s, r.0)
  {
    hide JobName, ImageDestination, ProjectOf, Built, GaveUp;
    HomeOf(p.key, p.fn.spec.project);
  }

  lemma CreateJobKeeps(cfg: Config, s: System, p: Pass)
    requires p.Pass? && PassOk(cfg, s, p) && Advance(cfg, s, p, CreateJob).Some?
    ensures var r := Advance(cfg, s, p, CreateJob).value;
      EffectOk(cfg, s, r.1) && PassOk(cfg, s, r.0)
  {
    hide JobName, ImageDestination, ProjectOf, Built, GaveUp;
  }

  lemma WriteKeeps(cfg: Config, s: System, p: Pass, step: Step)
    requires Invariant(cfg, s) && p.Pass? && PassOk(cfg, s, p) && (step.AddFinalizer? || step.Write?)
    requires Advance(cfg, s, p, step).Some?
    ensures var r := Advance(cfg, s, p, step).value;
      EffectOk(cfg, s, r.1) && PassOk(cfg, Apply(s, r.1), r.0)
  {
    hide StatusOk;
  }

  lemma QuietStepKeeps(cfg: Config, s: System, p: Pass, step: Step)
    requires p.Pass? && PassOk(cfg, s, p) && Advance(cfg, s, p, step).Some?
    requires step.Gate? || step.Prepare? || step.Count? || step.Others? || step.Settle?
    ensures var r := Advance(cfg, s, p, step).value;
      r.1 == Nothing && PassOk(cfg, s, r.0)
  {
    hide JobName, ImageDestination, ProjectOf, Built, GaveUp, Lists;
  }

  lemma StepKeeps(cfg: Config, s: System, p: Pass, step: Step)
    requires Invariant(cfg, s) && p.Pass? && PassOk(cfg, s, p) && Advance(cfg, s, p, step).Some?
    ensures var r := Advance(cfg, s, p, step).value;
      EffectOk(cfg, s, r.1) && PassOk(cfg, Apply(s, r.1), r.0)
  {
    assert p.key in s.functions;
    hide Invariant, PassOk, EffectOk;
    var r := Advance(cfg, s, p, step).value;
    match step {
      case AddFinalizer => WriteKeeps(cfg, s, p, step);
      case Write => WriteKeeps(cfg, s, p, step);
      case List(names, seen) => ListKeeps(cfg, s, p, names, seen);
      case Deploy(ok) => DeployKeeps(cfg, s, p, ok);
      case CreateJob => CreateJobKeeps(cfg, s, p);
      case _ => QuietStepKeeps(cfg, s, p, step);
    }
    NothingIsOk(cfg, s);
    if !step.AddFinalizer? && !step.Write? {
      EffectGrows(cfg, s, r.1);
      PassPersists(cfg, s, Apply(s, r.1), r.0);
    }
  }

  lemma NothingIsOk(cfg: Config, s: System)
    ensures EffectOk(cfg, s, Nothing)
  {
  }

  lemma EnvironmentKeeps(cfg: Config, s: System, a: Action)
    requires Invariant(cfg, s) && Next(cfg, s, a).Some?
    requires a.Created? || a.Edited? || a.Touched? || a.JobEnds?
    ensures var s' := Next(cfg, s, a).value;
      Invariant(cfg, s') && JobsGrow(s.jobs, s'.jobs) && FunctionsAge(s.functions, s'.functions)
  {
    hide JobsGrow, FunctionsAge, PassOk, DeploymentOk, JobName, Built, ImageDestination;
    match a {
      case Created(key, spec) =>
        EffectCarries(cfg, s, PutFunction(key, Function(spec, false, 1, 0, Status(Unset, None, 0))));
      case Edited(key, spec) =>
        var f := s.functions[key];
        EffectCarries(cfg, s, PutFunction(key, f.(spec := spec, generation := f.generation + 1, version := f.version + 1)));
      case Touched(key) =>
        var f := s.functions[key];
        EffectCarries(cfg, s, PutFunction(key, f.(version := f.version + 1)));
      case JobEnds(name, ok) =>
        assert JobOk(cfg, name, s.jobs[name]);
        EffectCarries(cfg, s, PutJob(name, s.jobs[name].(succeeded := ok, failed := !ok)));
    }
  }

  lemma FetchKeeps(cfg: Config, s: System, w: nat, key: Key)
    requires Invariant(cfg, s) && key in s.functions
    ensures PassOk(cfg, s, Pass(key, s.functions[key], Fetched))
  {
    hide StatusOk, JobOk, DeploymentOk;
  }

  lemma NextKeeps(cfg: Config, s: System, a: Action)
    requires Invariant(cfg, s) && Next(cfg, s, a).Some?
    ensures var s' := Next(cfg, s, a).value;
      Invariant(cfg, s') && JobsGrow(s.jobs, s'.jobs) && FunctionsAge(s.functions, s'.functions)
  {
    match a {
      case Fetch(w, key) =>
        hide Invariant, JobsGrow, FunctionsAge, PassOk;
        FetchKeeps(cfg, s, w, key);
        WorkerMoves(cfg, s, w, Pass(key, s.functions[key], Fetched));
      case Abandon(w) =>
        hide Invariant, JobsGrow, FunctionsAge;
        WorkerMoves(cfg, s, w, Off);
      case Work(w, step) => WorkKeeps(cfg, s, w, step);
      case _ => EnvironmentKeeps(cfg, s, a);
    }
  }

  lemma WorkKeeps(cfg: Config, s: System, w: nat, step: Step)
    requires Invariant(cfg, s) && Next(cfg, s, Work(w, step)).Some?
    ensures var s' := Next(cfg, s, Work(w, step)).value;
      Invariant(cfg, s') && JobsGrow(s.jobs, s'.jobs) && FunctionsAge(s.functions, s'.functions)
  {
    hide Advance, PassOk, EffectOk, Apply;
    var p := WorkerPass(s, w);
    assert PassOk(cfg, s, p);
    hide Invariant, WorkerPass;
    var r := Advance(cfg, s, p, step).value;
    StepKeeps(cfg, s, p, step);
    EffectCarries(cfg, s, r.1);
    var mid := Apply(s, r.1);
    EffectLeavesWorkers(s, r.1);
    WorkerMoves(cfg, mid, w, r.0);
    var s' := Next(cfg, s, Work(w, step)).value;
    assert s' == mid.(workers := mid.workers[w := r.0]);
    assert s'.jobs == mid.jobs && s'.functions == mid.functions;
  }

  lemma EffectLeavesWorkers(s: System, e: Effect)
    ensures Apply(s, e).workers == s.workers
  {
  }

  lemma EffectCarries(cfg: Config, s: System, e: Effect)
    requires Invariant(cfg, s) && EffectOk(cfg, s, e)
    ensures var s' := Apply(s, e);
      Invariant(cfg, s') && JobsGrow(s.jobs, s'.jobs) && FunctionsAge(s.functions, s'.functions)
  {
    hide Invariant, EffectOk, JobsGrow, FunctionsAge;
    EffectGrows(cfg, s, e);
    EffectKeeps(cfg, s, e);
  }

  lemma WorkerMoves(cfg: Config, s: System, w: nat, p: Pass)
    requires Invariant(cfg, s) && PassOk(cfg, s, p)
    ensures var s' := s.(workers := s.workers[w := p]);
      Invariant(cfg, s') && JobsGrow(s.jobs, s'.jobs) && FunctionsAge(s.functions, s'.functions)
  {
    hide StatusOk, JobOk;
    var s' := s.(workers := s.workers[w := p]);
    assert forall v :: v in s'.workers ==> PassOk(cfg, s', s'.workers[v]);
  }

  // Build provenance

  lemma GrowthComposes(a: System, b: System, c: System)
    requires JobsGrow(a.jobs, b.jobs) && JobsGrow(b.jobs, c.jobs)
    requires FunctionsAge(a.functions, b.functions) && FunctionsAge(b.functions, c.functions)
    ensures JobsGrow(a.jobs, c.jobs) && FunctionsAge(a.functions, c.functions)
  {
  }

  lemma {:induction false} RunKeeps(cfg: Config, s: System, actions: seq<Action>)
    requires Invariant(cfg, s) && Exec(cfg, s, actions).Some?
    ensures var s' := Exec(cfg, s, actions).value;
      Invariant(cfg, s') && JobsGrow(s.jobs, s'.jobs) && FunctionsAge(s.functions, s'.functions)
    decreases |actions|
  {
    hide Invariant, Next;
    if actions != [] {
      var n := Next(cfg, s, actions[0]).value;
      NextKeeps(cfg, s, actions[0]);
      RunKeeps(cfg, n, actions[1..]);
      hide JobsGrow, FunctionsAge;
      GrowthComposes(s, n, Exec(cfg, n, actions[1..]).value);
    }
  }

  /**
   The reported generation is never ahead of the spec. A reported image was built, by a job that
   succeeded, for the reported generation; a Deployment's image was built for the generation its
   pod spec was rendered from.
   */
  ghost predicate Provenance(cfg: Config, s: System) {
    && (forall k :: k in s.functions ==>
          var f := s.functions[k];
          && f.status.observed <= f.generation
          && (Image(f) != "" ==>
                && Image(f) == ImageDestination(cfg, ProjectOf(k), k.name, f.status.observed)
                && Built(cfg, s.jobs, k, f.status.observed)))
    && (forall k :: k in s.deployments ==>
          var d := s.deployments[k];
          && k in s.functions && d.generation <= s.functions[k].generation
          && d.image == ImageDestination(cfg, ProjectOf(k), k.name, d.generation)
          && Built(cfg, s.jobs, k, d.generation))
  }

  lemma EveryRunHasProvenance(cfg: Config, actions: seq<Action>)
    requires Exec(cfg, START, actions).Some?
    ensures Provenance(cfg, Exec(cfg, START, actions).value)
  {
    hide Exec;
    RunKeeps(cfg, START, actions);
    hide ImageDestination, Built, PassOk;
  }

  /**
   What a status says is true, in every reachable state: Ready means that the reported generation was
   built; a reported failure of a build, that its job failed; and no image goes with a build that
   runs or failed.
   */
  lemma ReportsAreTrue(cfg: Config, actions: seq<Action>, key: Key)
    requires Exec(cfg, START, actions).Some? && key in Exec(cfg, START, actions).value.functions
    ensures var s := Exec(cfg, START, actions).value;
      var st := s.functions[key].status;
      && (st.phase.Ready? ==> st.build.Some? && st.build.value.imageRef != "" && Built(cfg, s.jobs, key, st.observed))
      && (st.phase.Building? && st.observed == s.functions[key].generation ==>
            st.build.Some? && st.build.value.imageRef != "" && Built(cfg, s.jobs, key, st.observed))
      && (st.build.Some? ==> (st.build.value.imageRef != "" <==> st.build.value.state.BuildSucceeded?))
      && (st.build.Some? && st.build.value.state.BuildFailed? ==> st.phase.Failed? && GaveUp(cfg, s.jobs, key, st.observed))
      && (st.build.Some? && st.build.value.state.BuildRunning? ==> st.phase.Building? || st.phase.Failed?)
  {
    hide Exec;
    RunKeeps(cfg, START, actions);
    hide ImageDestination, Built, GaveUp, PassOk;
  }

  /** A pass on a fresh copy builds exactly when the reported generation is behind. */
  lemma BuildsWhenBehind(cfg: Config, actions: seq<Action>, key: Key)
    requires Exec(cfg, START, actions).Some? && key in Exec(cfg, START, actions).value.functions
    ensures var f := Exec(cfg, START, actions).value.functions[key];
      NeedsBuild(f) <==> f.status.observed < f.generation
  {
    hide Exec;
    RunKeeps(cfg, START, actions);
    hide ImageDestination, Built, PassOk;
  }

  /**
   The checks at the start of a pass: it goes on exactly for a function in its own project's
   namespace, whose project exists and whose GPU configuration is allowed, and that needs a build or
   has an image; a violation is reported as a failure with the rest of the status kept, and a missing
   project or image only waits.
   */
  lemma GateLets(cfg: Config, s: System, p: Pass, project: Project)
    requires p.Pass? && p.key in s.functions && Advance(cfg, s, p, Gate(project)).Some?
    ensures var (to, e) := Advance(cfg, s, p, Gate(project)).value;
      var st := p.fn.status;
      var home := p.key.namespace == "project-" + p.fn.spec.project;
      var behind := st.observed < p.fn.generation || (st.phase.Building? && !(st.build.Some? && st.build.value.state.BuildSucceeded?));
      var image := st.build.Some? && st.build.value.imageRef != "";
      && e == Nothing
      && (to.Pass? && !to.at.Writing? <==> home && project.Found? && cfg.gpuOk(p.fn.spec) && (behind || image))
      && (to.Pass? && !to.at.Writing? ==> to == p.(at := if behind then Preparing else Deploying))
      && (to.Pass? && to.at.Writing? <==> !home || (project.Found? && !cfg.gpuOk(p.fn.spec)))
      && (to.Pass? && to.at.Writing? ==> to == p.(fn := p.fn.(status := st.(phase := Failed)), at := Writing))
  {
  }

  /** In every run a job is only made for a generation that passed every check and has not been built. */
  lemma JobsAreChecked(cfg: Config, actions: seq<Action>, w: nat)
    requires Exec(cfg, START, actions).Some? && Creates(cfg, Exec(cfg, START, actions).value, Work(w, CreateJob)).Some?
    ensures var s := Exec(cfg, START, actions).value;
      var job, p := Creates(cfg, s, Work(w, CreateJob)).value, WorkerPass(s, w);
      && p.Pass? && job == Job(p.fn.spec.project, p.key.name, p.fn.generation, false, false)
      && p.key.namespace == "project-" + job.project && p.fn.status.observed < job.generation
      && cfg.gpuOk(p.fn.spec) && cfg.dockerfileOk(p.fn.spec.runtime) && cfg.sourceOk(p.fn.spec.source)
  {
    hide Exec;
    RunKeeps(cfg, START, actions);
    var s := Exec(cfg, START, actions).value;
    assert PassOk(cfg, s, WorkerPass(s, w));
    hide StatusOk, JobName, Invariant;
  }

  /** The spec has a workload in this cluster: it is no job, nor does it need a provider's GPU. */
  predicate RunsHere(spec: Spec) {
    && !spec.kind.HeavyJob?
    && !(spec.gpu.Some? && spec.gpu.value.required && spec.gpu.value.provider != "self-managed")
  }

  lemma ReachedPass(cfg: Config, actions: seq<Action>, w: nat) returns (s: System, p: Pass)
    requires Exec(cfg, START, actions).Some?
    ensures s == Exec(cfg, START, actions).value && p == WorkerPass(s, w) && PassOk(cfg, s, p)
  {
    s := Exec(cfg, START, actions).value;
    p := WorkerPass(s, w);
    hide Exec;
    RunKeeps(cfg, START, actions);
    hide PassOk, StatusOk, JobOk, DeploymentOk;
    assert p.Off? ==> PassOk(cfg, s, Off) by {
      OffIsOk(cfg, s);
    }
  }

  lemma OffIsOk(cfg: Config, s: System)
    ensures PassOk(cfg, s, Off)
  {
  }

  /** In every run a pass deploys the reported image of what runs here, and removes only what does not. */
  lemma DeploysWhat(cfg: Config, actions: seq<Action>, w: nat, ok: bool)
    requires Exec(cfg, START, actions).Some?
    requires var s := Exec(cfg, START, actions).value;
      var p := WorkerPass(s, w);
      p.Pass? && p.key in s.functions && Advance(cfg, s, p, Deploy(ok)).Some?
    ensures var s := Exec(cfg, START, actions).value;
      var p := WorkerPass(s, w);
      var (to, e) := Advance(cfg, s, p, Deploy(ok)).value;
      && cfg.gpuOk(p.fn.spec) && Image(p.fn) != ""
      && e == (if !ok then Nothing
               else if RunsHere(p.fn.spec) then PutDeployment(p.key, Deployment(Image(p.fn), p.fn.generation))
               else DropDeployment(p.key))
      && to == (if !ok && RunsHere(p.fn.spec) then p.(fn := p.fn.(status := p.fn.status.(phase := Failed)), at := Writing)
                else p.(at := Settling))
  {
    var _, _ := ReachedPass(cfg, actions, w);
    hide Exec, StatusOk;
  }

  /** A bad Dockerfile and an object that cannot be brought about are reported as failures, the image kept. */
  lemma FailuresAreReported(cfg: Config, s: System, p: Pass, step: Step)
    requires p.Pass? && p.key in s.functions && Advance(cfg, s, p, step).Some?
    requires step == Others(false) || (step.Prepare? && !cfg.dockerfileOk(p.fn.spec.runtime))
    ensures Advance(cfg, s, p, step).value
            == (Pass(p.key, p.fn.(status := Status(Failed, p.fn.status.build, p.fn.status.observed)), Writing), Nothing)
  {
    hide JobName, ImageDestination, Lists, JobsGrow;
  }

  /**
   In every run a pass turns the phase to Ready only when nothing is left to do: the workload is there,
   with a replica ready where one always runs, or there is none to have.
   */
  lemma ReadyWhen(cfg: Config, actions: seq<Action>, w: nat, step: Step)
    requires Exec(cfg, START, actions).Some?
    requires var s := Exec(cfg, START, actions).value;
      var p := WorkerPass(s, w);
      p.Pass? && p.key in s.functions && Advance(cfg, s, p, step).Some?
    ensures var s := Exec(cfg, START, actions).value;
      var p := WorkerPass(s, w);
      var to := Advance(cfg, s, p, step).value.0;
      to.Pass? && to.fn.status.phase.Ready? && !p.fn.status.phase.Ready? ==>
        && to.at.Writing? && to.fn.status.observed == p.fn.generation
        && (RunsHere(p.fn.spec) ==> p.key in s.deployments)
        && (RunsHere(p.fn.spec) && p.fn.spec.kind.LightDeployment? ==> step == Settle(true))
  {
    var s, p := ReachedPass(cfg, actions, w);
    hide Exec, StatusOk, JobName, Lists, JobsGrow;
  }

  // Build admission

  /** The job an action creates, if it creates one. */
  ghost function Creates(cfg: Config, s: System, a: Action): Option<Job> {
    if a.Work? && a.step.CreateJob? then
      var p := WorkerPass(s, a.w);
      if p.Off? || p.key !in s.functions then None
      else
        var r := Advance(cfg, s, p, CreateJob);
        if r.Some? && r.value.1.PutJob? then Some(r.value.1.job) else None
    else None
  }

  ghost function Creations(cfg: Config, s: System, actions: seq<Action>): seq<Job>
    decreases |actions|
  {
    if actions == [] then []
    else
      var n := Next(cfg, s, actions[0]);
      var c := Creates(cfg, s, actions[0]);
      (if c.Some? then [c.value] else []) + if n.None? then [] else Creations(cfg, n.value, actions[1..])
  }

  function NameOf(cfg: Config, j: Job): string {
    JobName(cfg, j.project, j.func, j.generation)
  }

  lemma CreatesFresh(cfg: Config, s: System, a: Action)
    requires Next(cfg, s, a).Some? && Creates(cfg, s, a).Some?
    ensures var j := Creates(cfg, s, a).value;
      NameOf(cfg, j) !in s.jobs && NameOf(cfg, j) in Next(cfg, s, a).value.jobs
  {
  }

  /** No two of the jobs share a name, and none of the names is taken. */
  ghost predicate FreshNames(cfg: Config, taken: set<string>, cs: seq<Job>) {
    && (forall i :: 0 <= i < |cs| ==> NameOf(cfg, cs[i]) !in taken)
    && (forall i, j :: 0 <= i < j < |cs| ==> NameOf(cfg, cs[i]) != NameOf(cfg, cs[j]))
  }

  lemma PrependFresh(cfg: Config, before: set<string>, after: set<string>, first: Option<Job>, rest: seq<Job>)
    requires before <= after && FreshNames(cfg, after, rest)
    requires first.Some? ==> NameOf(cfg, first.value) in after && NameOf(cfg, first.value) !in before
    ensures FreshNames(cfg, before, (if first.Some? then [first.value] else []) + rest)
  {
    hide NameOf;
    if first.None? {
      assert [] + rest == rest;
    }
  }

  lemma {:induction false} CreationsAreFresh(cfg: Config, s: System, actions: seq<Action>)
    requires Invariant(cfg, s) && Exec(cfg, s, actions).Some?
    ensures FreshNames(cfg, s.jobs.Keys, Creations(cfg, s, actions))
    decreases |actions|
  {
    hide Invariant, Next, NameOf, Creates, FunctionsAge;
    if actions != [] {
      var n := Next(cfg, s, actions[0]).value;
      NextKeeps(cfg, s, actions[0]);
      assert s.jobs.Keys <= n.jobs.Keys;
      hide JobsGrow, FreshNames;
      CreationsAreFresh(cfg, n, actions[1..]);
      if Creates(cfg, s, actions[0]).Some? {
        CreatesFresh(cfg, s, actions[0]);
      }
      PrependFresh(cfg, s.jobs.Keys, n.jobs.Keys, Creates(cfg, s, actions[0]), Creations(cfg, n, actions[1..]));
    } else {
      assert Creations(cfg, s, actions) == [];
    }
  }

  /** At most one job is ever created for one generation of one function. */
  lemma OneJobPerGeneration(cfg: Config, actions: seq<Action>, i: nat, j: nat)
    requires Exec(cfg, START, actions).Some? && i < j < |Creations(cfg, START, actions)|
    ensures var a, b := Creations(cfg, START, actions)[i], Creations(cfg, START, actions)[j];
      !(a.project == b.project && a.func == b.func && a.generation == b.generation)
  {
    CreationsAreFresh(cfg, START, actions);
  }

  /** A failed build stays the only job of its generation in every continuation: only an edit retries. */
  lemma FailedBuildStays(cfg: Config, before: seq<Action>, after: seq<Action>, n: string, m: string)
    requires Exec(cfg, START, before).Some? && Exec(cfg, Exec(cfg, START, before).value, after).Some?
    requires n in Exec(cfg, START, before).value.jobs && Exec(cfg, START, before).value.jobs[n].failed
    ensures var was := Exec(cfg, START, before).value.jobs;
      var jobs := Exec(cfg, Exec(cfg, START, before).value, after).value.jobs;
      && n in jobs && jobs[n] == was[n]
      && ((m in jobs && jobs[m].project == jobs[n].project && jobs[m].func == jobs[n].func
           && jobs[m].generation == jobs[n].generation) ==> m == n)
  {
    hide Exec;
    RunKeeps(cfg, START, before);
    RunKeeps(cfg, Exec(cfg, START, before).value, after);
    hide PassOk, StatusOk, DeploymentOk, JobName;
  }

  function UnfinishedOf(s: System, project: string): set<string> {
    set n | n in s.jobs && s.jobs[n].project == project && Unfinished(s.jobs[n])
  }

  /** Workers that passed the limit check and have not created their job yet. */
  function AdmittedOf(s: System, project: string): set<nat> {
    set w | w in s.workers && s.workers[w].Pass? && s.workers[w].at.Admitted? && s.workers[w].fn.spec.project == project
  }

  ghost function UnfinishedAmong(jobs: map<string, Job>, names: seq<string>): set<string>
    requires forall i :: 0 <= i < |names| ==> names[i] in jobs
  {
    set n | n in names && Unfinished(jobs[n])
  }

  lemma RunningStep(jobs: map<string, Job>, init: seq<string>, last: string)
    requires forall i :: 0 <= i < |init| ==> init[i] in jobs
    requires last in jobs
    ensures RunningIn(Items(jobs, init + [last])) == RunningIn(Items(jobs, init)) + if Unfinished(jobs[last]) then 1 else 0
  {
    hide Unfinished;
    assert Items(jobs, init + [last]) == Items(jobs, init) + [jobs[last]];
    assert (Items(jobs, init) + [jobs[last]])[..|init|] == Items(jobs, init);
  }

  lemma UnfinishedStep(jobs: map<string, Job>, init: seq<string>, last: string)
    requires forall i :: 0 <= i < |init| ==> init[i] in jobs
    requires last in jobs && last !in init
    ensures |UnfinishedAmong(jobs, init + [last])| == |UnfinishedAmong(jobs, init)| + if Unfinished(jobs[last]) then 1 else 0
  {
    hide Unfinished;
    assert UnfinishedAmong(jobs, init + [last])
           == UnfinishedAmong(jobs, init) + if Unfinished(jobs[last]) then {last} else {};
  }

  lemma {:induction false} RunningIsCount(jobs: map<string, Job>, names: seq<string>)
    requires forall i :: 0 <= i < |names| ==> names[i] in jobs
    requires forall i, j :: 0 <= i < j < |names| ==> names[i] != names[j]
    ensures RunningIn(Items(jobs, names)) == |UnfinishedAmong(jobs, names)|
    decreases |names|
  {
    if names == [] {
      assert UnfinishedAmong(jobs, names) == {};
    } else {
      hide Items, RunningIn, UnfinishedAmong;
      var init, last := names[..|names| - 1], names[|names| - 1];
      assert names == init + [last];
      RunningIsCount(jobs, init);
      RunningStep(jobs, init, last);
      UnfinishedStep(jobs, init, last);
    }
  }

  /** What the limit check counts is exactly the project's unfinished jobs. */
  lemma CountIsExact(s: System, project: string, names: seq<string>)
    requires Lists(s.jobs, (j: Job) => j.project == project, names)
    ensures RunningIn(Items(s.jobs, names)) == |UnfinishedOf(s, project)|
  {
    RunningIsCount(s.jobs, names);
    assert UnfinishedAmong(s.jobs, names) == UnfinishedOf(s, project);
  }

  predicate InTeam(a: Action, team: nat) {
    (a.Fetch? || a.Work? || a.Abandon?) ==> a.w < team
  }

  predicate UpToDate(s: System, a: Action) {
    a.Work? && a.step.Count? ==> a.step.seen == s.jobs
  }

  /** Every limit check of the run counts the jobs there are, with nothing left to reach its cache. */
  ghost predicate CountsUpToDate(cfg: Config, s: System, actions: seq<Action>)
    decreases |actions|
  {
    actions == [] ||
    (&& UpToDate(s, actions[0])
     && var n := Next(cfg, s, actions[0]);
        n.Some? ==> CountsUpToDate(cfg, n.value, actions[1..]))
  }

  ghost predicate Bounded(cfg: Config, s: System, team: nat) {
    && (forall w :: w in s.workers ==> w < team)
    && (forall p: string :: |UnfinishedOf(s, p)| + |AdmittedOf(s, p)| <= cfg.maxConcurrentBuilds - 1 + team)
  }

  /** A step that admits no worker and adds no job keeps the bound. */
  lemma FewerKeep(cfg: Config, s: System, s': System, team: nat)
    requires Bounded(cfg, s, team)
    requires forall w :: w in s'.workers ==> w < team
    requires forall p :: UnfinishedOf(s', p) <= UnfinishedOf(s, p) && AdmittedOf(s', p) <= AdmittedOf(s, p)
    ensures Bounded(cfg, s', team)
  {
    hide UnfinishedOf, AdmittedOf;
    forall p: string
      ensures |UnfinishedOf(s', p)| + |AdmittedOf(s', p)| <= cfg.maxConcurrentBuilds - 1 + team
    {
      Smaller(UnfinishedOf(s', p), UnfinishedOf(s, p));
      Smaller(AdmittedOf(s', p), AdmittedOf(s, p));
    }
  }

  lemma AdvanceAdmits(cfg: Config, s: System, p: Pass, step: Step)
    requires p.Pass? && p.key in s.functions && Advance(cfg, s, p, step).Some? && cfg.maxConcurrentBuilds > 0
    requires step.Count? ==> step.seen == s.jobs
    ensures var r := Advance(cfg, s, p, step).value;
      && (r.0.Pass? && r.0.at.Admitted? ==>
            r.1 == Nothing && |UnfinishedOf(s, r.0.fn.spec.project)| < cfg.maxConcurrentBuilds)
      && (r.1.PutJob? ==>
            p.at.Admitted? && r.1.job.project == p.fn.spec.project && r.1.name !in s.jobs)
      && (r.0.Pass? && r.0.at.Admitted? ==> !r.1.PutJob?)
  {
    hide UnfinishedOf, JobName, ImageDestination;
    match step {
      case Count(names, _) => CountIsExact(s, p.fn.spec.project, names);
      case _ =>
    }
  }

  /** A worker that creates its job trades its admission for an unfinished job. */
  lemma CreationTrades(cfg: Config, s: System, w: nat, name: string, job: Job, to: Pass, team: nat)
    requires Bounded(cfg, s, team) && w in AdmittedOf(s, job.project) && name !in s.jobs
    requires w < team && (to.Pass? ==> !to.at.Admitted?)
    ensures Bounded(cfg, Apply(s, PutJob(name, job)).(workers := s.workers[w := to]), team)
  {
    var s' := Apply(s, PutJob(name, job)).(workers := s.workers[w := to]);
    forall p: string
      ensures |UnfinishedOf(s', p)| + |AdmittedOf(s', p)| <= cfg.maxConcurrentBuilds - 1 + team
    {
      AdmittedLeaves(s, s', w, p);
      UnfinishedGrows(s, s', name, job, p);
      assert w in AdmittedOf(s, p) ==> p == job.project;
      assert w in AdmittedOf(s, p) <== p == job.project;
      hide UnfinishedOf, AdmittedOf;
      if p == job.project {
        Smaller(UnfinishedOf(s', p), UnfinishedOf(s, p) + {name});
      }
    }
  }

  lemma AdmittedLeaves(s: System, s': System, w: nat, project: string)
    requires w in s'.workers && s'.workers == s.workers[w := s'.workers[w]]
    requires s'.workers[w].Pass? ==> !s'.workers[w].at.Admitted?
    ensures AdmittedOf(s', project) == AdmittedOf(s, project) - {w}
  {
  }

  lemma UnfinishedGrows(s: System, s': System, name: string, job: Job, project: string)
    requires name !in s.jobs && s'.jobs == s.jobs[name := job]
    ensures UnfinishedOf(s', project) <= UnfinishedOf(s, project) + {name}
    ensures project != job.project ==> UnfinishedOf(s', project) == UnfinishedOf(s, project)
  {
  }

  lemma AdmissionFits(cfg: Config, s: System, w: nat, to: Pass, team: nat)
    requires Bounded(cfg, s, team) && w < team && to.Pass? && to.at.Admitted?
    requires |UnfinishedOf(s, to.fn.spec.project)| < cfg.maxConcurrentBuilds
    ensures Bounded(cfg, s.(workers := s.workers[w := to]), team)
  {
    var s' := s.(workers := s.workers[w := to]);
    forall p: string
      ensures |UnfinishedOf(s', p)| + |AdmittedOf(s', p)| <= cfg.maxConcurrentBuilds - 1 + team
    {
      assert UnfinishedOf(s', p) == UnfinishedOf(s, p);
      if p == to.fn.spec.project {
        TeamSize(AdmittedOf(s', p), team);
      } else {
        assert AdmittedOf(s', p) <= AdmittedOf(s, p);
        Smaller(AdmittedOf(s', p), AdmittedOf(s, p));
      }
    }
  }

  lemma WorkKeepsBound(cfg: Config, s: System, w: nat, step: Step, team: nat)
    requires Bounded(cfg, s, team) && w < team && cfg.maxConcurrentBuilds > 0
    requires Next(cfg, s, Work(w, step)).Some? && UpToDate(s, Work(w, step))
    ensures Bounded(cfg, Next(cfg, s, Work(w, step)).value, team)
  {
    hide Advance, Bounded;
    var p := WorkerPass(s, w);
    var r := Advance(cfg, s, p, step).value;
    AdvanceAdmits(cfg, s, p, step);
    EffectLeavesWorkers(s, r.1);
    if r.1.PutJob? {
      assert w in AdmittedOf(s, r.1.job.project);
      CreationTrades(cfg, s, w, r.1.name, r.1.job, r.0, team);
    } else if r.0.Pass? && r.0.at.Admitted? {
      AdmissionFits(cfg, s, w, r.0, team);
    } else {
      WorkersStay(cfg, s, team);
      FewerKeep(cfg, s, Apply(s, r.1).(workers := s.workers[w := r.0]), team);
    }
  }

  lemma WorkersStay(cfg: Config, s: System, team: nat)
    requires Bounded(cfg, s, team)
    ensures forall w :: w in s.workers ==> w < team
  {
  }

  lemma NextKeepsBound(cfg: Config, s: System, a: Action, team: nat)
    requires Bounded(cfg, s, team) && InTeam(a, team) && cfg.maxConcurrentBuilds > 0 && Next(cfg, s, a).Some?
    requires UpToDate(s, a)
    ensures Bounded(cfg, Next(cfg, s, a).value, team)
  {
    hide Bounded, Advance;
    if a.Work? {
      WorkKeepsBound(cfg, s, a.w, a.step, team);
    } else {
      WorkersStay(cfg, s, team);
      FewerKeep(cfg, s, Next(cfg, s, a).value, team);
    }
  }

  lemma {:induction false} RunKeepsBound(cfg: Config, s: System, actions: seq<Action>, team: nat)
    requires Bounded(cfg, s, team) && cfg.maxConcurrentBuilds > 0 && Exec(cfg, s, actions).Some?
    requires CountsUpToDate(cfg, s, actions)
    requires forall i :: 0 <= i < |actions| ==> InTeam(actions[i], team)
    ensures Bounded(cfg, Exec(cfg, s, actions).value, team)
    decreases |actions|
  {
    hide Bounded, Next, InTeam, UpToDate;
    if actions != [] {
      NextKeepsBound(cfg, s, actions[0], team);
      RunKeepsBound(cfg, Next(cfg, s, actions[0]).value, actions[1..], team);
    }
  }

  /**
   With `team` reconcile workers, a project has at most `team - 1` unfinished builds over the limit;
   the operator runs one worker, so the limit is kept.
   */
  lemma BuildsWithinLimit(cfg: Config, actions: seq<Action>, team: nat, project: string)
    requires team > 0 && cfg.maxConcurrentBuilds > 0 && Exec(cfg, START, actions).Some?
    requires CountsUpToDate(cfg, START, actions)
    requires forall i :: 0 <= i < |actions| ==> InTeam(actions[i], team)
    ensures |UnfinishedOf(Exec(cfg, START, actions).value, project)| <= cfg.maxConcurrentBuilds + (team - 1)
    ensures team == 1 ==> |UnfinishedOf(Exec(cfg, START, actions).value, project)| <= cfg.maxConcurrentBuilds
  {
    forall p: string
      ensures UnfinishedOf(START, p) == {} && AdmittedOf(START, p) == {}
    {
    }
    RunKeepsBound(cfg, START, actions, team);
  }

  // Image names

  /** An image reference tells which generation of the function it was built for. */
  lemma ImageIdentifiesGeneration(cfg: Config, project: string, func: string, g: nat, h: nat)
    requires forall s :: '-' !in cfg.hash(s)
    requires ImageDestination(cfg, project, func, g) == ImageDestination(cfg, project, func, h)
    ensures g == h
  {
    var front := cfg.registry + "/project-" + project + "/" + func + ":";
    var hg, hh := ShortHash(cfg, project, func, g), ShortHash(cfg, project, func, h);
    assert ImageDestination(cfg, project, func, g) == (front + Decimal(g)) + ['-'] + hg;
    assert ImageDestination(cfg, project, func, h) == (front + Decimal(h)) + ['-'] + hh;
    LastSeparatorUnique(front + Decimal(g), hg, front + Decimal(h), hh, '-');
    assert (front + Decimal(g))[|front|..] == Decimal(g) && (front + Decimal(h))[|front|..] == Decimal(h);
    NumeralRoundTrip(g, Radix.Decimal);
    NumeralRoundTrip(h, Radix.Decimal);
  }

  // The build pass as the operator runs it

  /** Worker 0 takes these steps from `s` and arrives at `t`. */
  ghost predicate Takes(cfg: Config, s: System, steps: seq<Step>, t: System)
    decreases |steps|
  {
    if steps == [] then s == t
    else
      var n := Next(cfg, s, Work(0, steps[0]));
      n.Some? && Takes(cfg, n.value, steps[1..], t)
  }

  lemma TakesFirst(cfg: Config, s: System, step: Step, m: System, rest: seq<Step>, t: System)
    requires Next(cfg, s, Work(0, step)) == Some(m) && Takes(cfg, m, rest, t)
    ensures Takes(cfg, s, [step] + rest, t)
  {
    hide Next;
    assert ([step] + rest)[1..] == rest;
  }

  lemma WorkIs(cfg: Config, s: System, p: Pass, step: Step, to: Pass, e: Effect)
    requires s.workers == map[0 := p] && p.Pass? && p.key in s.functions
    requires Advance(cfg, s, p, step) == Some((to, e))
    ensures Next(cfg, s, Work(0, step)) == Some(Apply(s, e).(workers := map[0 := to]))
  {
    hide Advance;
    EffectLeavesWorkers(s, e);
    assert (map[0 := p])[0 := to] == map[0 := to];
  }

  /** Entry `i` of the list is the first job that has ended. */
  predicate FirstEnded(jobs: seq<Job>, i: nat) {
    && i < |jobs| && (jobs[i].succeeded || jobs[i].failed)
    && forall j :: 0 <= j < i ==> !jobs[j].succeeded && !jobs[j].failed
  }

  /** The status after a pass on a generation with these jobs, the first that ended deciding. */
  ghost predicate ReportsJobs(cfg: Config, key: Key, fn: Function, jobs: seq<Job>, now: Status) {
    var st, text := fn.status, fn.spec.project + "-" + key.name + "-" + Decimal(fn.generation);
    var image := cfg.registry + "/project-" + fn.spec.project + "/" + key.name + ":"
                 + Decimal(fn.generation) + "-" + cfg.hash(text);
    && (forall i :: 0 <= i < |jobs| && FirstEnded(jobs, i) ==>
          now == if jobs[i].succeeded then Status(st.phase, Some(Build(BuildSucceeded, image)), fn.generation)
                 else Status(Failed, Some(Build(BuildFailed, "")), fn.generation))
    && (jobs != [] && (forall i :: 0 <= i < |jobs| ==> !FirstEnded(jobs, i)) ==>
          now == if st.phase.Building? then st else Status(Building, Some(Build(BuildRunning, "")), st.observed))
  }

  lemma ScanEnds(jobs: seq<Job>)
    ensures Scan(jobs).JobSucceeded? || Scan(jobs).JobFailed? ==>
      exists i :: 0 <= i < |jobs| && FirstEnded(jobs, i) && (jobs[i].succeeded <==> Scan(jobs).JobSucceeded?)
    ensures Scan(jobs).NoJob? <==> jobs == []
    ensures Scan(jobs).JobRunning? ==> jobs != [] && forall i :: 0 <= i < |jobs| ==> !FirstEnded(jobs, i)
  {
    if Scan(jobs).JobSucceeded? || Scan(jobs).JobFailed? {
      var i := ScanWitness(jobs);
      assert FirstEnded(jobs, i);
    }
    if Scan(jobs).JobRunning? {
      NoneEnded(jobs);
    }
  }

  lemma {:induction false} NoneEnded(jobs: seq<Job>)
    requires Scan(jobs).JobRunning?
    ensures forall i :: 0 <= i < |jobs| ==> Unfinished(jobs[i])
    decreases |jobs|
  {
    if !Scan(jobs[1..]).NoJob? {
      NoneEnded(jobs[1..]);
    }
    assert forall i :: 0 < i < |jobs| ==> jobs[i] == jobs[1..][i - 1];
    assert Scan(jobs[1..]).NoJob? ==> jobs[1..] == [];
  }

  /** Whatever the verdict on its jobs, the pass leaves the status they call for. */
  lemma VerdictReports(cfg: Config, key: Key, fn: Function, jobs: seq<Job>)
    requires jobs != []
    ensures var to := Listed(cfg, Pass(key, fn, Listing), Scan(jobs));
      && (to.Pass? ==> to.at.Writing? && to.key == key)
      && ReportsJobs(cfg, key, fn, jobs, if to.Pass? then to.fn.status else fn.status)
  {
    ScanEnds(jobs);
    hide Scan, Decimal;
    forall i, j | 0 <= i < |jobs| && FirstEnded(jobs, i) && 0 <= j < |jobs| && FirstEnded(jobs, j)
      ensures i == j
    {
    }
  }

  /** What a pass that finds no job does: it makes exactly one, or leaves everything as it was. */
  predicate MakesJob(cfg: Config, key: Key, fn: Function, before: map<string, Job>, now: Status, after: map<string, Job>) {
    var project := fn.spec.project;
    var name := "build-" + project + "-" + key.name + "-" + cfg.hash(project + "-" + key.name + "-" + Decimal(fn.generation));
    if !cfg.sourceOk(fn.spec.source) || name in before then now == fn.status && after == before
    else
      && now == Status(Building, Some(Build(BuildRunning, "")), fn.status.observed)
      && after == before[name := Job(project, key.name, fn.generation, false, false)]
  }

  /** What a build pass on a current copy comes to, from the lists it saw. */
  ghost predicate BuildOutcome(cfg: Config, key: Key, fn: Function, listed: seq<Job>, running: nat,
                               before: map<string, Job>, now: Status, after: map<string, Job>) {
    if !cfg.dockerfileOk(fn.spec.runtime) then now == fn.status.(phase := Failed) && after == before
    else if listed != [] then ReportsJobs(cfg, key, fn, listed, now) && after == before
    else Admission(cfg, key, fn, running, before, now, after)
  }

  /** The limit on running builds comes before a new one. */
  predicate Admission(cfg: Config, key: Key, fn: Function, running: nat, before: map<string, Job>, now: Status, after: map<string, Job>) {
    if cfg.maxConcurrentBuilds > 0 && running >= cfg.maxConcurrentBuilds then now == fn.status && after == before
    else MakesJob(cfg, key, fn, before, now, after)
  }

  /** Of all functions only this one changed, and of it only status and version. */
  predicate OnlyStatus(key: Key, before: map<Key, Function>, after: map<Key, Function>)
    requires before.Keys == after.Keys
  {
    forall k :: k in before ==>
      after[k] == if k == key then before[k].(status := after[k].status, version := after[k].version) else before[k]
  }

  /** The listed jobs that have not ended. */
  ghost function Running(jobs: map<string, Job>, names: seq<string>): set<string>
    requires forall i :: 0 <= i < |names| ==> names[i] in jobs
  {
    set n | n in names && !jobs[n].succeeded && !jobs[n].failed
  }

  lemma RunningCounted(jobs: map<string, Job>, names: seq<string>)
    requires forall i :: 0 <= i < |names| ==> names[i] in jobs
    requires forall i, j :: 0 <= i < j < |names| ==> names[i] != names[j]
    ensures RunningIn(Items(jobs, names)) == |Running(jobs, names)|
  {
    RunningIsCount(jobs, names);
    assert Running(jobs, names) == UnfinishedAmong(jobs, names);
  }

  class Reconciler {
    const cfg: Config
    var functions: map<Key, Function>
    var jobs: map<string, Job>

    constructor (cfg: Config)
      ensures this.cfg == cfg && functions == map[] && jobs == map[]
    {
      this.cfg, functions, jobs := cfg, map[], map[];
    }

    /** The cluster, with one pass in progress. */
    ghost function View(p: Pass): System
      reads this
    {
      System(functions, jobs, map[], map[0 := p])
    }

    method UpdateStatus(key: Key, fn: Function) returns (ok: bool)
      requires key in functions
      modifies this`functions
      ensures ok == (fn.version == old(functions)[key].version)
      ensures functions.Keys == old(functions).Keys && OnlyStatus(key, old(functions), functions)
      ensures functions[key].status == if ok then fn.status else old(functions)[key].status
      ensures View(Off) == old(View(Off)).(functions := functions)
      ensures Takes(cfg, old(View(Pass(key, fn, Writing))), [Write], View(Off))
    {
      ghost var s := View(Pass(key, fn, Writing));
      ok := fn.version == functions[key].version;
      if ok {
        var cur := functions[key];
        functions := functions[key := cur.(status := fn.status, version := cur.version + 1)];
        WorkIs(cfg, s, Pass(key, fn, Writing), Write, Off, PutFunction(key, functions[key]));
      } else {
        WorkIs(cfg, s, Pass(key, fn, Writing), Write, Off, Nothing);
      }
      TakesFirst(cfg, s, Write, View(Off), [], View(Off));
      assert [Write] + [] == [Write];
    }

    /**
     One uninterrupted build pass over two lists from the cache: every path through it is a run of the
     step machine, so what holds of every run holds of it.
     */
    method ReconcileBuild(key: Key, fn: Function, listed: map<string, Job>, labelled: seq<string>,
                          counted: map<string, Job>, project: seq<string>) returns (ghost steps: seq<Step>)
      requires key in functions && JobsGrow(listed, jobs) && JobsGrow(counted, jobs)
      requires Lists(listed, (j: Job) => Labelled(j, fn, key), labelled)
      requires Lists(counted, (j: Job) => j.project == fn.spec.project, project)
      modifies this
      ensures Takes(cfg, old(View(Pass(key, fn, Preparing))), steps, View(Off))
      ensures fn == old(functions)[key] ==>
        && functions.Keys == old(functions).Keys && OnlyStatus(key, old(functions), functions)
        && BuildOutcome(cfg, key, fn, Items(listed, labelled), |Running(counted, project)|,
                        old(jobs), functions[key].status, jobs)
    {
      hide Takes, Next, ReportsJobs;
      if labelled != [] {
        VerdictReports(cfg, key, fn, Items(listed, labelled));
      }
      ScanEnds(Items(listed, labelled));
      ghost var s0 := View(Pass(key, fn, Preparing));
      if !cfg.dockerfileOk(fn.spec.runtime) {
        var failed := fn.(status := fn.status.(phase := Failed));
        ghost var s1 := View(Pass(key, failed, Writing));
        WorkIs(cfg, s0, Pass(key, fn, Preparing), Prepare, Pass(key, failed, Writing), Nothing);
        var _ := UpdateStatus(key, failed);
        TakesFirst(cfg, s0, Prepare, s1, [Write], View(Off));
        return [Prepare] + [Write];
      }
      ghost var s1 := View(Pass(key, fn, Listing));
      WorkIs(cfg, s0, Pass(key, fn, Preparing), Prepare, Pass(key, fn, Listing), Nothing);
      var v := FindBuildJob(Items(listed, labelled));
      ghost var to := Listed(cfg, Pass(key, fn, Listing), v);
      ghost var s2 := View(to);
      WorkIs(cfg, s1, Pass(key, fn, Listing), List(labelled, listed), to, Nothing);
      if v.JobSucceeded? || v.JobFailed? || (v.JobRunning? && !fn.status.phase.Building?) {
        var st := fn.status;
        if v.JobSucceeded? {
          st := st.(build := Some(Build(BuildSucceeded, ImageDestination(cfg, fn.spec.project, key.name, fn.generation))),
          observed := fn.generation);
        } else if v.JobFailed? {
          st := Status(Failed, Some(Build(BuildFailed, "")), fn.generation);
        } else {
          st := st.(phase := Building, build := Some(Build(BuildRunning, "")));
        }
        assert to == Pass(key, fn.(status := st), Writing);
        var _ := UpdateStatus(key, fn.(status := st));
        TakesFirst(cfg, s1, List(labelled, listed), s2, [Write], View(Off));
        TakesFirst(cfg, s0, Prepare, s1, [List(labelled, listed)] + [Write], View(Off));
        return [Prepare] + ([List(labelled, listed)] + [Write]);
      }
      if v.JobRunning? {
        TakesNone(cfg, s2);
        TakesFirst(cfg, s1, List(labelled, listed), s2, [], View(Off));
        TakesFirst(cfg, s0, Prepare, s1, [List(labelled, listed)] + [], View(Off));
        return [Prepare] + ([List(labelled, listed)] + []);
      }
      ghost var more := AdmitAndCreate(key, fn, counted, project);
      TakesFirst(cfg, s1, List(labelled, listed), s2, more, View(Off));
      TakesFirst(cfg, s0, Prepare, s1, [List(labelled, listed)] + more, View(Off));
      steps := [Prepare] + ([List(labelled, listed)] + more);
    }

    /** The rest of the pass when the generation has no job: the limit check, then the job. */
    method AdmitAndCreate(key: Key, fn: Function, counted: map<string, Job>, project: seq<string>)
      returns (ghost steps: seq<Step>)
      requires key in functions && JobsGrow(counted, jobs)
      requires Lists(counted, (j: Job) => j.project == fn.spec.project, project)
      modifies this
      ensures Takes(cfg, old(View(Pass(key, fn, if cfg.maxConcurrentBuilds > 0 then Counting else Admitted))), steps, View(Off))
      ensures fn == old(functions)[key] ==>
        && functions.Keys == old(functions).Keys && OnlyStatus(key, old(functions), functions)
        && Admission(cfg, key, fn, |Running(counted, project)|, old(jobs), functions[key].status, jobs)
    {
      hide Takes, Next;
      ghost var s2 := View(Pass(key, fn, if cfg.maxConcurrentBuilds > 0 then Counting else Admitted));
      ghost var s3 := View(Pass(key, fn, Admitted));
      if cfg.maxConcurrentBuilds > 0 {
        var running := CountRunning(Items(counted, project));
        RunningCounted(counted, project);
        if running >= cfg.maxConcurrentBuilds {
          WorkIs(cfg, s2, Pass(key, fn, Counting), Count(project, counted), Off, Nothing);
          TakesNone(cfg, View(Off));
          TakesFirst(cfg, s2, Count(project, counted), View(Off), [], View(Off));
          return [Count(project, counted)] + [];
        }
        WorkIs(cfg, s2, Pass(key, fn, Counting), Count(project, counted), Pass(key, fn, Admitted), Nothing);
      }
      ghost var create := CreateBuildJob(key, fn);
      if cfg.maxConcurrentBuilds > 0 {
        TakesFirst(cfg, s2, Count(project, counted), s3, create, View(Off));
        return [Count(project, counted)] + create;
      }
      steps := create;
    }

    /** An admitted pass creates the generation's job and reports it. */
    method CreateBuildJob(key: Key, fn: Function) returns (ghost steps: seq<Step>)
      requires key in functions
      modifies this
      ensures Takes(cfg, old(View(Pass(key, fn, Admitted))), steps, View(Off))
      ensures fn == old(functions)[key] ==>
        && functions.Keys == old(functions).Keys && OnlyStatus(key, old(functions), functions)
        && MakesJob(cfg, key, fn, old(jobs), functions[key].status, jobs)
    {
      hide Takes, Next;
      ghost var s3 := View(Pass(key, fn, Admitted));
      var name := JobName(cfg, fn.spec.project, key.name, fn.generation);
      if !cfg.sourceOk(fn.spec.source) || name in jobs {
        WorkIs(cfg, s3, Pass(key, fn, Admitted), CreateJob, Off, Nothing);
        TakesNone(cfg, View(Off));
        TakesFirst(cfg, s3, CreateJob, View(Off), [], View(Off));
        return [CreateJob] + [];
      }
      var job := Job(fn.spec.project, key.name, fn.generation, false, false);
      var building := fn.(status := fn.status.(phase := Building, build := Some(Build(BuildRunning, ""))));
      jobs := jobs[name := job];
      ghost var s4 := View(Pass(key, building, Writing));
      WorkIs(cfg, s3, Pass(key, fn, Admitted), CreateJob, Pass(key, building, Writing), PutJob(name, job));
      var _ := UpdateStatus(key, building);
      TakesFirst(cfg, s3, CreateJob, s4, [Write], View(Off));
      steps := [CreateJob] + [Write];
    }
  }

  lemma TakesNone(cfg: Config, s: System)
    ensures Takes(cfg, s, [], s)
  {
  }
}
