/**
 Runs of the build reconciler that reach something: which generations can still be built, which never
 can, and how far the limit on concurrent builds is passed.
 */
module BuildRuns {
  import opened Wrappers
  import opened Text
  import opened FunctionResource
  import opened FunctionBuilds
  import opened Sets

  // Job names

  lemma FramedEqual(pre: string, x: string, hx: string, y: string, hy: string)
    requires |hx| == |hy|
    ensures pre + x + hx == pre + y + hy <==> x == y && hx == hy
  {
    var a, b := pre + x + hx, pre + y + hy;
    if a == b {
      assert |x| == |y|;
      assert a[|pre|..|pre| + |x|] == x && b[|pre|..|pre| + |y|] == y;
      assert a[|pre| + |x|..] == hx && b[|pre| + |y|..] == hy;
    }
  }

  function Joined(pre: string, p: string, f: string, tail: string): (r: string)
    ensures r == pre + (p + "-" + f) + ("-" + tail)
  {
    pre + p + "-" + f + "-" + tail
  }

  /**
   Job names join project and function with a dash and add 32 bits of hash: they are equal exactly if
   both parts are.
   */
  lemma JobNamesMeetIff(cfg: Config, p: string, f: string, m: int, q: string, g: string, n: int)
    requires forall s :: |cfg.hash(s)| == 8
    ensures JobName(cfg, p, f, m) == JobName(cfg, q, g, n)
            <==> p + "-" + f == q + "-" + g && ShortHash(cfg, p, f, m) == ShortHash(cfg, q, g, n)
    ensures m == n ==> (JobName(cfg, p, f, m) == JobName(cfg, q, g, n) <==> p + "-" + f == q + "-" + g)
  {
    var hp, hq := ShortHash(cfg, p, f, m), ShortHash(cfg, q, g, n);
    assert JobName(cfg, p, f, m) == Joined("build-", p, f, hp);
    assert JobName(cfg, q, g, n) == Joined("build-", q, g, hq);
    assert p + "-" + f == q + "-" + g && m == n ==> hp == hq;
    hide JobName, ShortHash, Joined;
    FramedEqual("build-", p + "-" + f, "-" + hp, q + "-" + g, "-" + hq);
    assert hp == ("-" + hp)[1..] && hq == ("-" + hq)[1..];
  }

  lemma NoDashBefore(p: string, f: string, k: nat)
    requires '-' !in p && k < |p + "-" + f| && (p + "-" + f)[k] == '-'
    ensures |p| <= k
  {
    assert forall j :: 0 <= j < |p| ==> (p + "-" + f)[j] == p[j];
  }

  lemma FirstDashUnique(p: string, f: string, q: string, g: string)
    requires '-' !in p && '-' !in q && p + "-" + f == q + "-" + g
    ensures p == q && f == g
  {
    var s, t := p + "-" + f, q + "-" + g;
    assert s[|p|] == '-' && t[|q|] == '-';
    NoDashBefore(p, f, |q|);
    NoDashBefore(q, g, |p|);
    assert p == s[..|p|] && q == t[..|q|];
    assert f == s[|p| + 1..] && g == t[|q| + 1..];
  }

  /**
   For project IDs as the platform issues them, without a dash, only generations of one function can
   share a name, and they do exactly if their hashes collide.
   */
  lemma IssuedNamesMeetIff(cfg: Config, p: string, f: string, m: int, q: string, g: string, n: int)
    requires forall s :: |cfg.hash(s)| == 8
    requires '-' !in p && '-' !in q
    ensures JobName(cfg, p, f, m) == JobName(cfg, q, g, n)
            <==> p == q && f == g && ShortHash(cfg, p, f, m) == ShortHash(cfg, p, f, n)
  {
    JobNamesMeetIff(cfg, p, f, m, q, g, n);
    hide JobName, ShortHash;
    if p + "-" + f == q + "-" + g {
      FirstDashUnique(p, f, q, g);
    }
  }

  // What the reported generation proves

  /** A reported generation had a job under its name. */
  predicate TriedStatus(cfg: Config, jobs: map<string, Job>, key: Key, st: Status, generation: int) {
    && generation > 0 && 0 <= st.observed
    && (st.observed > 0 ==> JobName(cfg, ProjectOf(key), key.name, st.observed) in jobs)
  }

  predicate TriedPass(cfg: Config, jobs: map<string, Job>, p: Pass) {
    p.Pass? ==> TriedStatus(cfg, jobs, p.key, p.fn.status, p.fn.generation)
  }

  ghost predicate Tried(cfg: Config, s: System) {
    && (forall k :: k in s.functions ==> TriedStatus(cfg, s.jobs, k, s.functions[k].status, s.functions[k].generation))
    && (forall w :: w in s.workers ==> TriedPass(cfg, s.jobs, s.workers[w]))
  }

  predicate TriedEffect(cfg: Config, jobs: map<string, Job>, e: Effect) {
    e.PutFunction? ==> TriedStatus(cfg, jobs, e.key, e.fn.status, e.fn.generation)
  }

  lemma ListTries(cfg: Config, s: System, p: Pass, names: seq<string>, seen: map<string, Job>)
    requires Invariant(cfg, s) && p.Pass? && PassOk(cfg, s, p) && TriedPass(cfg, s.jobs, p)
    requires Advance(cfg, s, p, List(names, seen)).Some?
    ensures TriedPass(cfg, s.jobs, Advance(cfg, s, p, List(names, seen)).value.0)
  {
    hide JobName, ImageDestination, StatusOk, DeploymentOk, ProjectOf;
    HomeOf(p.key, p.fn.spec.project);
    var v := Scan(Items(seen, names));
    if v.JobSucceeded? || v.JobFailed? {
      assert Labelled(seen[names[0]], p.fn, p.key);
      assert JobOk(cfg, names[0], s.jobs[names[0]]);
    }
  }

  lemma AdvanceTries(cfg: Config, s: System, p: Pass, step: Step)
    requires Invariant(cfg, s) && p.Pass? && PassOk(cfg, s, p) && p.key in s.functions
    requires TriedPass(cfg, s.jobs, p) && TriedPass(cfg, s.jobs, Pass(p.key, s.functions[p.key], Fetched))
    requires Advance(cfg, s, p, step).Some?
    ensures var r := Advance(cfg, s, p, step).value;
      TriedPass(cfg, s.jobs, r.0) && TriedEffect(cfg, s.jobs, r.1)
  {
    hide Invariant, JobName, ImageDestination, ProjectOf, StatusOk, Lists, JobsGrow;
    match step {
      case List(names, seen) => ListTries(cfg, s, p, names, seen);
      case _ =>
    }
  }

  lemma TriedGrows(cfg: Config, s: System, e: Effect, w: nat, p: Pass)
    requires Tried(cfg, s) && TriedPass(cfg, s.jobs, p) && TriedEffect(cfg, s.jobs, e)
    ensures Tried(cfg, Apply(s, e).(workers := s.workers[w := p]))
  {
    hide JobName, ProjectOf;
  }

  lemma TriedNext(cfg: Config, s: System, a: Action)
    requires Invariant(cfg, s) && Tried(cfg, s) && Next(cfg, s, a).Some?
    ensures Tried(cfg, Next(cfg, s, a).value)
  {
    hide JobName, ProjectOf, StatusOk, JobOk, DeploymentOk, Advance;
    if a.Work? {
      var p := WorkerPass(s, a.w);
      assert PassOk(cfg, s, p) && TriedPass(cfg, s.jobs, p);
      assert TriedPass(cfg, s.jobs, Pass(p.key, s.functions[p.key], Fetched));
      AdvanceTries(cfg, s, p, a.step);
      var r := Advance(cfg, s, p, a.step).value;
      TriedGrows(cfg, s, r.1, a.w, r.0);
      EffectLeavesWorkers(s, r.1);
    } else {
      hide Invariant, PassOk;
    }
  }

  lemma {:induction false} RunTries(cfg: Config, s: System, actions: seq<Action>)
    requires Invariant(cfg, s) && Tried(cfg, s) && Exec(cfg, s, actions).Some?
    ensures Tried(cfg, Exec(cfg, s, actions).value)
    decreases |actions|
  {
    hide Invariant, Next, Tried;
    if actions != [] {
      NextKeeps(cfg, s, actions[0]);
      TriedNext(cfg, s, actions[0]);
      RunTries(cfg, Next(cfg, s, actions[0]).value, actions[1..]);
    }
  }

  // Reaching a state

  /** What a run confines itself to. */
  datatype Rules = Rules(team: nat, undisturbed: bool, upToDate: bool)

  predicate Obeys(rules: Rules, s: System, a: Action) {
    && InTeam(a, rules.team)
    && (rules.undisturbed ==> !a.Created? && !a.Edited? && !a.Touched?)
    && (rules.upToDate ==> UpToDate(s, a))
  }

  ghost predicate Leads(cfg: Config, rules: Rules, s: System, actions: seq<Action>, t: System)
    decreases |actions|
  {
    if actions == [] then s == t
    else
      var n := Next(cfg, s, actions[0]);
      Obeys(rules, s, actions[0]) && n.Some? && Leads(cfg, rules, n.value, actions[1..], t)
  }

  ghost predicate Reaches(cfg: Config, rules: Rules, s: System, t: System) {
    exists actions :: Leads(cfg, rules, s, actions, t)
  }

  lemma {:induction false} LeadsMeans(cfg: Config, rules: Rules, s: System, actions: seq<Action>, t: System)
    requires Leads(cfg, rules, s, actions, t)
    ensures Exec(cfg, s, actions) == Some(t)
    ensures forall i :: 0 <= i < |actions| ==> InTeam(actions[i], rules.team)
    ensures rules.upToDate ==> CountsUpToDate(cfg, s, actions)
    ensures rules.undisturbed ==>
      forall i :: 0 <= i < |actions| ==> !actions[i].Created? && !actions[i].Edited? && !actions[i].Touched?
    decreases |actions|
  {
    hide Next, UpToDate, InTeam;
    if actions != [] {
      LeadsMeans(cfg, rules, Next(cfg, s, actions[0]).value, actions[1..], t);
    }
  }

  lemma {:induction false} LeadsJoin(cfg: Config, rules: Rules, s: System, first: seq<Action>, m: System, rest: seq<Action>, t: System)
    requires Leads(cfg, rules, s, first, m) && Leads(cfg, rules, m, rest, t)
    ensures Leads(cfg, rules, s, first + rest, t)
    decreases |first|
  {
    hide Next, Obeys;
    if first == [] {
      assert first + rest == rest;
    } else {
      assert (first + rest)[1..] == first[1..] + rest;
      LeadsJoin(cfg, rules, Next(cfg, s, first[0]).value, first[1..], m, rest, t);
    }
  }

  lemma Onward(cfg: Config, rules: Rules, s: System, m: System, t: System)
    requires Reaches(cfg, rules, s, m) && Reaches(cfg, rules, m, t)
    ensures Reaches(cfg, rules, s, t)
  {
    hide Leads;
    var first :| Leads(cfg, rules, s, first, m);
    var rest :| Leads(cfg, rules, m, rest, t);
    LeadsJoin(cfg, rules, s, first, m, rest, t);
  }

  lemma OneAction(cfg: Config, rules: Rules, s: System, a: Action, t: System)
    requires Obeys(rules, s, a) && Next(cfg, s, a) == Some(t)
    ensures Reaches(cfg, rules, s, t)
  {
    hide Next, Obeys;
    assert Leads(cfg, rules, t, [], t);
    assert [a][1..] == [];
    assert Leads(cfg, rules, s, [a], t);
  }

  lemma Stays(cfg: Config, rules: Rules, s: System)
    ensures Reaches(cfg, rules, s, s)
  {
    assert Leads(cfg, rules, s, [], s);
  }

  /** `s` with this copy of a function stored and one worker's pass on it at this point. */
  function Stage(s: System, w: nat, key: Key, fn: Function, at: Point): System {
    s.(functions := s.functions[key := fn], workers := s.workers[w := Pass(key, fn, at)])
  }

  lemma WorkStep(cfg: Config, rules: Rules, s: System, w: nat, step: Step, to: Pass, e: Effect)
    requires w < rules.team && WorkerPass(s, w).Pass? && WorkerPass(s, w).key in s.functions
    requires rules.upToDate && step.Count? ==> step.seen == s.jobs
    requires Advance(cfg, s, WorkerPass(s, w), step) == Some((to, e))
    ensures Reaches(cfg, rules, s, Apply(s, e).(workers := s.workers[w := to]))
  {
    hide Advance;
    EffectLeavesWorkers(s, e);
    OneAction(cfg, rules, s, Work(w, step), Apply(s, e).(workers := s.workers[w := to]));
  }

  /** A step that leaves the cluster alone. */
  lemma StageStep(cfg: Config, rules: Rules, s: System, w: nat, key: Key, fn: Function, at: Point, step: Step, to: Point)
    requires w < rules.team && (rules.upToDate && step.Count? ==> step.seen == s.jobs)
    requires Advance(cfg, Stage(s, w, key, fn, at), Pass(key, fn, at), step) == Some((Pass(key, fn, to), Nothing))
    ensures Reaches(cfg, rules, Stage(s, w, key, fn, at), Stage(s, w, key, fn, to))
  {
    hide Advance;
    var m := Stage(s, w, key, fn, at);
    WorkStep(cfg, rules, m, w, step, Pass(key, fn, to), Nothing);
    assert m.workers[w := Pass(key, fn, to)] == s.workers[w := Pass(key, fn, to)];
  }

  /** The copy of a function a pass goes on with, its finalizer in place. */
  function WithFinalizer(f: Function): Function {
    if f.finalizer then f else f.(finalizer := true, version := f.version + 1)
  }

  /** A spec that passes every check between the fetch and the build job. */
  predicate Buildable(cfg: Config, key: Key, spec: Spec) {
    && key.namespace == "project-" + spec.project
    && cfg.gpuOk(spec) && cfg.dockerfileOk(spec.runtime) && cfg.sourceOk(spec.source)
  }

  /** A worker takes the function up. */
  lemma TakenUp(cfg: Config, rules: Rules, s: System, w: nat, key: Key)
    requires w < rules.team && key in s.functions
    ensures Reaches(cfg, rules, s, Stage(s, w, key, WithFinalizer(s.functions[key]), Fetched))
  {
    var f := s.functions[key];
    var idle := s.(workers := s.workers[w := Off]);
    OneAction(cfg, rules, s, Abandon(w), idle);
    var fetched := Stage(s, w, key, f, Fetched);
    assert s.functions[key := f] == s.functions;
    assert idle.workers[w := Pass(key, f, Fetched)] == fetched.workers;
    OneAction(cfg, rules, idle, Fetch(w, key), fetched);
    Onward(cfg, rules, s, idle, fetched);
    if !f.finalizer {
      hide Reaches;
      var g := WithFinalizer(f);
      var marked := Stage(s, w, key, g, Fetched);
      WorkStep(cfg, rules, fetched, w, AddFinalizer, Pass(key, g, Fetched), PutFunction(key, g));
      assert fetched.workers[w := Pass(key, g, Fetched)] == marked.workers;
      assert fetched.functions[key := g] == marked.functions;
      Onward(cfg, rules, s, fetched, marked);
    }
  }

  lemma NoneListed(jobs: map<string, Job>, key: Key, fn: Function)
    requires forall n :: n in jobs ==> !Labelled(jobs[n], fn, key)
    ensures Lists(jobs, (j: Job) => Labelled(j, fn, key), [])
    ensures Scan(Items(jobs, [])).NoJob?
  {
  }

  /** A pass on a function that is behind and has no job comes to the limit check. */
  lemma Examined(cfg: Config, rules: Rules, s: System, w: nat, key: Key, fn: Function)
    requires w < rules.team && Buildable(cfg, key, fn.spec)
    requires fn.finalizer && fn.status.observed < fn.generation
    requires forall n :: n in s.jobs ==> !Labelled(s.jobs[n], fn, key)
    ensures Reaches(cfg, rules, Stage(s, w, key, fn, Fetched),
                    Stage(s, w, key, fn, if cfg.maxConcurrentBuilds > 0 then Counting else Admitted))
  {
    hide Reaches;
    var limit := if cfg.maxConcurrentBuilds > 0 then Counting else Admitted;
    StageStep(cfg, rules, s, w, key, fn, Fetched, Gate(Found), Preparing);
    StageStep(cfg, rules, s, w, key, fn, Preparing, Prepare, Listing);
    NoneListed(s.jobs, key, fn);
    StageStep(cfg, rules, s, w, key, fn, Listing, List([], s.jobs), limit);
    Onward(cfg, rules, Stage(s, w, key, fn, Fetched), Stage(s, w, key, fn, Preparing), Stage(s, w, key, fn, Listing));
    Onward(cfg, rules, Stage(s, w, key, fn, Fetched), Stage(s, w, key, fn, Listing), Stage(s, w, key, fn, limit));
  }

  /** What the limit check sees lets it admit one more build of the project. */
  ghost predicate Admits(cfg: Config, rules: Rules, s: System, project: string, names: seq<string>, seen: map<string, Job>) {
    && JobsGrow(seen, s.jobs) && (rules.upToDate ==> seen == s.jobs)
    && Lists(seen, (j: Job) => j.project == project, names)
    && RunningIn(Items(seen, names)) < cfg.maxConcurrentBuilds
  }

  /** Then the pass is admitted. */
  lemma PassAdmitted(cfg: Config, rules: Rules, s: System, w: nat, key: Key, names: seq<string>, seen: map<string, Job>)
    requires w < rules.team && key in s.functions && Buildable(cfg, key, s.functions[key].spec)
    requires s.functions[key].status.observed < s.functions[key].generation
    requires forall n :: n in s.jobs ==> !Labelled(s.jobs[n], s.functions[key], key)
    requires cfg.maxConcurrentBuilds > 0 ==> Admits(cfg, rules, s, s.functions[key].spec.project, names, seen)
    ensures Reaches(cfg, rules, s, Stage(s, w, key, WithFinalizer(s.functions[key]), Admitted))
  {
    hide Reaches, Buildable;
    var fn := WithFinalizer(s.functions[key]);
    TakenUp(cfg, rules, s, w, key);
    Examined(cfg, rules, s, w, key, fn);
    if cfg.maxConcurrentBuilds > 0 {
      Onward(cfg, rules, s, Stage(s, w, key, fn, Fetched), Stage(s, w, key, fn, Counting));
      StageStep(cfg, rules, s, w, key, fn, Counting, Count(names, seen), Admitted);
      Onward(cfg, rules, s, Stage(s, w, key, fn, Counting), Stage(s, w, key, fn, Admitted));
    } else {
      Onward(cfg, rules, s, Stage(s, w, key, fn, Fetched), Stage(s, w, key, fn, Admitted));
    }
  }

  function NewJob(key: Key, fn: Function): Job {
    Job(fn.spec.project, key.name, fn.generation, false, false)
  }

  /** An admitted worker creates its job and is then cut off. */
  lemma JobCreated(cfg: Config, rules: Rules, s: System, w: nat)
    requires w < rules.team && w in s.workers && s.workers[w].Pass? && s.workers[w].at.Admitted?
    requires s.workers[w].key in s.functions && cfg.sourceOk(s.workers[w].fn.spec.source)
    requires JobName(cfg, s.workers[w].fn.spec.project, s.workers[w].key.name, s.workers[w].fn.generation) !in s.jobs
    ensures var p := s.workers[w];
      var n := JobName(cfg, p.fn.spec.project, p.key.name, p.fn.generation);
      Reaches(cfg, rules, s, s.(jobs := s.jobs[n := NewJob(p.key, p.fn)], workers := s.workers[w := Off]))
  {
    hide Reaches, JobName;
    var p := s.workers[w];
    var n := JobName(cfg, p.fn.spec.project, p.key.name, p.fn.generation);
    var to := Reporting(p, p.fn.status.(phase := Building, build := Some(Build(BuildRunning, ""))));
    WorkStep(cfg, rules, s, w, CreateJob, to, PutJob(n, NewJob(p.key, p.fn)));
    var m := Apply(s, PutJob(n, NewJob(p.key, p.fn))).(workers := s.workers[w := to]);
    var t := s.(jobs := s.jobs[n := NewJob(p.key, p.fn)], workers := s.workers[w := Off]);
    assert m.workers[w := Off] == t.workers;
    OneAction(cfg, rules, m, Abandon(w), t);
    Onward(cfg, rules, s, m, t);
  }

  // What can be built

  /** The name of this generation's job is free, or held by that very job and not failed. */
  predicate NameOpen(cfg: Config, jobs: map<string, Job>, key: Key, generation: int) {
    var n := JobName(cfg, ProjectOf(key), key.name, generation);
    n in jobs ==>
      && jobs[n].project == ProjectOf(key) && jobs[n].func == key.name && jobs[n].generation == generation
      && !jobs[n].failed
  }

  /**
   A generation whose job name is held by another job, be it of the same function, or by its own
   failed job, is built in no continuation.
   */
  lemma TakenNameNeverBuilds(cfg: Config, before: seq<Action>, after: seq<Action>, key: Key, generation: int)
    requires Exec(cfg, START, before).Some? && Exec(cfg, Exec(cfg, START, before).value, after).Some?
    requires !NameOpen(cfg, Exec(cfg, START, before).value.jobs, key, generation)
    ensures !Built(cfg, Exec(cfg, Exec(cfg, START, before).value, after).value.jobs, key, generation)
  {
    hide Exec;
    RunKeeps(cfg, START, before);
    RunKeeps(cfg, Exec(cfg, START, before).value, after);
    hide PassOk, StatusOk, DeploymentOk, JobName;
  }

  lemma {:induction false} SomeOrder(jobs: map<string, Job>, project: string, which: set<string>) returns (names: seq<string>)
    requires forall n :: n in which <==> n in jobs && jobs[n].project == project
    ensures Lists(jobs, (j: Job) => j.project == project, names)
  {
    var rest := which;
    names := [];
    while rest != {}
      invariant rest <= which
      invariant forall i :: 0 <= i < |names| ==> names[i] in which && names[i] !in rest
      invariant forall i, j :: 0 <= i < j < |names| ==> names[i] != names[j]
      invariant forall n :: n in which && n !in rest ==> n in names
      decreases rest
    {
      var n :| n in rest;
      rest := rest - {n};
      names := names + [n];
    }
  }

  lemma OneEnds(cfg: Config, rules: Rules, s: System, project: string, n: string) returns (m: System)
    requires n in UnfinishedOf(s, project)
    ensures Reaches(cfg, rules, s, m) && UnfinishedOf(m, project) == UnfinishedOf(s, project) - {n}
    ensures |UnfinishedOf(m, project)| < |UnfinishedOf(s, project)|
    ensures m.functions == s.functions && m.jobs.Keys == s.jobs.Keys && JobsGrow(s.jobs, m.jobs)
  {
    hide Reaches;
    m := s.(jobs := s.jobs[n := s.jobs[n].(succeeded := true, failed := false)]);
    OneAction(cfg, rules, s, JobEnds(n, true), m);
    assert UnfinishedOf(m, project) == UnfinishedOf(s, project) - {n};
  }

  /** The project's running builds can all end, leaving names, labels and functions alone. */
  lemma {:induction false} Drained(cfg: Config, rules: Rules, s: System, project: string) returns (t: System)
    ensures Reaches(cfg, rules, s, t) && UnfinishedOf(t, project) == {}
    ensures t.functions == s.functions && t.jobs.Keys == s.jobs.Keys && JobsGrow(s.jobs, t.jobs)
    decreases |UnfinishedOf(s, project)|
  {
    if UnfinishedOf(s, project) == {} {
      Stays(cfg, rules, s);
      t := s;
    } else {
      var n :| n in UnfinishedOf(s, project);
      var m := OneEnds(cfg, rules, s, project, n);
      hide Reaches, UnfinishedOf;
      t := Drained(cfg, rules, m, project);
      Onward(cfg, rules, s, m, t);
    }
  }

  /** A new job ends well: its generation is built. */
  lemma NewJobBuilds(cfg: Config, rules: Rules, s: System, key: Key, fn: Function)
    requires rules.team > 0 && key in s.functions && Buildable(cfg, key, fn.spec)
    requires JobName(cfg, ProjectOf(key), key.name, fn.generation) !in s.jobs
    ensures exists t ::
      Reaches(cfg, rules, Stage(s, 0, key, fn, Admitted), t) && Built(cfg, t.jobs, key, fn.generation)
  {
    hide Reaches, JobName;
    HomeOf(key, fn.spec.project);
    var a := Stage(s, 0, key, fn, Admitted);
    var n := JobName(cfg, ProjectOf(key), key.name, fn.generation);
    JobCreated(cfg, rules, a, 0);
    var c := a.(jobs := a.jobs[n := NewJob(key, fn)], workers := a.workers[0 := Off]);
    var t := c.(jobs := c.jobs[n := NewJob(key, fn).(succeeded := true, failed := false)]);
    OneAction(cfg, rules, c, JobEnds(n, true), t);
    Onward(cfg, rules, a, c, t);
  }

  lemma NoneOfGeneration(cfg: Config, jobs: map<string, Job>, key: Key, fn: Function)
    requires forall n :: n in jobs ==> JobOk(cfg, n, jobs[n])
    requires key.namespace == "project-" + fn.spec.project
    requires JobName(cfg, ProjectOf(key), key.name, fn.generation) !in jobs
    ensures forall n :: n in jobs ==> !Labelled(jobs[n], fn, key)
  {
    hide JobName;
    HomeOf(key, fn.spec.project);
  }

  /** A current generation whose name is free gets built, with nobody touching anything. */
  lemma FreeNameBuilds(cfg: Config, rules: Rules, s: System, key: Key)
    requires rules.team > 0 && Invariant(cfg, s) && Tried(cfg, s)
    requires key in s.functions && Buildable(cfg, key, s.functions[key].spec)
    requires JobName(cfg, ProjectOf(key), key.name, s.functions[key].generation) !in s.jobs
    ensures exists t :: Reaches(cfg, rules, s, t) && Built(cfg, t.jobs, key, s.functions[key].generation)
  {
    var f := s.functions[key];
    assert StatusOk(cfg, s.jobs, key, f.status, f.generation) && TriedStatus(cfg, s.jobs, key, f.status, f.generation);
    assert f.status.observed < f.generation;
    NoneOfGeneration(cfg, s.jobs, key, f);
    hide Reaches, JobName, Buildable, Invariant, Tried, StatusOk, Built;
    var project := f.spec.project;
    var m := Drained(cfg, rules, s, project);
    var names := SomeOrder(m.jobs, project, set n | n in m.jobs && m.jobs[n].project == project);
    CountIsExact(m, project, names);
    PassAdmitted(cfg, rules, m, 0, key, names, m.jobs);
    var a := Stage(m, 0, key, WithFinalizer(f), Admitted);
    Onward(cfg, rules, s, m, a);
    NewJobBuilds(cfg, rules, m, key, WithFinalizer(f));
    var t :| Reaches(cfg, rules, a, t) && Built(cfg, t.jobs, key, f.generation);
    Onward(cfg, rules, s, a, t);
  }

  /** Its own unfinished job can end well, and an ended one has. */
  lemma OwnJobBuilds(cfg: Config, rules: Rules, s: System, key: Key, generation: int)
    requires NameOpen(cfg, s.jobs, key, generation)
    requires JobName(cfg, ProjectOf(key), key.name, generation) in s.jobs
    ensures exists t :: Reaches(cfg, rules, s, t) && Built(cfg, t.jobs, key, generation)
  {
    hide Reaches, JobName;
    var n := JobName(cfg, ProjectOf(key), key.name, generation);
    if s.jobs[n].succeeded {
      Stays(cfg, rules, s);
    } else {
      var t := s.(jobs := s.jobs[n := s.jobs[n].(succeeded := true, failed := false)]);
      OneAction(cfg, rules, s, JobEnds(n, true), t);
    }
  }

  /**
   From a reachable state, the current generation of a function that passes every check can still be
   built exactly if its job name is open; one worker then builds it with nobody's help.
   */
  lemma BuildableIff(cfg: Config, before: seq<Action>, key: Key)
    requires Exec(cfg, START, before).Some? && key in Exec(cfg, START, before).value.functions
    requires Buildable(cfg, key, Exec(cfg, START, before).value.functions[key].spec)
    ensures var s := Exec(cfg, START, before).value;
      var generation := s.functions[key].generation;
      && (NameOpen(cfg, s.jobs, key, generation)
          <==> exists after :: Exec(cfg, s, after).Some? && Built(cfg, Exec(cfg, s, after).value.jobs, key, generation))
      && (NameOpen(cfg, s.jobs, key, generation) ==>
            exists t :: Reaches(cfg, Rules(1, true, true), s, t) && Built(cfg, t.jobs, key, generation))
  {
    hide Exec, Leads, NameOpen, Built, JobName, Buildable;
    var s := Exec(cfg, START, before).value;
    var generation := s.functions[key].generation;
    if NameOpen(cfg, s.jobs, key, generation) {
      RunKeeps(cfg, START, before);
      RunTries(cfg, START, before);
      var rules := Rules(1, true, true);
      if JobName(cfg, ProjectOf(key), key.name, generation) in s.jobs {
        OwnJobBuilds(cfg, rules, s, key, generation);
      } else {
        FreeNameBuilds(cfg, rules, s, key);
      }
      var t :| Reaches(cfg, rules, s, t) && Built(cfg, t.jobs, key, generation);
      var after :| Leads(cfg, rules, s, after, t);
      LeadsMeans(cfg, rules, s, after, t);
    } else {
      forall after | Exec(cfg, s, after).Some?
        ensures !Built(cfg, Exec(cfg, s, after).value.jobs, key, generation)
      {
        TakenNameNeverBuilds(cfg, before, after, key, generation);
      }
    }
  }

  // A generation that is never built

  predicate IsLowerHex(s: string) {
    forall i :: 0 <= i < |s| ==> '0' <= s[i] <= '9' || 'a' <= s[i] <= 'f'
  }

  lemma LastHexDigit(c: char)
    requires '0' <= c <= '9' || 'a' <= c <= 'f'
    ensures IsDigit(c, Hex) && DigitValue(c) < 16 && LowerDigit(DigitValue(c)) == c
  {
  }

  lemma PaddedDigit(v: nat, d: nat, width: nat)
    requires d < 16 && v < Power(Hex, width)
    ensures Padded(16 * v + d, width + 1, Hex, true) == Padded(v, width, Hex, true) + [LowerDigit(d)]
    ensures 16 * v + d < Power(Hex, width + 1)
  {
    assert Quotient(Hex, 16 * v + d) == v && Remainder(Hex, 16 * v + d) == d;
    hide Quotient, Remainder, LowerDigit;
  }

  /** A text of hexadecimal digits is its number, padded to its length. */
  lemma {:induction false} HexIsNumber(s: string)
    requires IsLowerHex(s)
    ensures IsNumeral(s, Hex) && Value(s, Hex) < Power(Hex, |s|)
    ensures Padded(Value(s, Hex), |s|, Hex, true) == s
    decreases |s|
  {
    if s != "" {
      assert s == s[..|s| - 1] + [s[|s| - 1]];
      HexTail(s[..|s| - 1], s[|s| - 1]);
      hide *;
      var init, last := s[..|s| - 1], s[|s| - 1];
      assert s == init + [last];
      HexIsNumber(init);
      LastHexDigit(last);
      AppendedDigit(init, Value(init, Hex), last, DigitValue(last), Hex);
      PaddedDigit(Value(init, Hex), DigitValue(last), |init|);
      TimesSixteen(Value(init, Hex));
    }
  }

  lemma HexTail(init: string, last: char)
    requires IsLowerHex(init + [last])
    ensures IsLowerHex(init) && IsLowerHex([last]) && ('0' <= last <= '9' || 'a' <= last <= 'f')
  {
    var s := init + [last];
    assert s[|init|] == last && forall i :: 0 <= i < |init| ==> s[i] == init[i];
  }

  lemma TimesSixteen(v: nat)
    ensures Times(Hex, v) == 16 * v && Times(Hex, 1) == 16
  {
  }

  /** 32 bits of hash: among the first 16^8 + 1 generations of any function two have the same. */
  lemma CollidingGenerations(cfg: Config, project: string, func: string) returns (g: nat, h: nat)
    requires forall s :: |cfg.hash(s)| == 8 && IsLowerHex(cfg.hash(s))
    ensures 1 <= g < h <= Power(Hex, 8) + 1
    ensures ShortHash(cfg, project, func, g) == ShortHash(cfg, project, func, h)
  {
    hide ShortHash, Power, Padded, HashNumber, IsLowerHex;
    var number := (k: nat) => HashNumber(cfg, project, func, k + 1);
    forall k: nat
      ensures number(k) < Power(Hex, 8)
    {
      HashNumberIs(cfg, project, func, k + 1);
    }
    var i, j := Pigeonhole(number, Power(Hex, 8));
    HashNumberIs(cfg, project, func, i + 1);
    HashNumberIs(cfg, project, func, j + 1);
    g, h := i + 1, j + 1;
  }

  function HashNumber(cfg: Config, project: string, func: string, generation: nat): nat {
    var s := ShortHash(cfg, project, func, generation);
    if IsNumeral(s, Hex) then Value(s, Hex) else 0
  }

  lemma HashNumberIs(cfg: Config, project: string, func: string, generation: nat)
    requires forall s :: |cfg.hash(s)| == 8 && IsLowerHex(cfg.hash(s))
    ensures HashNumber(cfg, project, func, generation) < Power(Hex, 8)
    ensures Padded(HashNumber(cfg, project, func, generation), 8, Hex, true) == ShortHash(cfg, project, func, generation)
  {
    hide Value, Power, Padded;
    var s := ShortHash(cfg, project, func, generation);
    assert |s| == 8 && IsLowerHex(s);
    HexIsNumber(s);
  }

  /** The specs two edits in turn leave. */
  function Alternate(spec: Spec, other: Spec, generation: int): Spec {
    if generation % 2 == 1 then spec else other
  }

  function At(f: Function, spec: Spec, other: Spec, k: nat): Function {
    f.(spec := Alternate(spec, other, f.generation + k), generation := f.generation + k, version := f.version + k)
  }

  lemma {:induction false} EditedOn(cfg: Config, rules: Rules, s: System, key: Key, spec: Spec, other: Spec, k: nat)
    requires !rules.undisturbed && key in s.functions && spec != other
    requires s.functions[key].spec == Alternate(spec, other, s.functions[key].generation)
    ensures Reaches(cfg, rules, s, s.(functions := s.functions[key := At(s.functions[key], spec, other, k)]))
    decreases k
  {
    hide Reaches;
    var f := s.functions[key];
    if k == 0 {
      Stays(cfg, rules, s);
      assert s.functions[key := At(f, spec, other, 0)] == s.functions;
    } else {
      EditedOn(cfg, rules, s, key, spec, other, k - 1);
      var m := s.(functions := s.functions[key := At(f, spec, other, k - 1)]);
      var t := s.(functions := s.functions[key := At(f, spec, other, k)]);
      assert m.functions[key := At(f, spec, other, k)] == t.functions;
      OneAction(cfg, rules, m, Edited(key, Alternate(spec, other, f.generation + k)), t);
      Onward(cfg, rules, s, m, t);
    }
  }

  function NewFunction(spec: Spec): Function {
    Function(spec, false, 1, 0, Status(Unset, None, 0))
  }

  /** A function created and edited up to generation `g`, whose job is then created. */
  lemma FirstHolder(cfg: Config, rules: Rules, key: Key, spec: Spec, other: Spec, g: nat) returns (t: System)
    requires rules.team > 0 && !rules.undisturbed && g > 0 && spec != other
    requires Buildable(cfg, key, spec) && Buildable(cfg, key, other)
    ensures Reaches(cfg, rules, START, t) && key in t.functions
    ensures t.functions[key].generation == g && t.functions[key].spec == Alternate(spec, other, g)
    ensures var n := JobName(cfg, ProjectOf(key), key.name, g); n in t.jobs && t.jobs[n].generation == g
  {
    hide Reaches, JobName, Buildable;
    var f := NewFunction(spec);
    var created := START.(functions := map[key := f]);
    assert START.functions[key := f] == map[key := f];
    OneAction(cfg, rules, START, Created(key, spec), created);
    EditedOn(cfg, rules, created, key, spec, other, g - 1);
    var m := created.(functions := created.functions[key := At(f, spec, other, g - 1)]);
    Onward(cfg, rules, START, created, m);
    assert Lists(m.jobs, (j: Job) => j.project == m.functions[key].spec.project, []);
    assert Items(m.jobs, []) == [];
    PassAdmitted(cfg, rules, m, 0, key, [], m.jobs);
    var a := Stage(m, 0, key, WithFinalizer(m.functions[key]), Admitted);
    Onward(cfg, rules, START, m, a);
    BuildableParts(cfg, key, m.functions[key].spec);
    JobCreated(cfg, rules, a, 0);
    var n := JobName(cfg, ProjectOf(key), key.name, g);
    t := a.(jobs := a.jobs[n := NewJob(key, a.functions[key])], workers := a.workers[0 := Off]);
    Onward(cfg, rules, START, a, t);
  }

  lemma BuildableParts(cfg: Config, key: Key, spec: Spec)
    requires Buildable(cfg, key, spec)
    ensures spec.project == ProjectOf(key) && cfg.sourceOk(spec.source)
  {
    HomeOf(key, spec.project);
  }

  /** The function passes every check, and no continuation builds its current generation. */
  ghost predicate NeverBuilds(cfg: Config, s: System, key: Key) {
    && key in s.functions && Buildable(cfg, key, s.functions[key].spec)
    && forall after :: Exec(cfg, s, after).Some? ==>
         !Built(cfg, Exec(cfg, s, after).value.jobs, key, s.functions[key].generation)
  }

  /**
   Whatever the hash, a run of one worker comes to a generation that no continuation builds: an older
   generation of the same function holds its job name.
   */
  lemma SomeGenerationNeverBuilds(cfg: Config, key: Key, spec: Spec, other: Spec)
    requires forall s :: |cfg.hash(s)| == 8 && IsLowerHex(cfg.hash(s))
    requires spec != other && Buildable(cfg, key, spec) && Buildable(cfg, key, other)
    ensures exists before :: Exec(cfg, START, before).Some? && NeverBuilds(cfg, Exec(cfg, START, before).value, key)
  {
    hide Reaches, Leads, Buildable, ShortHash, Exec, Built, Power, IsLowerHex;
    var rules := Rules(1, false, true);
    var g, h := CollidingGenerations(cfg, ProjectOf(key), key.name);
    assert JobName(cfg, ProjectOf(key), key.name, g) == JobName(cfg, ProjectOf(key), key.name, h);
    hide JobName;
    var m := FirstHolder(cfg, rules, key, spec, other, g);
    EditedOn(cfg, rules, m, key, spec, other, h - g);
    var t := m.(functions := m.functions[key := At(m.functions[key], spec, other, h - g)]);
    Onward(cfg, rules, START, m, t);
    assert !NameOpen(cfg, t.jobs, key, h);
    var before := Steps(cfg, rules, START, t);
    LeadsMeans(cfg, rules, START, before, t);
    forall after | Exec(cfg, t, after).Some?
      ensures !Built(cfg, Exec(cfg, t, after).value.jobs, key, h)
    {
      TakenNameNeverBuilds(cfg, before, after, key, h);
    }
  }

  lemma Steps(cfg: Config, rules: Rules, s: System, t: System) returns (actions: seq<Action>)
    requires Reaches(cfg, rules, s, t)
    ensures Leads(cfg, rules, s, actions, t)
  {
    actions :| Leads(cfg, rules, s, actions, t);
  }

  // How far the limit is passed

  function FnName(i: nat): string {
    "f" + Numeral(i, Decimal)
  }

  function FnKey(project: string, i: nat): Key {
    Key("project-" + project, FnName(i))
  }

  function FnJob(cfg: Config, project: string, i: nat): string {
    JobName(cfg, project, FnName(i), 1)
  }

  lemma FnsDiffer(cfg: Config, project: string, i: nat, j: nat)
    requires forall s :: |cfg.hash(s)| == 8
    requires i != j
    ensures FnName(i) != FnName(j) && FnJob(cfg, project, i) != FnJob(cfg, project, j)
  {
    hide JobName;
    NumeralRoundTrip(i, Decimal);
    NumeralRoundTrip(j, Decimal);
    assert FnName(i)[1..] == Numeral(i, Decimal) && FnName(j)[1..] == Numeral(j, Decimal);
    JobNamesMeetIff(cfg, project, FnName(i), 1, project, FnName(j), 1);
    assert (project + "-" + FnName(i))[|project| + 1..] == FnName(i);
    assert (project + "-" + FnName(j))[|project| + 1..] == FnName(j);
  }

  /** The unfinished jobs of the first `k` functions. */
  ghost function FirstJobs(cfg: Config, project: string, k: nat): map<string, Job>
    decreases k
  {
    if k == 0 then map[]
    else FirstJobs(cfg, project, k - 1)[FnJob(cfg, project, k - 1) := Job(project, FnName(k - 1), 1, false, false)]
  }

  lemma {:induction false} FirstJobsAre(cfg: Config, project: string, k: nat, m: nat)
    requires forall s :: |cfg.hash(s)| == 8
    requires k <= m
    ensures FnJob(cfg, project, m) !in FirstJobs(cfg, project, k)
    ensures forall n :: n in FirstJobs(cfg, project, k) ==>
      var j := FirstJobs(cfg, project, k)[n]; j.project == project && Unfinished(j) && j.func != FnName(m)
    decreases k
  {
    if k > 0 {
      FirstJobsAre(cfg, project, k - 1, m);
      FnsDiffer(cfg, project, k - 1, m);
      hide FnJob, FnName;
    }
  }

  lemma OneMoreKey(jobs: map<string, Job>, n: string, j: Job)
    requires n !in jobs
    ensures |jobs[n := j].Keys| == |jobs.Keys| + 1
  {
    assert jobs[n := j].Keys == jobs.Keys + {n};
  }

  lemma {:induction false} FirstJobsCount(cfg: Config, project: string, k: nat)
    requires forall s :: |cfg.hash(s)| == 8
    ensures |FirstJobs(cfg, project, k).Keys| == k
    decreases k
  {
    if k > 0 {
      FirstJobsCount(cfg, project, k - 1);
      FirstJobsAre(cfg, project, k - 1, k - 1);
      hide FnJob, FnName;
      OneMoreKey(FirstJobs(cfg, project, k - 1), FnJob(cfg, project, k - 1), Job(project, FnName(k - 1), 1, false, false));
    }
  }

  lemma UnfinishedCount(cfg: Config, s: System, project: string, k: nat)
    requires forall t :: |cfg.hash(t)| == 8
    requires s.jobs == FirstJobs(cfg, project, k)
    ensures |UnfinishedOf(s, project)| == k
  {
    hide FirstJobs;
    FirstJobsAre(cfg, project, k, k);
    FirstJobsCount(cfg, project, k);
    assert UnfinishedOf(s, project) == s.jobs.Keys;
  }

  lemma NoJobsYet(cfg: Config, project: string)
    ensures FirstJobs(cfg, project, 0) == map[]
  {
  }

  predicate SpecOk(cfg: Config, spec: Spec) {
    cfg.gpuOk(spec) && cfg.dockerfileOk(spec.runtime) && cfg.sourceOk(spec.source)
  }

  /** The function as the passes of these runs hold it. */
  function Fresh(spec: Spec): Function {
    WithFinalizer(NewFunction(spec))
  }

  /** With jobs of the first `k` functions, worker `w` creates function `m` and passes the limit check. */
  lemma OneMoreAdmitted(cfg: Config, rules: Rules, spec: Spec, s: System, w: nat, k: nat, m: nat)
    requires forall t :: |cfg.hash(t)| == 8
    requires w < rules.team && !rules.undisturbed && SpecOk(cfg, spec) && cfg.maxConcurrentBuilds > 0
    requires s.jobs == FirstJobs(cfg, spec.project, k) && k <= m && FnKey(spec.project, m) !in s.functions
    requires rules.upToDate ==> k < cfg.maxConcurrentBuilds
    ensures Reaches(cfg, rules, s, Stage(s, w, FnKey(spec.project, m), Fresh(spec), Admitted))
  {
    hide Reaches, FirstJobs, FnName;
    var key := FnKey(spec.project, m);
    var f := NewFunction(spec);
    var c := s.(functions := s.functions[key := f]);
    OneAction(cfg, rules, s, Created(key, spec), c);
    FirstJobsAre(cfg, spec.project, k, m);
    var seen, names := map[], [];
    if rules.upToDate {
      seen := c.jobs;
      names := SomeOrder(seen, spec.project, set n | n in seen && seen[n].project == spec.project);
      CountIsExact(c, spec.project, names);
      UnfinishedCount(cfg, c, spec.project, k);
    } else {
      assert Items(seen, names) == [];
    }
    PassAdmitted(cfg, rules, c, w, key, names, seen);
    assert c.functions[key := Fresh(spec)] == s.functions[key := Fresh(spec)];
    Onward(cfg, rules, s, c, Stage(s, w, key, Fresh(spec), Admitted));
  }

  /** An admitted worker adds the next job. */
  lemma OneMoreJob(cfg: Config, rules: Rules, spec: Spec, s: System, w: nat, k: nat)
    requires forall t :: |cfg.hash(t)| == 8
    requires w < rules.team && SpecOk(cfg, spec) && s.jobs == FirstJobs(cfg, spec.project, k)
    requires FnKey(spec.project, k) in s.functions && w in s.workers
    requires s.workers[w] == Pass(FnKey(spec.project, k), Fresh(spec), Admitted)
    ensures Reaches(cfg, rules, s, s.(jobs := FirstJobs(cfg, spec.project, k + 1), workers := s.workers[w := Off]))
  {
    hide Reaches, JobName, FnName;
    FirstJobsAre(cfg, spec.project, k, k);
    JobCreated(cfg, rules, s, w);
  }

  /** One worker's run that ends with `k` jobs, each at work; with lists up to date, `k` is within the limit. */
  lemma {:induction false} Launched(cfg: Config, rules: Rules, spec: Spec, k: nat) returns (t: System)
    requires forall s :: |cfg.hash(s)| == 8
    requires rules.team > 0 && !rules.undisturbed && SpecOk(cfg, spec) && cfg.maxConcurrentBuilds > 0
    requires rules.upToDate ==> k <= cfg.maxConcurrentBuilds
    ensures Reaches(cfg, rules, START, t) && t.jobs == FirstJobs(cfg, spec.project, k)
    ensures forall i :: k <= i ==> FnKey(spec.project, i) !in t.functions
    decreases k
  {
    hide Reaches, FirstJobs;
    if k == 0 {
      NoJobsYet(cfg, spec.project);
      Stays(cfg, rules, START);
      t := START;
    } else {
      var m := Launched(cfg, rules, spec, k - 1);
      var key := FnKey(spec.project, k - 1);
      OneMoreAdmitted(cfg, rules, spec, m, 0, k - 1, k - 1);
      var a := Stage(m, 0, key, Fresh(spec), Admitted);
      Onward(cfg, rules, START, m, a);
      OneMoreJob(cfg, rules, spec, a, 0, k - 1);
      t := a.(jobs := FirstJobs(cfg, spec.project, k), workers := a.workers[0 := Off]);
      Onward(cfg, rules, START, a, t);
      forall i | k <= i
        ensures FnKey(spec.project, i) !in t.functions
      {
        FnsDiffer(cfg, spec.project, i, k - 1);
      }
    }
  }

  /** Worker `w` is admitted on function `base + w`. */
  predicate Waits(spec: Spec, s: System, base: nat, w: nat) {
    var key := FnKey(spec.project, base + w);
    key in s.functions && w in s.workers && s.workers[w] == Pass(key, Fresh(spec), Admitted)
  }

  ghost predicate Waiting(spec: Spec, s: System, base: nat, from: nat, to: nat) {
    forall w :: from <= w < to ==> Waits(spec, s, base, w)
  }

  /** With one place left, any number of workers pass the limit check before the first creates its job. */
  lemma {:induction false} AllAdmitted(cfg: Config, rules: Rules, spec: Spec, base: nat, n: nat) returns (t: System)
    requires forall s :: |cfg.hash(s)| == 8
    requires 0 < n <= rules.team && !rules.undisturbed && SpecOk(cfg, spec) && base < cfg.maxConcurrentBuilds
    ensures Reaches(cfg, rules, START, t) && t.jobs == FirstJobs(cfg, spec.project, base)
    ensures Waiting(spec, t, base, 0, n)
    ensures forall i :: base + n <= i ==> FnKey(spec.project, i) !in t.functions
    decreases n
  {
    hide Reaches, FirstJobs, Fresh;
    var m;
    if n == 1 {
      m := Launched(cfg, rules, spec, base);
    } else {
      m := AllAdmitted(cfg, rules, spec, base, n - 1);
    }
    var w, i := n - 1, base + n - 1;
    OneMoreAdmitted(cfg, rules, spec, m, w, base, i);
    t := Stage(m, w, FnKey(spec.project, i), Fresh(spec), Admitted);
    Onward(cfg, rules, START, m, t);
    forall v | 0 <= v < w
      ensures Waits(spec, t, base, v)
    {
      assert Waits(spec, m, base, v);
    }
    forall j | i < j
      ensures FnKey(spec.project, j) !in t.functions
    {
      FnsDiffer(cfg, spec.project, i, j);
    }
  }

  /** Then all of them create their jobs. */
  lemma {:induction false} AllCreate(cfg: Config, rules: Rules, spec: Spec, s: System, base: nat, from: nat, n: nat) returns (t: System)
    requires forall x :: |cfg.hash(x)| == 8
    requires from <= n <= rules.team && SpecOk(cfg, spec)
    requires s.jobs == FirstJobs(cfg, spec.project, base + from) && Waiting(spec, s, base, from, n)
    ensures Reaches(cfg, rules, s, t) && t.jobs == FirstJobs(cfg, spec.project, base + n)
    decreases n - from
  {
    hide Reaches, FirstJobs, Fresh;
    if from == n {
      Stays(cfg, rules, s);
      t := s;
    } else {
      assert Waits(spec, s, base, from);
      OneMoreJob(cfg, rules, spec, s, from, base + from);
      var m := s.(jobs := FirstJobs(cfg, spec.project, base + from + 1), workers := s.workers[from := Off]);
      forall w | from + 1 <= w < n
        ensures Waits(spec, m, base, w)
      {
        assert Waits(spec, s, base, w);
      }
      t := AllCreate(cfg, rules, spec, m, base, from + 1, n);
      Onward(cfg, rules, s, m, t);
    }
  }

  /** A run within the rules that ends with this many unfinished builds of the project. */
  ghost predicate Overruns(cfg: Config, rules: Rules, actions: seq<Action>, project: string, builds: nat) {
    && Exec(cfg, START, actions).Some?
    && (forall i :: 0 <= i < |actions| ==> InTeam(actions[i], rules.team))
    && (rules.upToDate ==> CountsUpToDate(cfg, START, actions))
    && |UnfinishedOf(Exec(cfg, START, actions).value, project)| == builds
  }

  ghost predicate CanHave(cfg: Config, rules: Rules, project: string, builds: nat) {
    exists actions :: Overruns(cfg, rules, actions, project, builds)
  }

  lemma ReachedOverruns(cfg: Config, rules: Rules, t: System, project: string, builds: nat)
    requires forall x :: |cfg.hash(x)| == 8
    requires Reaches(cfg, rules, START, t) && t.jobs == FirstJobs(cfg, project, builds)
    ensures CanHave(cfg, rules, project, builds)
  {
    hide Leads, Exec, CountsUpToDate, InTeam;
    var actions := Steps(cfg, rules, START, t);
    LeadsMeans(cfg, rules, START, actions, t);
    UnfinishedCount(cfg, t, project, builds);
    assert Overruns(cfg, rules, actions, project, builds);
  }

  /** For every number of workers a run with counts up to date attains limit + workers - 1 builds. */
  lemma LimitAttained(cfg: Config, spec: Spec, team: nat)
    requires forall s :: |cfg.hash(s)| == 8
    requires team > 0 && cfg.maxConcurrentBuilds > 0 && SpecOk(cfg, spec)
    ensures CanHave(cfg, Rules(team, false, true), spec.project, cfg.maxConcurrentBuilds + team - 1)
  {
    hide Reaches, CanHave, FirstJobs, Waiting;
    var rules := Rules(team, false, true);
    var base := cfg.maxConcurrentBuilds - 1;
    var m := AllAdmitted(cfg, rules, spec, base, team);
    var t := AllCreate(cfg, rules, spec, m, base, 0, team);
    Onward(cfg, rules, START, m, t);
    ReachedOverruns(cfg, rules, t, spec.project, base + team);
  }

  /** The limit holds over every run with counts up to date exactly if there is one worker. */
  lemma LimitKeptIff(cfg: Config, spec: Spec, team: nat)
    requires forall s :: |cfg.hash(s)| == 8
    requires team > 0 && cfg.maxConcurrentBuilds > 0 && SpecOk(cfg, spec)
    ensures team == 1 <==>
            forall builds: nat :: CanHave(cfg, Rules(team, false, true), spec.project, builds) ==> builds <= cfg.maxConcurrentBuilds
  {
    hide UnfinishedOf, Exec, CountsUpToDate, InTeam;
    forall builds: nat | team == 1 && CanHave(cfg, Rules(team, false, true), spec.project, builds)
      ensures builds <= cfg.maxConcurrentBuilds
    {
      var actions :| Overruns(cfg, Rules(team, false, true), actions, spec.project, builds);
      BuildsWithinLimit(cfg, actions, team, spec.project);
    }
    LimitAttained(cfg, spec, team);
  }

  /** With lists from a cache that lags there is no bound at all, even for one worker. */
  lemma LaggingCountsUnbounded(cfg: Config, spec: Spec, builds: nat)
    requires forall s :: |cfg.hash(s)| == 8
    requires cfg.maxConcurrentBuilds > 0 && SpecOk(cfg, spec)
    ensures CanHave(cfg, Rules(1, false, false), spec.project, builds)
  {
    hide Reaches, CanHave, FirstJobs;
    var t := Launched(cfg, Rules(1, false, false), spec, builds);
    ReachedOverruns(cfg, Rules(1, false, false), t, spec.project, builds);
  }
}
