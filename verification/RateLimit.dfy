/** The per-project limiter in front of GPU invocations. */
module RateLimit {

  datatype Window = Window(count: int, resetAt: int)

  type Windows = map<string, Window>

  datatype Request = Request(projectID: string, at: int)

  datatype Limits = Limits(limit: int, interval: int)

  /** Whether the request opens a fresh window. */
  predicate Opens(cfg: Limits, ws: Windows, r: Request) {
    r.projectID !in ws || r.at > ws[r.projectID].resetAt
  }

  predicate Allowed(cfg: Limits, ws: Windows, r: Request) {
    Opens(cfg, ws, r) || ws[r.projectID].count < cfg.limit
  }

  function After(cfg: Limits, ws: Windows, r: Request): Windows {
    if Opens(cfg, ws, r) then ws[r.projectID := Window(1, r.at + cfg.interval)]
    else if ws[r.projectID].count >= cfg.limit then ws
    else ws[r.projectID := ws[r.projectID].(count := ws[r.projectID].count + 1)]
  }

  class ProjectRateLimiter {
    const limit: int
    const interval: int
    var windows: map<string, Window>

    constructor (limit: int, interval: int)
      ensures this.limit == limit && this.interval == interval && windows == map[]
    {
      this.limit, this.interval, windows := limit, interval, map[];
    }

    /** One call under the mutex, at clock reading `now`. */
    method Allow(projectID: string, now: int) returns (ok: bool)
      modifies this
      ensures ok == Allowed(Limits(limit, interval), old(windows), Request(projectID, now))
      ensures windows == After(Limits(limit, interval), old(windows), Request(projectID, now))
    {
      if projectID !in windows || now > windows[projectID].resetAt {
        windows := windows[projectID := Window(1, now + interval)];
        return true;
      }
      var w := windows[projectID];
      if w.count >= limit {
        return false;
      }
      windows := windows[projectID := w.(count := w.count + 1)];
      ok := true;
    }
  }

  // Traces

  function Run(cfg: Limits, trace: seq<Request>): Windows {
    if trace == [] then map[]
    else After(cfg, Run(cfg, trace[..|trace| - 1]), trace[|trace| - 1])
  }

  /** The decision on the last request of a trace. */
  predicate LastAllowed(cfg: Limits, trace: seq<Request>)
    requires trace != []
  {
    Allowed(cfg, Run(cfg, trace[..|trace| - 1]), trace[|trace| - 1])
  }

  /** One project's own requests, and the decisions it got within a trace. */
  function Own(trace: seq<Request>, p: string): seq<Request> {
    if trace == [] then []
    else
      var last := trace[|trace| - 1];
      Own(trace[..|trace| - 1], p) + if last.projectID == p then [last] else []
  }

  function Decisions(cfg: Limits, trace: seq<Request>, p: string): seq<bool> {
    if trace == [] then []
    else Decisions(cfg, trace[..|trace| - 1], p)
         + if trace[|trace| - 1].projectID == p then [LastAllowed(cfg, trace)] else []
  }

  function Accepted(cfg: Limits, trace: seq<Request>, p: string): seq<int> {
    if trace == [] then []
    else
      var last := trace[|trace| - 1];
      Accepted(cfg, trace[..|trace| - 1], p)
      + if last.projectID == p && LastAllowed(cfg, trace) then [last.at] else []
  }

  /** How one more request extends each view of a trace. */
  lemma TraceStep(cfg: Limits, before: seq<Request>, r: Request, p: string)
    ensures Run(cfg, before + [r]) == After(cfg, Run(cfg, before), r)
    ensures LastAllowed(cfg, before + [r]) <==> Allowed(cfg, Run(cfg, before), r)
    ensures Own(before + [r], p) == if r.projectID == p then Own(before, p) + [r] else Own(before, p)
    ensures Decisions(cfg, before + [r], p)
            == if r.projectID == p then Decisions(cfg, before, p) + [Allowed(cfg, Run(cfg, before), r)]
               else Decisions(cfg, before, p)
    ensures Accepted(cfg, before + [r], p)
            == if r.projectID == p && Allowed(cfg, Run(cfg, before), r) then Accepted(cfg, before, p) + [r.at]
               else Accepted(cfg, before, p)
  {
    hide Allowed, After;
    var trace := before + [r];
    assert trace[..|trace| - 1] == before && trace[|trace| - 1] == r;
  }

  ghost predicate SameWindow(a: Windows, b: Windows, p: string) {
    (p in a <==> p in b) && (p in a ==> a[p] == b[p])
  }

  /** A project's decisions are those of a limiter that only ever sees its own requests. */
  lemma {:induction false} ProjectsIndependent(cfg: Limits, trace: seq<Request>, p: string)
    ensures SameWindow(Run(cfg, trace), Run(cfg, Own(trace, p)), p)
    ensures Decisions(cfg, trace, p) == Decisions(cfg, Own(trace, p), p)
    ensures Accepted(cfg, trace, p) == Accepted(cfg, Own(trace, p), p)
    decreases |trace|
  {
    hide Run, Own, Decisions, Accepted;
    if trace == [] {
      EmptyTrace(cfg, p);
    } else {
      var before, r := trace[..|trace| - 1], trace[|trace| - 1];
      assert trace == before + [r];
      ProjectsIndependent(cfg, before, p);
      TraceStep(cfg, before, r, p);
      if r.projectID == p {
        TraceStep(cfg, Own(before, p), r, p);
      }
    }
  }

  lemma EmptyTrace(cfg: Limits, p: string)
    ensures Run(cfg, []) == map[] && Own([], p) == [] && Decisions(cfg, [], p) == [] && Accepted(cfg, [], p) == []
  {
  }

  ghost predicate InOrder(trace: seq<Request>) {
    forall i, j :: 0 <= i < j < |trace| ==> trace[i].at <= trace[j].at
  }

  // Accepted requests grouped by window

  /** Acceptances of one project, split into the windows that admitted them. */
  function Groups(cfg: Limits, trace: seq<Request>, p: string): seq<seq<int>> {
    if trace == [] then []
    else
      var before := trace[..|trace| - 1];
      var last := trace[|trace| - 1];
      var gs := Groups(cfg, before, p);
      if last.projectID != p || !LastAllowed(cfg, trace) then gs
      else if Opens(cfg, Run(cfg, before), last) || gs == [] then gs + [[last.at]]
      else gs[..|gs| - 1] + [gs[|gs| - 1] + [last.at]]
  }

  function Flatten(gs: seq<seq<int>>): seq<int> {
    if gs == [] then [] else Flatten(gs[..|gs| - 1]) + gs[|gs| - 1]
  }

  function Most(limit: int): (m: int)
    ensures m >= 1
  {
    if limit < 1 then 1 else limit
  }

  /** A group fits its window: at most `m` times, all within the interval after the first. */
  ghost predicate Fits(g: seq<int>, m: int, interval: int) {
    0 < |g| <= m && forall i :: 0 <= i < |g| ==> g[0] <= g[i] <= g[0] + interval
  }

  ghost predicate Spaced(gs: seq<seq<int>>, m: int, interval: int) {
    && (forall k :: 0 <= k < |gs| ==> Fits(gs[k], m, interval))
    && (forall k :: 0 < k < |gs| ==> gs[k - 1][0] + interval < gs[k][0])
  }

  /** The map entry describes the last group. */
  ghost predicate Tracks(cfg: Limits, ws: Windows, gs: seq<seq<int>>, p: string) {
    && (p in ws <==> gs != [])
    && (gs != [] && |gs[|gs| - 1]| > 0 ==>
          ws[p] == Window(|gs[|gs| - 1]|, gs[|gs| - 1][0] + cfg.interval))
  }

  ghost predicate NoneAfter(gs: seq<seq<int>>, now: int) {
    forall k, i :: 0 <= k < |gs| && 0 <= i < |gs[k]| ==> gs[k][i] <= now
  }

  /** The last group with one more time. */
  function Grown(gs: seq<seq<int>>, t: int): seq<seq<int>>
    requires gs != []
  {
    gs[..|gs| - 1] + [gs[|gs| - 1] + [t]]
  }

  lemma FlattenAppend(gs: seq<seq<int>>, g: seq<int>)
    ensures Flatten(gs + [g]) == Flatten(gs) + g
  {
    assert (gs + [g])[..|gs|] == gs;
  }

  lemma FlattenGrow(gs: seq<seq<int>>, t: int)
    requires gs != []
    ensures Flatten(Grown(gs, t)) == Flatten(gs) + [t]
  {
    hide Flatten;
    var rest, last := gs[..|gs| - 1], gs[|gs| - 1];
    FlattenAppend(rest, last + [t]);
    FlattenAppend(rest, last);
    assert rest + [last] == gs;
    assert Flatten(rest) + (last + [t]) == (Flatten(rest) + last) + [t];
  }

  lemma GroupsStep(cfg: Limits, before: seq<Request>, r: Request, p: string)
    ensures Groups(cfg, before + [r], p)
            == var gs := Groups(cfg, before, p);
               if r.projectID != p || !Allowed(cfg, Run(cfg, before), r) then gs
               else if Opens(cfg, Run(cfg, before), r) || gs == [] then gs + [[r.at]]
               else Grown(gs, r.at)
  {
    hide Allowed, Opens, Run, LastAllowed;
    TraceStep(cfg, before, r, p);
    var trace := before + [r];
    assert trace[..|trace| - 1] == before && trace[|trace| - 1] == r;
  }

  lemma {:induction false} GroupsAreWindows(cfg: Limits, trace: seq<Request>, p: string, now: int)
    requires InOrder(trace) && cfg.interval >= 0
    requires trace != [] ==> trace[|trace| - 1].at <= now
    ensures Flatten(Groups(cfg, trace, p)) == Accepted(cfg, trace, p)
    ensures Spaced(Groups(cfg, trace, p), Most(cfg.limit), cfg.interval)
    ensures Tracks(cfg, Run(cfg, trace), Groups(cfg, trace, p), p)
    ensures NoneAfter(Groups(cfg, trace, p), now)
    decreases |trace|
  {
    hide Run, Accepted, Groups, Flatten, Spaced, NoneAfter, Tracks, Allowed, Opens, After, InOrder;
    if trace == [] {
      NoGroups(cfg, p, now);
    } else {
      var before, r := trace[..|trace| - 1], trace[|trace| - 1];
      assert trace == before + [r];
      InOrderPrefix(trace);
      GroupsAreWindows(cfg, before, p, r.at);
      GroupsStep(cfg, before, r, p);
      TraceStep(cfg, before, r, p);
      LastFits(Groups(cfg, before, p), Most(cfg.limit), cfg.interval);
      var gs, ws := Groups(cfg, before, p), Run(cfg, before);
      NoneAfterLater(gs, r.at, now);
      TracksStep(cfg, ws, gs, p, r);
      if r.projectID == p && Allowed(cfg, ws, r) {
        LastFits(gs, Most(cfg.limit), cfg.interval);
        if gs != [] {
          LastBefore(gs, r.at);
        }
        if Opens(cfg, ws, r) || gs == [] {
          FlattenAppend(gs, [r.at]);
          GroupOpens(gs, r.at, Most(cfg.limit), cfg.interval, now);
        } else {
          FlattenGrow(gs, r.at);
          GroupGrows(gs, r.at, Most(cfg.limit), cfg.interval, now);
        }
      }
    }
  }

  lemma NoGroups(cfg: Limits, p: string, now: int)
    ensures Groups(cfg, [], p) == [] && Accepted(cfg, [], p) == [] && Flatten([]) == [] && Run(cfg, []) == map[]
    ensures Spaced([], Most(cfg.limit), cfg.interval) && NoneAfter([], now) && Tracks(cfg, map[], [], p)
  {
  }

  lemma InOrderPrefix(trace: seq<Request>)
    requires InOrder(trace) && trace != []
    ensures InOrder(trace[..|trace| - 1])
    ensures |trace| > 1 ==> trace[|trace| - 2].at <= trace[|trace| - 1].at
  {
  }

  /** What the map entry says about the last group, and how one more request changes both. */
  lemma TracksStep(cfg: Limits, ws: Windows, gs: seq<seq<int>>, p: string, r: Request)
    requires Tracks(cfg, ws, gs, p) && (gs != [] ==> gs[|gs| - 1] != [])
    ensures r.projectID != p || !Allowed(cfg, ws, r) ==> Tracks(cfg, After(cfg, ws, r), gs, p)
    ensures r.projectID == p && Opens(cfg, ws, r) ==>
      && Allowed(cfg, ws, r) && Tracks(cfg, After(cfg, ws, r), gs + [[r.at]], p)
      && (gs != [] ==> gs[|gs| - 1][0] + cfg.interval < r.at)
    ensures r.projectID == p && !Opens(cfg, ws, r) ==>
      && gs != [] && r.at <= gs[|gs| - 1][0] + cfg.interval
      && (Allowed(cfg, ws, r) ==>
            |gs[|gs| - 1]| < Most(cfg.limit) && Tracks(cfg, After(cfg, ws, r), Grown(gs, r.at), p))
      && (!Allowed(cfg, ws, r) ==> |gs[|gs| - 1]| >= cfg.limit)
  {
  }

  lemma NoneAfterLater(gs: seq<seq<int>>, t: int, now: int)
    requires NoneAfter(gs, t) && t <= now
    ensures NoneAfter(gs, now)
  {
  }

  lemma LastFits(gs: seq<seq<int>>, m: int, interval: int)
    requires Spaced(gs, m, interval)
    ensures gs != [] ==> Fits(gs[|gs| - 1], m, interval)
  {
  }

  lemma LastBefore(gs: seq<seq<int>>, now: int)
    requires NoneAfter(gs, now) && gs != [] && gs[|gs| - 1] != []
    ensures gs[|gs| - 1][0] <= now
  {
  }

  lemma GroupOpens(gs: seq<seq<int>>, t: int, m: int, interval: int, now: int)
    requires Spaced(gs, m, interval) && NoneAfter(gs, t) && t <= now && m >= 1 && interval >= 0
    requires gs != [] && gs[|gs| - 1] != [] ==> gs[|gs| - 1][0] + interval < t
    ensures Spaced(gs + [[t]], m, interval) && NoneAfter(gs + [[t]], now)
  {
    LastFits(gs, m, interval);
    assert Fits([t], m, interval);
  }

  lemma GroupGrows(gs: seq<seq<int>>, t: int, m: int, interval: int, now: int)
    requires Spaced(gs, m, interval) && gs != [] && NoneAfter(gs, t) && t <= now
    requires 0 < |gs[|gs| - 1]| < m && gs[|gs| - 1][0] <= t <= gs[|gs| - 1][0] + interval
    ensures Spaced(Grown(gs, t), m, interval) && NoneAfter(Grown(gs, t), now)
  {
    var grown := Grown(gs, t);
    assert Fits(gs[|gs| - 1], m, interval);
    assert Fits(grown[|gs| - 1], m, interval);
    forall k | 0 <= k < |gs| - 1
      ensures Fits(grown[k], m, interval) && grown[k] == gs[k]
    {
    }
    assert forall k :: 0 <= k < |gs| ==> |gs[k]| > 0 && grown[k][0] == gs[k][0];
  }

  // Counting

  function CountIn(ts: seq<int>, lo: int, hi: int): (n: nat)
    ensures n <= |ts|
  {
    if ts == [] then 0
    else CountIn(ts[..|ts| - 1], lo, hi) + if lo <= ts[|ts| - 1] <= hi then 1 else 0
  }

  lemma {:induction false} CountAppend(a: seq<int>, b: seq<int>, lo: int, hi: int)
    ensures CountIn(a + b, lo, hi) == CountIn(a, lo, hi) + CountIn(b, lo, hi)
    decreases |b|
  {
    if b == [] {
      assert a + b == a;
    } else {
      assert (a + b)[..|a + b| - 1] == a + b[..|b| - 1];
      CountAppend(a, b[..|b| - 1], lo, hi);
    }
  }

  lemma {:induction false} CountNone(ts: seq<int>, lo: int, hi: int)
    requires forall i :: 0 <= i < |ts| ==> !(lo <= ts[i] <= hi)
    ensures CountIn(ts, lo, hi) == 0
  {
    if ts != [] {
      CountNone(ts[..|ts| - 1], lo, hi);
    }
  }

  lemma {:induction false} CountAll(ts: seq<int>, lo: int, hi: int)
    requires forall i :: 0 <= i < |ts| ==> lo <= ts[i] <= hi
    ensures CountIn(ts, lo, hi) == |ts|
  {
    if ts != [] {
      CountAll(ts[..|ts| - 1], lo, hi);
    }
  }

  /** A group whose first time is outside the span contributes one fewer than its size. */
  lemma CountMissesFirst(g: seq<int>, lo: int, hi: int)
    requires g != [] && !(lo <= g[0] <= hi)
    ensures CountIn(g, lo, hi) <= |g| - 1
  {
    assert g == [g[0]] + g[1..];
    CountAppend([g[0]], g[1..], lo, hi);
    CountNone([g[0]], lo, hi);
  }

  lemma {:induction false} CountBefore(gs: seq<seq<int>>, m: int, interval: int, lo: int, hi: int)
    requires Spaced(gs, m, interval)
    requires gs != [] ==> gs[|gs| - 1][0] + interval < lo
    ensures CountIn(Flatten(gs), lo, hi) == 0
  {
    if gs != [] {
      var last := gs[|gs| - 1];
      assert Fits(last, m, interval);
      CountNone(last, lo, hi);
      assert |gs| >= 2 ==> Fits(gs[|gs| - 2], m, interval);
      CountBefore(gs[..|gs| - 1], m, interval, lo, hi);
      CountAppend(Flatten(gs[..|gs| - 1]), last, lo, hi);
    }
  }

  /** A closed span as long as the interval meets at most two windows, and misses the older one's first. */
  lemma {:induction false} SpanBound(gs: seq<seq<int>>, m: int, interval: int, lo: int)
    requires Spaced(gs, m, interval) && m >= 1 && interval >= 0
    ensures CountIn(Flatten(gs), lo, lo + interval) <= 2 * m - 1
    decreases |gs|
  {
    if gs != [] {
      var hi := lo + interval;
      var rest, last := gs[..|gs| - 1], gs[|gs| - 1];
      assert Fits(last, m, interval);
      CountAppend(Flatten(rest), last, lo, hi);
      if last[0] > hi {
        CountNone(last, lo, hi);
        SpanBound(rest, m, interval, lo);
      } else if rest != [] {
        var earlier, prev := rest[..|rest| - 1], rest[|rest| - 1];
        assert prev == gs[|gs| - 2] && Fits(prev, m, interval);
        assert prev[0] < lo;
        CountMissesFirst(prev, lo, hi);
        CountAppend(Flatten(earlier), prev, lo, hi);
        assert earlier != [] ==> earlier[|earlier| - 1] == gs[|gs| - 3];
        CountBefore(earlier, m, interval, lo, hi);
      }
    }
  }

  /**
   However requests arrive, a closed span as long as the interval holds at most
   2 * max(1, limit) - 1 accepted requests of a project.
   */
  lemma AcceptedBound(cfg: Limits, trace: seq<Request>, p: string, lo: int)
    requires InOrder(trace) && cfg.interval >= 0
    ensures CountIn(Accepted(cfg, trace, p), lo, lo + cfg.interval) <= 2 * Most(cfg.limit) - 1
  {
    hide Run, Accepted, Groups, Flatten, Spaced, Tracks, NoneAfter, CountIn, InOrder;
    GroupsAreWindows(cfg, trace, p, if trace == [] then 0 else trace[|trace| - 1].at);
    SpanBound(Groups(cfg, trace, p), Most(cfg.limit), cfg.interval, lo);
  }

  /** A refusal means the project had its full limit accepted within the preceding interval. */
  lemma RefusalJustified(cfg: Limits, trace: seq<Request>)
    requires InOrder(trace) && cfg.interval >= 0 && trace != [] && !LastAllowed(cfg, trace)
    ensures var last := trace[|trace| - 1];
      CountIn(Accepted(cfg, trace, last.projectID), last.at - cfg.interval, last.at) >= cfg.limit
  {
    hide Run, Accepted, Groups, Flatten, Spaced, CountIn, Tracks, NoneAfter, Allowed, Opens, LastAllowed, InOrder;
    var before, last := trace[..|trace| - 1], trace[|trace| - 1];
    var p := last.projectID;
    assert trace == before + [last];
    InOrderPrefix(trace);
    GroupsAreWindows(cfg, before, p, last.at);
    TraceStep(cfg, before, last, p);
    var gs := Groups(cfg, before, p);
    LastFits(gs, Most(cfg.limit), cfg.interval);
    TracksStep(cfg, Run(cfg, before), gs, p, last);
    OpensAllows(cfg, Run(cfg, before), last);
    var rest, g := gs[..|gs| - 1], gs[|gs| - 1];
    assert gs == rest + [g];
    FlattenAppend(rest, g);
    LastGroupWithin(gs, last.at);
    CountAll(g, last.at - cfg.interval, last.at);
    CountAppend(Flatten(rest), g, last.at - cfg.interval, last.at);
  }

  lemma OpensAllows(cfg: Limits, ws: Windows, r: Request)
    ensures Opens(cfg, ws, r) ==> Allowed(cfg, ws, r)
  {
  }

  lemma LastGroupWithin(gs: seq<seq<int>>, now: int)
    requires gs != [] && NoneAfter(gs, now)
    ensures var g := gs[|gs| - 1]; forall i :: 0 <= i < |g| ==> g[i] <= now
  {
    var k := |gs| - 1;
    assert forall i :: 0 <= i < |gs[k]| ==> gs[k][i] <= now;
  }

  // The bound is reached

  /** A sequence followed by `n` copies of `x`. */
  function Extended<T>(xs: seq<T>, x: T, n: nat): seq<T> {
    if n == 0 then xs else Extended(xs, x, n - 1) + [x]
  }

  lemma InWindow(cfg: Limits, ws: Windows, p: string, w: Window, at: int)
    requires at <= w.resetAt && w.count < cfg.limit
    ensures Allowed(cfg, ws[p := w], Request(p, at))
    ensures After(cfg, ws[p := w], Request(p, at)) == ws[p := w.(count := w.count + 1)]
  {
    assert ws[p := w][p := w.(count := w.count + 1)] == ws[p := w.(count := w.count + 1)];
  }

  /** Requests at one instant inside an open window are accepted up to the limit. */
  lemma {:induction false} BurstAccepted(cfg: Limits, trace: seq<Request>, p: string, at: int, n: nat, ws: Windows, w: Window)
    requires Run(cfg, trace) == ws[p := w] && at <= w.resetAt
    requires w.count + n <= cfg.limit
    ensures Run(cfg, Extended(trace, Request(p, at), n)) == ws[p := w.(count := w.count + n)]
    ensures Accepted(cfg, Extended(trace, Request(p, at), n), p) == Extended(Accepted(cfg, trace, p), at, n)
    decreases n
  {
    hide Run, Accepted, Allowed, After;
    if n > 0 {
      BurstAccepted(cfg, trace, p, at, n - 1, ws, w);
      InWindow(cfg, ws, p, w.(count := w.count + (n - 1)), at);
      TraceStep(cfg, Extended(trace, Request(p, at), n - 1), Request(p, at), p);
    }
  }

  lemma {:induction false} ExtendedCount(ts: seq<int>, x: int, n: nat, lo: int, hi: int)
    ensures CountIn(Extended(ts, x, n), lo, hi) == CountIn(ts, lo, hi) + if lo <= x <= hi then n else 0
    decreases n
  {
    hide CountIn;
    if n > 0 {
      ExtendedCount(ts, x, n - 1, lo, hi);
      CountOneMore(Extended(ts, x, n - 1), x, lo, hi);
    }
  }

  lemma CountOneMore(ts: seq<int>, x: int, lo: int, hi: int)
    ensures CountIn(ts + [x], lo, hi) == CountIn(ts, lo, hi) + if lo <= x <= hi then 1 else 0
  {
    assert (ts + [x])[..|ts|] == ts;
  }

  lemma InOrderStep(trace: seq<Request>, r: Request)
    requires InOrder(trace) && (trace != [] ==> trace[|trace| - 1].at <= r.at)
    ensures InOrder(trace + [r])
  {
  }

  lemma {:induction false} InOrderBurst(trace: seq<Request>, r: Request, n: nat)
    requires InOrder(trace) && trace != [] && trace[|trace| - 1].at <= r.at
    ensures InOrder(Extended(trace, r, n)) && Extended(trace, r, n) != []
    ensures Extended(trace, r, n)[|Extended(trace, r, n)| - 1].at <= r.at
    decreases n
  {
    hide InOrder;
    if n > 0 {
      InOrderBurst(trace, r, n - 1);
      InOrderStep(Extended(trace, r, n - 1), r);
    }
  }

  /** Open a window, fill it at its last instant, then fill the next one a tick later. */
  function Straddle(cfg: Limits, p: string): seq<Request>
    requires cfg.limit >= 1
  {
    var first := Extended([Request(p, 0)], Request(p, cfg.interval), cfg.limit - 1);
    Extended(first + [Request(p, cfg.interval + 1)], Request(p, cfg.interval + 1), cfg.limit - 1)
  }

  lemma StraddleInOrder(cfg: Limits, p: string)
    requires cfg.limit >= 1 && cfg.interval >= 1
    ensures InOrder(Straddle(cfg, p))
  {
    hide Extended;
    InOrderBurst([Request(p, 0)], Request(p, cfg.interval), cfg.limit - 1);
    var first := Extended([Request(p, 0)], Request(p, cfg.interval), cfg.limit - 1);
    InOrderStep(first, Request(p, cfg.interval + 1));
    InOrderBurst(first + [Request(p, cfg.interval + 1)], Request(p, cfg.interval + 1), cfg.limit - 1);
  }

  /** For every limit the bound is attained, so the limiter is not a sliding window. */
  lemma BoundAttained(cfg: Limits, p: string)
    requires cfg.limit >= 1 && cfg.interval >= 1
    ensures InOrder(Straddle(cfg, p))
    ensures CountIn(Accepted(cfg, Straddle(cfg, p), p), 1, 1 + cfg.interval) == 2 * cfg.limit - 1
  {
    hide Run, Accepted, CountIn, Extended, Allowed, InOrder;
    StraddleInOrder(cfg, p);
    var k, last := cfg.limit - 1, cfg.interval + 1;
    var r0, r1, r2 := Request(p, 0), Request(p, cfg.interval), Request(p, last);
    EmptyTrace(cfg, p);
    TraceStep(cfg, [], r0, p);
    OpensAllows(cfg, map[], r0);
    assert [] + [r0] == [r0];
    BurstAccepted(cfg, [r0], p, cfg.interval, k, map[], Window(1, cfg.interval));
    var t1 := Extended([r0], r1, k);
    TraceStep(cfg, t1, r2, p);
    OpensAllows(cfg, Run(cfg, t1), r2);
    BurstAccepted(cfg, t1 + [r2], p, last, k, Run(cfg, t1), Window(1, last + cfg.interval));
    assert [] + [0] == [0];
    CountNone([0], 1, last);
    ExtendedCount([0], cfg.interval, k, 1, last);
    CountOneMore(Extended([0], cfg.interval, k), last, 1, last);
    ExtendedCount(Extended([0], cfg.interval, k) + [last], last, k, 1, last);
  }

  /** The span starting at `lo`, as long as the interval, holds at most the limit. */
  ghost predicate SpanWithinLimit(cfg: Limits, trace: seq<Request>, p: string, lo: int) {
    CountIn(Accepted(cfg, trace, p), lo, lo + cfg.interval) <= Most(cfg.limit)
  }

  /** A sliding-window promise, for every trace and every span. */
  ghost predicate Sliding(cfg: Limits) {
    forall trace: seq<Request>, p: string, lo: int | InOrder(trace) :: SpanWithinLimit(cfg, trace, p, lo)
  }

  /** The limiter keeps that promise only for limits of at most one. */
  lemma SlidingIff(cfg: Limits)
    requires cfg.interval >= 1
    ensures Sliding(cfg) <==> cfg.limit <= 1
  {
    hide InOrder;
    if cfg.limit <= 1 {
      forall trace: seq<Request>, p: string, lo: int | InOrder(trace)
        ensures SpanWithinLimit(cfg, trace, p, lo)
      {
        AcceptedBound(cfg, trace, p, lo);
      }
    } else {
      BoundAttained(cfg, "p");
      assert !SpanWithinLimit(cfg, Straddle(cfg, "p"), "p", 1);
    }
  }
}
