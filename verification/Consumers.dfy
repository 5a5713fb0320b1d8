/**
 The durable consumers of functions on the JetStream server: when the server accepts a list of filters,
 and what a pass over a function's triggers leaves there.
 */
module Consumers {
  import opened Wrappers
  import opened Text
  import opened Subjects
  import opened Triggers
  import opened Routing

  // Filters that overlap

  /** The server's test for two filters of one consumer: token by token, could a subject match both? */
  predicate CollideTokens(p: seq<string>, q: seq<string>) {
    if p == [] || q == [] then p == q
    else if p == [">"] || q == [">"] then true
    else (p[0] == "*" || q[0] == "*" || p[0] == q[0]) && CollideTokens(p[1..], q[1..])
  }

  predicate Collide(f: string, g: string) {
    CollideTokens(Tokens(f), Tokens(g))
  }

  lemma {:induction false} CommonCollides(p: seq<string>, q: seq<string>, s: seq<string>)
    requires MatchTokens(p, s) && MatchTokens(q, s)
    ensures CollideTokens(p, q)
    decreases |s|
  {
    if p != [] && q != [] && p != [">"] && q != [">"] {
      CommonCollides(p[1..], q[1..], s[1..]);
    }
  }

  lemma MatchOnward(h: string, p: seq<string>, s: seq<string>)
    requires p != [] && p != [">"] && (p[0] == "*" || p[0] == h) && MatchTokens(p[1..], s)
    ensures MatchTokens(p, [h] + s)
  {
    assert ([h] + s)[1..] == s;
  }

  lemma {:induction false} CollidingCommon(p: seq<string>, q: seq<string>) returns (s: seq<string>)
    requires CollideTokens(p, q)
    ensures MatchTokens(p, s) && MatchTokens(q, s)
    decreases |p|
  {
    if p == [] || q == [] {
      s := [];
    } else if p == [">"] {
      s := q;
      MatchReflexive(q);
    } else if q == [">"] {
      s := p;
      MatchReflexive(p);
    } else {
      var rest := CollidingCommon(p[1..], q[1..]);
      var h := if p[0] == "*" then q[0] else p[0];
      MatchOnward(h, p, rest);
      MatchOnward(h, q, rest);
      s := [h] + rest;
    }
  }

  predicate Common(p: seq<string>, q: seq<string>, s: seq<string>) {
    MatchTokens(p, s) && MatchTokens(q, s)
  }

  /** The test is right: two filters collide if and only if some subject matches both. */
  lemma CollideIff(p: seq<string>, q: seq<string>)
    ensures CollideTokens(p, q) <==> exists s :: Common(p, q, s)
  {
    if CollideTokens(p, q) {
      var s := CollidingCommon(p, q);
      assert Common(p, q, s);
    }
    if s :| Common(p, q, s) {
      CommonCollides(p, q, s);
    }
  }

  /** The server refuses a consumer two of whose filters overlap. */
  predicate Accepted(filters: seq<string>) {
    forall i, j :: 0 <= i < j < |filters| ==> !Collide(filters[i], filters[j])
  }

  // The server and the pass

  datatype Place = Place(stream: string, consumer: string)

  /** Streams that exist, and the filters of the durable consumers that exist. */
  datatype Server = Server(streams: set<string>, consumers: map<Place, seq<string>>)

  /** What becomes of a call that changes the server; the reply to a call carried out may get lost. */
  datatype Reply = Answered | Lost | Unreached

  datatype Replies = Replies(info: bool, change: Reply)

  const ALL_ANSWERED: Replies := Replies(true, Answered)

  function PlaceOf(projectID: string, func: string): Place {
    Place("CDC-project-" + projectID, "func-" + func)
  }

  /** AddConsumer or UpdateConsumer: the server afterwards, and whether the caller sees success. */
  function Put(s: Server, at: Place, filters: seq<string>, r: Reply): (Server, bool) {
    if r.Unreached? || at.stream !in s.streams || !Accepted(filters) then (s, false)
    else (s.(consumers := s.consumers[at := filters]), r.Answered?)
  }

  function Drop(s: Server, at: Place, r: Reply): (Server, bool) {
    if r.Unreached? then (s, false)
    else (s.(consumers := s.consumers - {at}), r.Answered?)
  }

  function Ensured(s: Server, at: Place, filters: seq<string>, r: Replies): (Server, bool) {
    if filters == [] then (s, true)
    else if !r.info then (s, false)
    else Put(s, at, filters, r.change)
  }

  class NatsAdmin {
    var server: Server

    constructor (server: Server)
      ensures this.server == server
    {
      this.server := server;
    }

    method EnsureConsumer(at: Place, filters: seq<string>, r: Replies) returns (ok: bool)
      modifies this
      ensures (server, ok) == Ensured(old(server), at, filters, r)
    {
      if |filters| == 0 {
        return true;
      }
      if !r.info || at.stream !in server.streams {
        return false;
      }
      var put := Put(server, at, filters, r.change);
      server, ok := put.0, put.1;
    }

    /** A consumer or stream that is not there counts as removed. */
    method DeleteConsumer(at: Place, r: Reply) returns (ok: bool)
      modifies this
      ensures (server, ok) == Drop(old(server), at, r)
      ensures ok ==> at !in server.consumers
    {
      var dropped := Drop(server, at, r);
      server, ok := dropped.0, dropped.1;
    }
  }

  /** What a pass of the function leaves on the server, and whether the stage succeeds. */
  function Reconciled(s: Server, projectID: string, func: string, ts: seq<Trigger>, r: Replies): (Server, bool) {
    var at := PlaceOf(projectID, func);
    if HasEventTrigger(ts) then Ensured(s, at, FilterSubjects(projectID, ts), r) else Drop(s, at, r.change)
  }

  /** Without a configured admin the stage does nothing and succeeds. */
  method ReconcileNATSConsumer(admin: NatsAdmin?, projectID: string, func: string, ts: seq<Trigger>, r: Replies)
    returns (ok: bool)
    modifies admin
    ensures admin == null ==> ok
    ensures admin != null ==> (admin.server, ok) == Reconciled(old(admin.server), projectID, func, ts, r)
  {
    if admin == null {
      return true;
    }
    var at := PlaceOf(projectID, func);
    var hasEvent := AnyEventTrigger(ts);
    if !hasEvent {
      ok := admin.DeleteConsumer(at, r.change);
      return;
    }
    var specs: seq<ChangeSpec> := [];
    for i := 0 to |ts|
      invariant specs == ChangeSpecs(ts[..i])
      invariant admin.server == old(admin.server)
    {
      assert ts[..i + 1][..i] == ts[..i];
      if ts[i].kind == "DatabaseChange" && ts[i].change.Some? {
        specs := specs + [ts[i].change.value];
      }
    }
    assert ts[..|ts|] == ts;
    var changes := BuildFilterSubjects(DATABASE, projectID, specs);
    var events := BuildStorageFilters(projectID, ts);
    ok := admin.EnsureConsumer(at, changes + events, r);
  }

  // What a pass achieves

  /** The consumer a function should have: none without event triggers or filters. */
  function Wanted(projectID: string, ts: seq<Trigger>): seq<string> {
    if HasEventTrigger(ts) then FilterSubjects(projectID, ts) else []
  }

  function FiltersAt(s: Server, at: Place): seq<string> {
    if at in s.consumers then s.consumers[at] else []
  }

  lemma PlacesDiffer(p: string, f: string, q: string, g: string)
    ensures PlaceOf(p, f) == PlaceOf(q, g) ==> p == q && f == g
  {
    assert PlaceOf(p, f).stream[12..] == p && PlaceOf(q, g).stream[12..] == q;
    assert PlaceOf(p, f).consumer[5..] == f && PlaceOf(q, g).consumer[5..] == g;
  }

  /**
   With every call answered, a pass leaves the consumer with exactly the compiled filters unless they
   are none while an old subscription exists, when the stage succeeds all the same, or they are new and
   the server cannot take them, when it fails. Consumers of other functions stay under any answers.
   */
  lemma ConsumerMatchesIff(s: Server, projectID: string, func: string, ts: seq<Trigger>)
    ensures var (s', ok) := Reconciled(s, projectID, func, ts, ALL_ANSWERED);
      var at, filters := PlaceOf(projectID, func), FilterSubjects(projectID, ts);
      var taken := at.stream in s.streams && Accepted(filters);
      && (FiltersAt(s', at) == Wanted(projectID, ts)
          <==> FiltersAt(s, at) == Wanted(projectID, ts) || !HasEventTrigger(ts) || (filters != [] && taken))
      && (ok <==> !HasEventTrigger(ts) || filters == [] || taken)
      && (ok && FiltersAt(s', at) != Wanted(projectID, ts)
          <==> HasEventTrigger(ts) && filters == [] && FiltersAt(s, at) != [])
  {
    hide FilterSubjects, Accepted, HasEventTrigger;
  }

  lemma OthersUntouched(s: Server, projectID: string, func: string, ts: seq<Trigger>, r: Replies, p: string, f: string)
    requires p != projectID || f != func
    ensures FiltersAt(Reconciled(s, projectID, func, ts, r).0, PlaceOf(p, f)) == FiltersAt(s, PlaceOf(p, f))
  {
    hide FilterSubjects, Accepted, HasEventTrigger, PlaceOf;
    PlacesDiffer(p, f, projectID, func);
  }

  /** The stale subscription is reachable: a bucket trigger whose event list was emptied. */
  lemma EmptiedTriggerKeepsConsumer(s: Server, projectID: string, func: string, bucket: string, r: Replies)
    ensures var t := Trigger("ObjectStorage", None, Some(StorageSpec(bucket, [], "")));
      Reconciled(s, projectID, func, [t], r) == (s, true)
  {
    var t := Trigger("ObjectStorage", None, Some(StorageSpec(bucket, [], "")));
    assert [t][..0] == [];
    assert IsStorage([t][0]);
    assert !IsChange(t);
    assert StorageFilters(projectID, [t]) == [];
    assert ChangeSpecs([t]) == [];
  }

  // Which triggers the server accepts

  lemma CollideHead(a: string, ps: seq<string>, b: string, qs: seq<string>)
    requires ps != [] && qs != []
    ensures CollideTokens([a] + ps, [b] + qs) <==> (a == "*" || b == "*" || a == b) && CollideTokens(ps, qs)
  {
    assert ([a] + ps)[1..] == ps && ([b] + qs)[1..] == qs;
    assert |[a] + ps| != |[">"]| && |[b] + qs| != |[">"]|;
  }

  lemma CollideTwo(a: string, b: string, ps: seq<string>, c: string, d: string, qs: seq<string>)
    requires ps != [] && qs != []
    ensures CollideTokens([a, b] + ps, [c, d] + qs)
            <==> (a == "*" || c == "*" || a == c) && (b == "*" || d == "*" || b == d) && CollideTokens(ps, qs)
  {
    assert [a, b] + ps == [a] + ([b] + ps) && [c, d] + qs == [c] + ([d] + qs);
    hide CollideTokens;
    CollideHead(a, [b] + ps, c, [d] + qs);
    CollideHead(b, ps, d, qs);
  }

  /** Filters of the two publishers never overlap. */
  lemma KindsApart(projectID: string, o: string, n: string, o': string, n': string)
    requires NoDot(projectID)
    ensures !Collide(Compose(DATABASE, o, projectID, n), Compose(STORAGE, o', projectID, n'))
  {
    hide Tokens, Compose, CollideTokens;
    ComposedTokens(DATABASE, o, projectID, n);
    ComposedTokens(STORAGE, o', projectID, n');
    LiteralTokens();
    CollideTwo(EVENTS, Source(DATABASE), Tokens(o) + ["project-" + projectID] + Tokens(n),
               EVENTS, Source(STORAGE), Tokens(o') + ["project-" + projectID] + Tokens(n'));
  }

  predicate Word(s: string) { NoDot(s) && s != "*" && s != ">" }

  lemma WordsCollide(n: string, m: string)
    requires Word(n) && Word(m)
    ensures CollideTokens([n], [m]) <==> n == m
  {
    assert [n][1..] == [] && [m][1..] == [];
    assert [n][0] == n && [m][0] == m && [">"][0] == ">";
  }

  /** Two database filters of one project overlap exactly if table and operation do. */
  lemma ChangeFiltersCollide(projectID: string, o: string, n: string, o': string, n': string)
    requires NoDot(projectID) && NoDot(o) && NoDot(o') && Word(n) && Word(n')
    ensures Collide(Compose(DATABASE, o, projectID, n), Compose(DATABASE, o', projectID, n'))
            <==> n == n' && (o == "*" || o' == "*" || o == o')
  {
    hide Tokens, Compose, CollideTokens, Word;
    var P := "project-" + projectID;
    DotFreeTokens(DATABASE, o, projectID, n);
    DotFreeTokens(DATABASE, o', projectID, n');
    assert Tokens(n) == [n] && Tokens(n') == [n'] by { WordToken(n); WordToken(n'); }
    var src := Source(DATABASE);
    assert [EVENTS, src, o, P] + [n] == [EVENTS, src] + ([o, P] + [n]);
    assert [EVENTS, src, o', P] + [n'] == [EVENTS, src] + ([o', P] + [n']);
    CollideTwo(EVENTS, src, [o, P] + [n], EVENTS, src, [o', P] + [n']);
    CollideTwo(o, P, [n], o', P, [n']);
    WordsCollide(n, n');
  }

  lemma WordToken(n: string)
    requires Word(n)
    ensures Tokens(n) == [n]
  {
    TokensOfDotFree(n);
  }

  function Table(c: ChangeSpec): string { SanitizeSubjectToken(c.table) }

  function OperationToken(o: string): string { SanitizeSubjectToken(Lower(o)) }

  /** Both specs ask for some operation of one table. */
  predicate Meet(c: ChangeSpec, d: ChangeSpec) {
    && Table(c) == Table(d)
    && (c.operations == [] || d.operations == []
        || exists o, p :: o in c.operations && p in d.operations && OperationToken(o) == OperationToken(p))
  }

  predicate OperationsApart(ops: seq<string>) {
    forall i, j :: 0 <= i < j < |ops| ==> OperationToken(ops[i]) != OperationToken(ops[j])
  }

  /** No spec repeats an operation, and no two ask for the same operation of the same table. */
  predicate ChangesApart(cs: seq<ChangeSpec>) {
    && (forall i :: 0 <= i < |cs| ==> OperationsApart(cs[i].operations))
    && (forall i, j :: 0 <= i < j < |cs| ==> !Meet(cs[i], cs[j]))
  }

  predicate Across(xs: seq<string>, ys: seq<string>) {
    exists f, g :: f in xs && g in ys && Collide(f, g)
  }

  lemma AcceptedJoin(xs: seq<string>, ys: seq<string>)
    ensures Accepted(xs + ys) <==> Accepted(xs) && Accepted(ys) && !Across(xs, ys)
  {
    hide Collide;
    var zs := xs + ys;
    if Accepted(zs) {
      assert forall i :: 0 <= i < |ys| ==> ys[i] == zs[|xs| + i];
      assert forall i :: 0 <= i < |xs| ==> xs[i] == zs[i];
    }
    if Accepted(xs) && Accepted(ys) && !Across(xs, ys) {
      forall i, j | 0 <= i < j < |zs|
        ensures !Collide(zs[i], zs[j])
      {
        assert zs[i] == if i < |xs| then xs[i] else ys[i - |xs|];
        assert zs[j] == if j < |xs| then xs[j] else ys[j - |xs|];
      }
    }
  }

  lemma TokenIsWord(s: string)
    ensures Word(SanitizeSubjectToken(s)) && NoDot(SanitizeSubjectToken(s))
  {
    SanitizedIsLiteral(s);
  }

  /** One trigger's filters overlap exactly if it repeats an operation. */
  lemma {:induction false} OperationsAcceptedIff(projectID: string, ops: seq<string>, table: string)
    requires NoDot(projectID) && Word(table)
    ensures Accepted(OperationFilters(DATABASE, projectID, ops, table)) <==> OperationsApart(ops)
    decreases |ops|
  {
    hide Word, SanitizeSubjectToken, Lower, Collide, Compose;
    if ops != [] {
      var init, last := ops[..|ops| - 1], ops[|ops| - 1];
      var f := Compose(DATABASE, OperationToken(last), projectID, table);
      OperationsAcceptedIff(projectID, init, table);
      AcceptedJoin(OperationFilters(DATABASE, projectID, init, table), [f]);
      forall o
        ensures Compose(DATABASE, OperationToken(o), projectID, table) in OperationFilters(DATABASE, projectID, init, table) <== o in init
        ensures Collide(Compose(DATABASE, OperationToken(o), projectID, table), f) <==> OperationToken(o) == OperationToken(last)
      {
        OperationFiltersHold(DATABASE, projectID, init, table, Compose(DATABASE, OperationToken(o), projectID, table));
        TokenIsWord(Lower(o));
        TokenIsWord(Lower(last));
        OperationCollides(projectID, o, last, table);
      }
      forall g | g in OperationFilters(DATABASE, projectID, init, table)
        ensures exists o :: o in init && g == Compose(DATABASE, OperationToken(o), projectID, table)
      {
        OperationFiltersHold(DATABASE, projectID, init, table, g);
      }
      hide OperationToken;
      assert Across(OperationFilters(DATABASE, projectID, init, table), [f])
        <==> exists o :: o in init && OperationToken(o) == OperationToken(last);
    }
  }

  lemma OperationCollides(projectID: string, o: string, p: string, table: string)
    requires NoDot(projectID) && Word(table)
    ensures Collide(Compose(DATABASE, OperationToken(o), projectID, table), Compose(DATABASE, OperationToken(p), projectID, table))
            <==> OperationToken(o) == OperationToken(p)
  {
    TokenIsWord(Lower(o));
    TokenIsWord(Lower(p));
    ChangeFiltersCollide(projectID, OperationToken(o), table, OperationToken(p), table);
  }

  /** One spec's filters overlap exactly if it repeats an operation. */
  lemma SpecAcceptedIff(projectID: string, c: ChangeSpec)
    requires NoDot(projectID)
    ensures Accepted(ChangeFilters(DATABASE, projectID, c)) <==> OperationsApart(c.operations)
  {
    TokenIsWord(c.table);
    hide Word, SanitizeSubjectToken, Collide, Compose;
    if c.operations != [] {
      OperationsAcceptedIff(projectID, c.operations, Table(c));
    }
  }

  /** The operation tokens of a spec's filters. */
  ghost predicate Asks(c: ChangeSpec, token: string) {
    if c.operations == [] then token == "*" else exists o :: o in c.operations && token == OperationToken(o)
  }

  lemma AsksHold(projectID: string, c: ChangeSpec, f: string)
    ensures f in ChangeFilters(DATABASE, projectID, c)
            <==> exists token :: Asks(c, token) && f == Compose(DATABASE, token, projectID, Table(c))
  {
    hide Compose, SanitizeSubjectToken, Lower;
    if c.operations != [] {
      OperationFiltersHold(DATABASE, projectID, c.operations, Table(c), f);
      forall o | o in c.operations
        ensures Asks(c, OperationToken(o))
      {
      }
    } else {
      assert Asks(c, "*");
    }
  }

  lemma AskedToken(c: ChangeSpec, token: string)
    requires Asks(c, token)
    ensures NoDot(token) && (token == "*" <==> c.operations == [])
  {
    hide SanitizeSubjectToken, Lower;
    LiteralTokens();
    if c.operations != [] {
      var o :| o in c.operations && token == OperationToken(o);
      TokenIsWord(Lower(o));
    }
  }

  lemma SomethingAsked(c: ChangeSpec) returns (token: string)
    ensures Asks(c, token)
  {
    hide OperationToken;
    token := if c.operations == [] then "*" else OperationToken(c.operations[0]);
  }

  /** The filters of two specs overlap exactly if the specs meet. */
  lemma MeetIff(projectID: string, c: ChangeSpec, d: ChangeSpec)
    requires NoDot(projectID)
    ensures Across(ChangeFilters(DATABASE, projectID, c), ChangeFilters(DATABASE, projectID, d)) <==> Meet(c, d)
  {
    hide ChangeFilters, Collide, Compose, OperationToken, Word;
    TokenIsWord(c.table);
    TokenIsWord(d.table);
    if Meet(c, d) {
      var a, b;
      if c.operations != [] && d.operations != [] {
        var o, p :| o in c.operations && p in d.operations && OperationToken(o) == OperationToken(p);
        a, b := OperationToken(o), OperationToken(p);
      } else {
        a := SomethingAsked(c);
        b := SomethingAsked(d);
      }
      var f, g := Compose(DATABASE, a, projectID, Table(c)), Compose(DATABASE, b, projectID, Table(d));
      AsksHold(projectID, c, f);
      AsksHold(projectID, d, g);
      AskedToken(c, a);
      AskedToken(d, b);
      ChangeFiltersCollide(projectID, a, Table(c), b, Table(d));
      assert f in ChangeFilters(DATABASE, projectID, c) && g in ChangeFilters(DATABASE, projectID, d) && Collide(f, g);
    }
    if f, g :| f in ChangeFilters(DATABASE, projectID, c) && g in ChangeFilters(DATABASE, projectID, d) && Collide(f, g) {
      AsksHold(projectID, c, f);
      AsksHold(projectID, d, g);
      var a :| Asks(c, a) && f == Compose(DATABASE, a, projectID, Table(c));
      var b :| Asks(d, b) && g == Compose(DATABASE, b, projectID, Table(d));
      AskedToken(c, a);
      AskedToken(d, b);
      ChangeFiltersCollide(projectID, a, Table(c), b, Table(d));
    }
  }

  /** The filters of database triggers are accepted exactly if the triggers are apart. */
  lemma {:induction false} ChangesAcceptedIff(projectID: string, cs: seq<ChangeSpec>)
    requires NoDot(projectID)
    ensures Accepted(AllChangeFilters(DATABASE, projectID, cs)) <==> ChangesApart(cs)
    decreases |cs|
  {
    hide Accepted, Across, OperationsApart, Meet, ChangeFilters;
    if cs == [] {
      NoneRefused();
    } else {
      var init, last := cs[..|cs| - 1], cs[|cs| - 1];
      var early := AllChangeFilters(DATABASE, projectID, init);
      var late := ChangeFilters(DATABASE, projectID, last);
      ChangesAcceptedIff(projectID, init);
      AcceptedJoin(early, late);
      SpecAcceptedIff(projectID, last);
      AcrossAny(projectID, init, late);
      forall c
        ensures Across(ChangeFilters(DATABASE, projectID, c), late) <==> Meet(c, last)
      {
        MeetIff(projectID, c, last);
      }
      ApartLast(init, last);
      assert cs == init + [last];
    }
  }

  lemma NoneRefused()
    ensures Accepted([])
  {
  }

  lemma AcrossAny(projectID: string, cs: seq<ChangeSpec>, late: seq<string>)
    ensures Across(AllChangeFilters(DATABASE, projectID, cs), late)
            <==> exists c :: c in cs && Across(ChangeFilters(DATABASE, projectID, c), late)
  {
    hide AllChangeFilters, ChangeFilters, Collide;
    var early := AllChangeFilters(DATABASE, projectID, cs);
    if f, g :| f in early && g in late && Collide(f, g) {
      AllChangeFiltersHold(DATABASE, projectID, cs, f);
      var c :| c in cs && f in ChangeFilters(DATABASE, projectID, c);
      assert Across(ChangeFilters(DATABASE, projectID, c), late);
    }
    forall c, f, g | c in cs && f in ChangeFilters(DATABASE, projectID, c) && g in late && Collide(f, g)
      ensures Across(early, late)
    {
      AllChangeFiltersHold(DATABASE, projectID, cs, f);
    }
  }

  lemma ApartLast(init: seq<ChangeSpec>, last: ChangeSpec)
    ensures ChangesApart(init + [last])
            <==> ChangesApart(init) && OperationsApart(last.operations) && !exists c :: c in init && Meet(c, last)
  {
    hide OperationsApart, Meet;
    var cs := init + [last];
    assert cs[|init|] == last && forall i :: 0 <= i < |init| ==> cs[i] == init[i];
    if ChangesApart(cs) {
      forall i | 0 <= i < |init|
        ensures OperationsApart(init[i].operations) && !Meet(init[i], last)
      {
        assert OperationsApart(cs[i].operations) && !Meet(cs[i], cs[|init|]);
      }
      forall i, j | 0 <= i < j < |init|
        ensures !Meet(init[i], init[j])
      {
        assert !Meet(cs[i], cs[j]);
      }
      assert OperationsApart(cs[|init|].operations);
    }
  }

  lemma StorageFilterShape(projectID: string, ts: seq<Trigger>, g: string)
    requires g in StorageFilters(projectID, ts)
    ensures exists o, b :: g == Compose(STORAGE, o, projectID, b)
  {
    hide Compose, EventFilters, StorageEventToOp;
    StorageFiltersHold(projectID, ts, g);
    var t :| t in ts && g in TriggerStorageFilters(projectID, t);
    EventFiltersHold(projectID, t.storage.value.bucket, t.storage.value.events, g);
  }

  /**
   The server takes the filters of a function if and only if its database triggers are apart and its
   storage filters are.
   */
  lemma AcceptedIff(projectID: string, ts: seq<Trigger>)
    requires NoDot(projectID)
    ensures Accepted(FilterSubjects(projectID, ts))
            <==> ChangesApart(ChangeSpecs(ts)) && Accepted(StorageFilters(projectID, ts))
  {
    hide Accepted, ChangesApart, AllChangeFilters, StorageFilters, ChangeSpecs, Collide, Compose;
    var changes, events := AllChangeFilters(DATABASE, projectID, ChangeSpecs(ts)), StorageFilters(projectID, ts);
    AcceptedJoin(changes, events);
    ChangesAcceptedIff(projectID, ChangeSpecs(ts));
    forall f, g | f in changes && g in events
      ensures !Collide(f, g)
    {
      AllChangeFiltersHold(DATABASE, projectID, ChangeSpecs(ts), f);
      var c :| c in ChangeSpecs(ts) && f in ChangeFilters(DATABASE, projectID, c);
      AsksHold(projectID, c, f);
      var a :| Asks(c, a) && f == Compose(DATABASE, a, projectID, Table(c));
      StorageFilterShape(projectID, ts, g);
      var o, b :| g == Compose(STORAGE, o, projectID, b);
      KindsApart(projectID, a, Table(c), o, b);
    }
  }

  /** Refusal is reachable: two triggers on one table, and the consumer is never made whatever is answered. */
  lemma RepeatedTableRefused(s: Server, projectID: string, func: string, c: ChangeSpec, d: ChangeSpec, r: Replies)
    requires NoDot(projectID) && Meet(c, d)
    ensures var ts := [Trigger("DatabaseChange", Some(c), None), Trigger("DatabaseChange", Some(d), None)];
      Reconciled(s, projectID, func, ts, r) == (s, false)
  {
    var t, u := Trigger("DatabaseChange", Some(c), None), Trigger("DatabaseChange", Some(d), None);
    var ts := [t, u];
    assert ts[..1] == [t] && [t][..0] == [];
    assert IsChange(ts[0]);
    assert ChangeSpecs([t]) == [c] && ChangeSpecs(ts) == [c, d];
    assert [c, d][0] == c && [c, d][1] == d;
    hide ChangeSpecs, Meet, Accepted, StorageFilters, AllChangeFilters;
    AcceptedIff(projectID, ts);
    NoneRefused();
  }

  /** After a pass the server accepted, the function gets exactly the row changes its triggers name. */
  lemma PassSubscribes(s: Server, projectID: string, func: string, apis: seq<ApiTrigger>, op: string, table: string)
    requires AllSet(apis) && NoDot(projectID) && IsWalOperation(op) && "CDC-project-" + projectID in s.streams
    requires var ts := Transported(ConvertAll(StoredAll(apis)));
      HasEventTrigger(ts) && FilterSubjects(projectID, ts) != [] && Accepted(FilterSubjects(projectID, ts))
    ensures var ts := Transported(ConvertAll(StoredAll(apis)));
      var (s', ok) := Reconciled(s, projectID, func, ts, ALL_ANSWERED);
      ok && (AnyMatch(FiltersAt(s', PlaceOf(projectID, func)), CdcSubject(DATABASE, projectID, op, table))
             <==> exists t :: t in apis && NamesChange(t, op, table))
  {
    RoutesDatabaseChange(projectID, apis, op, table);
    hide Accepted, FilterSubjects, AnyMatch, NamesChange, HasEventTrigger, Transported, ConvertAll, StoredAll, CdcSubject;
  }
}
