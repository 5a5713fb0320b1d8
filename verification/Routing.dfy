/**
 What trigger compilation means: which published subjects reach a function's consumer, and which
 stream owns a subject. Relates both publishers, the compiled filters and the stream definitions.
 */
module Routing {
  import opened Wrappers
  import opened Text
  import opened Subjects
  import opened Triggers

  ghost predicate AnyMatch(filters: seq<string>, subject: string) {
    exists f :: f in filters && Matches(f, subject)
  }

  // Token-level matching of composed subjects

  lemma MatchHead(p: string, ps: seq<string>, s: seq<string>)
    requires ps != []
    ensures MatchTokens([p] + ps, s) <==> s != [] && (p == "*" || p == s[0]) && MatchTokens(ps, s[1..])
  {
    assert ([p] + ps)[1..] == ps;
    assert |[p] + ps| != |[">"]|;
  }

  lemma MatchTwo(a: string, b: string, ps: seq<string>, s: seq<string>)
    requires ps != []
    ensures MatchTokens([a, b] + ps, s)
            <==> |s| >= 2 && (a == "*" || a == s[0]) && (b == "*" || b == s[1]) && MatchTokens(ps, s[2..])
  {
    hide MatchTokens;
    assert [a, b] + ps == [a] + ([b] + ps);
    MatchHead(a, [b] + ps, s);
    if s != [] {
      MatchHead(b, ps, s[1..]);
      if |s| >= 2 {
        assert s[1..][1..] == s[2..];
      }
    }
  }

  lemma MatchFour(a: string, b: string, c: string, d: string, ps: seq<string>, s: seq<string>)
    requires ps != []
    ensures MatchTokens([a, b, c, d] + ps, s)
            <==> |s| >= 4 && (a == "*" || a == s[0]) && (b == "*" || b == s[1])
                 && (c == "*" || c == s[2]) && (d == "*" || d == s[3]) && MatchTokens(ps, s[4..])
  {
    hide MatchTokens;
    assert [a, b, c, d] + ps == [a, b] + ([c, d] + ps);
    MatchTwo(a, b, [c, d] + ps, s);
    if |s| >= 2 {
      MatchTwo(c, d, ps, s[2..]);
      if |s| >= 4 {
        assert s[2..][2..] == s[4..];
      }
    }
  }

  lemma ComposedTokens(prefix: string, op: string, projectID: string, name: string)
    requires prefix == DATABASE || prefix == STORAGE
    requires NoDot(projectID)
    ensures Tokens(Compose(prefix, op, projectID, name))
            == [EVENTS, Source(prefix)] + (Tokens(op) + ["project-" + projectID] + Tokens(name))
  {
    hide Tokens, Compose, Source;
    TokensOfCompose(prefix, op, projectID, name);
    PrefixTokens(prefix);
    TokensOfDotFree("project-" + projectID);
  }

  lemma DotFreeTokens(prefix: string, op: string, projectID: string, name: string)
    requires prefix == DATABASE || prefix == STORAGE
    requires NoDot(projectID) && NoDot(op)
    ensures Tokens(Compose(prefix, op, projectID, name))
            == [EVENTS, Source(prefix), op, "project-" + projectID] + Tokens(name)
  {
    hide Tokens, Compose, Source;
    ComposedTokens(prefix, op, projectID, name);
    TokensOfDotFree(op);
  }

  /** A composed filter matches a composed subject token by token. */
  lemma ComposeMatches(prefix: string, op: string, p: string, name: string,
                       prefix': string, op': string, p': string, name': string)
    requires prefix == DATABASE || prefix == STORAGE
    requires prefix' == DATABASE || prefix' == STORAGE
    requires NoDot(op) && NoDot(op') && NoDot(p) && NoDot(p')
    ensures Matches(Compose(prefix, op, p, name), Compose(prefix', op', p', name'))
            <==> prefix == prefix' && (op == "*" || op == op') && p == p' && MatchTokens(Tokens(name), Tokens(name'))
  {
    hide Tokens, Compose, MatchTokens;
    DotFreeTokens(prefix, op, p, name);
    DotFreeTokens(prefix', op', p', name');
    LiteralTokens();
    ProjectTokens(p, p');
    var s := [EVENTS, Source(prefix'), op', "project-" + p'] + Tokens(name');
    MatchFour(EVENTS, Source(prefix), op, "project-" + p, Tokens(name), s);
    assert s[4..] == Tokens(name');
  }

  lemma ProjectTokens(p: string, q: string)
    ensures "project-" + p != "*"
    ensures "project-" + p == "project-" + q <==> p == q
  {
    assert ("project-" + p)[0] == 'p';
    assert ("project-" + p)[8..] == p && ("project-" + q)[8..] == q;
  }

  lemma {:induction false} SingleToken(s: string)
    ensures |Tokens(s)| == 1 <==> NoDot(s)
    ensures |Tokens(s)| == 1 ==> Tokens(s) == [s]
  {
    if s != "" {
      SingleToken(s[1..]);
      assert s == [s[0]] + s[1..];
    }
  }

  /** A dot-free name that is no wildcard matches only itself. */
  lemma LiteralNameMatches(name: string, other: string)
    requires NoDot(name) && name != "*" && name != ">"
    ensures MatchTokens(Tokens(name), Tokens(other)) <==> name == other
  {
    SingleToken(name);
    SingleToken(other);
    var ts := Tokens(other);
    assert [name][1..] == [];
    if ts == [name] {
      SingleToken(other);
    } else if |ts| == 1 {
      assert ts[1..] == [];
    } else {
      assert ts[1..] != [];
    }
  }

  lemma SanitizedIsLiteral(s: string)
    ensures var t := SanitizeSubjectToken(s); NoDot(t) && t != "*" && t != ">"
  {
    var t := SanitizeSubjectToken(s);
    if |s| == 1 {
      assert t[0] == SanitizeChar(s[0]);
      assert t[0] != "*"[0] && t[0] != ">"[0];
    }
  }

  /** Sanitizing yields a plain word only from that word. */
  lemma SanitizedWord(s: string, word: string)
    requires '_' !in word
    ensures SanitizeSubjectToken(s) == word ==> s == word
  {
    if SanitizeSubjectToken(s) == word {
      forall i | 0 <= i < |s|
        ensures s[i] == word[i]
      {
        assert word[i] == SanitizeChar(s[i]);
      }
    }
  }

  // Membership of the compiled filters

  lemma {:induction false} OperationFiltersHold(prefix: string, projectID: string, ops: seq<string>, table: string, f: string)
    ensures f in OperationFilters(prefix, projectID, ops, table)
            <==> exists o :: o in ops && f == Compose(prefix, SanitizeSubjectToken(Lower(o)), projectID, table)
  {
    hide Compose, SanitizeSubjectToken, Lower;
    if ops != [] {
      OperationFiltersHold(prefix, projectID, ops[..|ops| - 1], table, f);
      assert ops == ops[..|ops| - 1] + [ops[|ops| - 1]];
    }
  }

  lemma {:induction false} EventFiltersHold(projectID: string, bucket: string, events: seq<string>, f: string)
    ensures f in EventFilters(projectID, bucket, events)
            <==> exists e :: e in events && f == Compose(STORAGE, StorageEventToOp(e), projectID, bucket)
  {
    hide Compose, StorageEventToOp;
    if events != [] {
      EventFiltersHold(projectID, bucket, events[..|events| - 1], f);
      assert events == events[..|events| - 1] + [events[|events| - 1]];
    }
  }

  lemma {:induction false} AllChangeFiltersHold(prefix: string, projectID: string, cs: seq<ChangeSpec>, f: string)
    ensures f in AllChangeFilters(prefix, projectID, cs)
            <==> exists c :: c in cs && f in ChangeFilters(prefix, projectID, c)
  {
    if cs != [] {
      AllChangeFiltersHold(prefix, projectID, cs[..|cs| - 1], f);
      assert cs == cs[..|cs| - 1] + [cs[|cs| - 1]];
    }
  }

  lemma {:induction false} ChangeSpecsHold(ts: seq<Trigger>, c: ChangeSpec)
    ensures c in ChangeSpecs(ts) <==> exists t :: t in ts && IsChange(t) && t.change.value == c
  {
    if ts != [] {
      ChangeSpecsHold(ts[..|ts| - 1], c);
      assert ts == ts[..|ts| - 1] + [ts[|ts| - 1]];
    }
  }

  lemma {:induction false} StorageFiltersHold(projectID: string, ts: seq<Trigger>, f: string)
    ensures f in StorageFilters(projectID, ts)
            <==> exists t :: t in ts && f in TriggerStorageFilters(projectID, t)
  {
    hide TriggerStorageFilters;
    if ts != [] {
      StorageFiltersHold(projectID, ts[..|ts| - 1], f);
      assert ts == ts[..|ts| - 1] + [ts[|ts| - 1]];
    }
  }

  /** The Function resource's form of an API trigger. */
  function Resource(t: ApiTrigger): Trigger
    requires !t.Unset?
  {
    ConvertTriggerToCRD(Stored(t)).value
  }

  lemma {:induction false} StoredEach(apis: seq<ApiTrigger>, i: nat)
    requires AllSet(apis) && i < |apis|
    ensures StoredAll(apis)[i] == Stored(apis[i])
  {
    if i < |apis| - 1 {
      StoredEach(apis[..|apis| - 1], i);
    }
  }

  lemma {:induction false} ConvertEach(ts: seq<Trigger>)
    requires forall i :: 0 <= i < |ts| ==> ConvertTriggerToCRD(ts[i]).Some?
    ensures |ConvertAll(ts)| == |ts|
    ensures forall i :: 0 <= i < |ts| ==> ConvertAll(ts)[i] == ConvertTriggerToCRD(ts[i]).value
  {
    if ts != [] {
      ConvertEach(ts[1..]);
    }
  }

  /** Everything the API trigger says is in the Function resource, and nothing else. */
  predicate Arrives(api: ApiTrigger, t: Trigger)
    requires !api.Unset?
  {
    && (api.DatabaseChange? ==>
          && t.kind == "DatabaseChange" && t.storage.None? && t.change.Some?
          && t.change.value.table == api.table && t.change.value.operations == api.events
          && t.change.value.filter == api.filter && t.change.value.includeColumns == api.includeColumns)
    && (api.ObjectStorage? ==>
          && t.kind == "ObjectStorage" && t.change.None? && t.storage.Some?
          && t.storage.value.bucket == api.bucket && t.storage.value.events == api.events
          && t.storage.value.prefix == api.prefix)
  }

  lemma ResourceArrives(api: ApiTrigger)
    requires !api.Unset?
    ensures Arrives(api, Resource(api))
  {
  }

  /** No stage drops, adds or reorders a trigger, or changes a field of it. */
  lemma StagesPreserveTriggers(apis: seq<ApiTrigger>)
    requires AllSet(apis)
    ensures var ts := Transported(ConvertAll(StoredAll(apis)));
      |ts| == |apis| && forall i :: 0 <= i < |apis| ==> ts[i] == Resource(apis[i]) && Arrives(apis[i], ts[i])
  {
    forall i | 0 <= i < |apis|
      ensures Arrives(apis[i], Resource(apis[i]))
    {
      ResourceArrives(apis[i]);
    }
    hide Arrives;
    var stored := StoredAll(apis);
    forall i | 0 <= i < |apis|
      ensures stored[i] == Stored(apis[i])
    {
      StoredEach(apis, i);
    }
    ConvertEach(stored);
    TransportedIsIdentity(ConvertAll(stored));
  }

  /** The filters one API trigger contributes. */
  function FiltersOf(projectID: string, t: ApiTrigger): seq<string>
    requires !t.Unset?
  {
    match t
    case DatabaseChange(table, events, filter, cols) =>
      ChangeFilters(DATABASE, projectID, ChangeSpec(table, events, filter, cols))
    case ObjectStorage(bucket, events, _) => EventFilters(projectID, bucket, events)
  }

  lemma CompiledHold(projectID: string, apis: seq<ApiTrigger>, f: string)
    requires AllSet(apis)
    ensures f in Compiled(projectID, apis) <==> exists t :: t in apis && !t.Unset? && f in FiltersOf(projectID, t)
  {
    hide Transported, ConvertAll, StoredAll, AllChangeFilters, ChangeSpecs, StorageFilters, ChangeFilters, EventFilters;
    var ts := Transported(ConvertAll(StoredAll(apis)));
    StagesPreserveTriggers(apis);
    var cs := ChangeSpecs(ts);
    AllChangeFiltersHold(DATABASE, projectID, cs, f);
    StorageFiltersHold(projectID, ts, f);
    forall c | c in cs
      ensures exists t :: t in apis && t.DatabaseChange? && Resource(t).change.value == c
    {
      ChangeSpecsHold(ts, c);
      var r :| r in ts && IsChange(r) && r.change.value == c;
      var i :| 0 <= i < |ts| && ts[i] == r;
      assert apis[i] in apis && Resource(apis[i]) == r;
      ResourceKind(apis[i]);
    }
    forall i | 0 <= i < |apis|
      ensures ts[i] in ts && ts[i] == Resource(apis[i])
      ensures apis[i].DatabaseChange? ==> Resource(apis[i]).change.value in cs
    {
      ResourceKind(apis[i]);
      if apis[i].DatabaseChange? {
        ChangeSpecsHold(ts, Resource(apis[i]).change.value);
      }
    }
    forall t | t in apis && !t.Unset?
      ensures IsStorage(Resource(t)) <==> t.ObjectStorage?
    {
      ResourceKind(t);
    }
  }

  lemma ResourceKind(t: ApiTrigger)
    requires !t.Unset?
    ensures IsChange(Resource(t)) <==> t.DatabaseChange?
    ensures IsStorage(Resource(t)) <==> t.ObjectStorage?
  {
    assert "database_change"[0] != "object_storage"[0];
    assert "DatabaseChange"[0] != "ObjectStorage"[0];
  }

  // Routing

  predicate IsWalOperation(op: string) { op == "INSERT" || op == "UPDATE" || op == "DELETE" }

  /** The name with each dot, star, angle bracket and space turned into an underscore. */
  predicate Sanitized(name: string, token: string) {
    && |name| == |token|
    && forall i :: 0 <= i < |name| ==>
         token[i] == if name[i] in ['.', '*', '>', ' '] then '_' else name[i]
  }

  lemma SanitizedIs(name: string, token: string)
    ensures SanitizeSubjectToken(name) == token <==> Sanitized(name, token)
  {
    var s := SanitizeSubjectToken(name);
    forall i | 0 <= i < |name|
      ensures s[i] == if name[i] in ['.', '*', '>', ' '] then '_' else name[i]
    {
      assert s[i] == SanitizeChar(name[i]);
    }
  }

  /** The trigger asks for this operation on this table, in whatever letter case, or for all. */
  ghost predicate NamesChange(t: ApiTrigger, op: string, table: string) {
    && t.DatabaseChange? && Sanitized(t.table, table)
    && (t.events == [] || exists e :: e in t.events && Lower(e) == Lower(op))
  }

  lemma WalOperationToken(op: string)
    requires IsWalOperation(op)
    ensures OperationToSubject(op) == Lower(op)
    ensures NoDot(Lower(op)) && '_' !in Lower(op) && Lower(op) != "*"
  {
    assert Upper("INSERT") == "INSERT" && Upper("UPDATE") == "UPDATE" && Upper("DELETE") == "DELETE";
    assert Lower("INSERT") == "insert" && Lower("UPDATE") == "update" && Lower("DELETE") == "delete";
    assert "INSERT"[0] != "UPDATE"[0] && "INSERT"[0] != "DELETE"[0] && "UPDATE"[0] != "DELETE"[0];
  }

  lemma ChangeTriggerMatches(projectID: string, t: ApiTrigger, op: string, table: string)
    requires t.DatabaseChange? && NoDot(projectID) && IsWalOperation(op)
    ensures AnyMatch(FiltersOf(projectID, t), CdcSubject(DATABASE, projectID, op, table)) <==> NamesChange(t, op, table)
  {
    SanitizedIs(t.table, table);
    var name, o := SanitizeSubjectToken(t.table), Lower(op);
    hide OperationFilters, Compose, Matches, Tokens, MatchTokens, Sanitized, SanitizeSubjectToken, Lower, OperationToSubject;
    WalOperationToken(op);
    SanitizedIsLiteral(t.table);
    LiteralNameMatches(name, table);
    if t.events == [] {
      assert NoDot("*");
      ComposeMatches(DATABASE, "*", projectID, name, DATABASE, o, projectID, table);
      assert Compose(DATABASE, "*", projectID, name) in FiltersOf(projectID, t);
    } else {
      forall e | e in t.events
        ensures Matches(Compose(DATABASE, SanitizeSubjectToken(Lower(e)), projectID, name),
                        Compose(DATABASE, o, projectID, table))
                <==> Lower(e) == o && name == table
        ensures Compose(DATABASE, SanitizeSubjectToken(Lower(e)), projectID, name) in FiltersOf(projectID, t)
      {
        EventFilterMatches(projectID, e, name, op, table);
        OperationFiltersHold(DATABASE, projectID, t.events, name,
                             Compose(DATABASE, SanitizeSubjectToken(Lower(e)), projectID, name));
      }
      forall f | f in FiltersOf(projectID, t)
        ensures exists e :: e in t.events && f == Compose(DATABASE, SanitizeSubjectToken(Lower(e)), projectID, name)
      {
        OperationFiltersHold(DATABASE, projectID, t.events, name, f);
      }
    }
  }

  lemma EventFilterMatches(projectID: string, e: string, name: string, op: string, table: string)
    requires NoDot(projectID) && IsWalOperation(op) && NoDot(name) && name != "*" && name != ">"
    ensures Matches(Compose(DATABASE, SanitizeSubjectToken(Lower(e)), projectID, name),
                    Compose(DATABASE, Lower(op), projectID, table))
            <==> Lower(e) == Lower(op) && name == table
  {
    hide *;
    WalOperationToken(op);
    WalOperationClean(op);
    SanitizedIsLiteral(Lower(e));
    SanitizedWord(Lower(e), Lower(op));
    ComposeMatches(DATABASE, SanitizeSubjectToken(Lower(e)), projectID, name, DATABASE, Lower(op), projectID, table);
    LiteralNameMatches(name, table);
  }

  lemma WalOperationClean(op: string)
    requires IsWalOperation(op)
    ensures SanitizeSubjectToken(Lower(op)) == Lower(op)
  {
    SanitizedWordFixed(Lower(op));
    hide SanitizeSubjectToken;
  }

  /** Clean tokens are untouched by sanitizing. */
  lemma SanitizedWordFixed(s: string)
    ensures SanitizeSubjectToken(s) == s <==> '.' !in s && '*' !in s && '>' !in s && ' ' !in s
  {
    if SanitizeSubjectToken(s) == s {
      forall i | 0 <= i < |s|
        ensures s[i] != '.' && s[i] != '*' && s[i] != '>' && s[i] != ' '
      {
        assert s[i] == SanitizeChar(s[i]);
      }
    }
  }

  lemma StorageTriggerIgnoresDatabase(projectID: string, t: ApiTrigger, subject: string, op: string, table: string)
    requires t.ObjectStorage? && NoDot(projectID) && NoDot(op)
    requires subject == Compose(DATABASE, op, projectID, table)
    ensures !AnyMatch(FiltersOf(projectID, t), subject)
  {
    forall f | f in FiltersOf(projectID, t)
      ensures !Matches(f, subject)
    {
      EventFiltersHold(projectID, t.bucket, t.events, f);
      var e :| e in t.events && f == Compose(STORAGE, StorageEventToOp(e), projectID, t.bucket);
      SecondTokenDiffers(STORAGE, StorageEventToOp(e), projectID, t.bucket, DATABASE, op, projectID, table);
    }
  }

  lemma SecondTokenDiffers(prefix: string, op: string, p: string, name: string,
                           prefix': string, op': string, p': string, name': string)
    requires prefix == DATABASE || prefix == STORAGE
    requires prefix' == DATABASE || prefix' == STORAGE
    requires prefix != prefix' && NoDot(p) && NoDot(p')
    ensures !Matches(Compose(prefix, op, p, name), Compose(prefix', op', p', name'))
  {
    hide Tokens, Compose, MatchTokens;
    ComposedTokens(prefix, op, p, name);
    ComposedTokens(prefix', op', p', name');
    LiteralTokens();
    var rest, rest' := Tokens(op) + ["project-" + p] + Tokens(name), Tokens(op') + ["project-" + p'] + Tokens(name');
    MatchTwo(EVENTS, Source(prefix), rest, [EVENTS, Source(prefix')] + rest');
  }

  /**
   A row change of any table reaches a function if and only if one of its API triggers names that
   table with that operation. The name is compared after sanitizing the trigger's side only.
   */
  lemma RoutesDatabaseChange(projectID: string, apis: seq<ApiTrigger>, op: string, table: string)
    requires AllSet(apis) && NoDot(projectID) && IsWalOperation(op)
    ensures AnyMatch(Compiled(projectID, apis), CdcSubject(DATABASE, projectID, op, table))
            <==> exists t :: t in apis && NamesChange(t, op, table)
  {
    hide Compiled, FiltersOf, NamesChange, Matches, Compose;
    var subject := CdcSubject(DATABASE, projectID, op, table);
    WalOperationToken(op);
    forall t | t in apis && !t.Unset?
      ensures AnyMatch(FiltersOf(projectID, t), subject) <==> NamesChange(t, op, table)
    {
      if t.DatabaseChange? {
        ChangeTriggerMatches(projectID, t, op, table);
      } else {
        StorageTriggerIgnoresDatabase(projectID, t, subject, Lower(op), table);
        assert !NamesChange(t, op, table) by { StorageNamesNoChange(t, op, table); }
      }
    }
    AnyTriggerMatches(projectID, apis, subject);
  }

  lemma StorageNamesNoChange(t: ApiTrigger, op: string, table: string)
    requires !t.DatabaseChange?
    ensures !NamesChange(t, op, table)
  {
  }

  lemma AnyTriggerMatches(projectID: string, apis: seq<ApiTrigger>, subject: string)
    requires AllSet(apis)
    ensures AnyMatch(Compiled(projectID, apis), subject)
            <==> exists t :: t in apis && !t.Unset? && AnyMatch(FiltersOf(projectID, t), subject)
  {
    hide Compiled, FiltersOf, Matches;
    if AnyMatch(Compiled(projectID, apis), subject) {
      var f :| f in Compiled(projectID, apis) && Matches(f, subject);
      CompiledHold(projectID, apis, f);
    }
    forall t | t in apis && !t.Unset? && AnyMatch(FiltersOf(projectID, t), subject)
      ensures AnyMatch(Compiled(projectID, apis), subject)
    {
      var f :| f in FiltersOf(projectID, t) && Matches(f, subject);
      CompiledHold(projectID, apis, f);
    }
  }

  /** A trigger receives the table it names if and only if sanitizing leaves that name alone. */
  lemma OwnTableReceived(projectID: string, t: ApiTrigger, op: string)
    requires t.DatabaseChange? && t.events == [] && NoDot(projectID) && IsWalOperation(op)
    ensures AnyMatch(Compiled(projectID, [t]), CdcSubject(DATABASE, projectID, op, t.table))
            <==> '.' !in t.table && '*' !in t.table && '>' !in t.table && ' ' !in t.table
  {
    RoutesDatabaseChange(projectID, [t], op, t.table);
    SanitizedWordFixed(t.table);
    SanitizedIs(t.table, t.table);
    hide Sanitized;
    assert t in [t];
  }

  /** The event, in any case and with or without "Object", is this operation or all of them. */
  predicate NamesOperation(e: string, op: string) {
    || Lower(e) == op || Lower(e) == "object" + op
    || Lower(e) == "*" || Lower(e) == "object*"
  }

  /** The trigger asks for this storage operation on this bucket; wildcards reach every bucket. */
  ghost predicate NamesStorage(t: ApiTrigger, op: string, bucket: string) {
    && t.ObjectStorage? && (t.bucket == bucket || t.bucket == "*" || t.bucket == ">")
    && exists e :: e in t.events && NamesOperation(e, op)
  }

  predicate IsStorageOperation(op: string) { op == "created" || op == "deleted" }

  lemma StorageOperationNamed(e: string, op: string)
    requires IsStorageOperation(op) || op == "*"
    ensures StorageEventToOp(e) == op <==> Lower(e) == op || Lower(e) == "object" + op
  {
    var l := Lower(e);
    assert op[0] != 'o' && op[0] != 'u' && "unknown"[0] == 'u';
    if "object" <= l {
      assert l == "object" + l[6..];
      assert ("object" + op)[6..] == op;
      assert l[0] == 'o';
    } else {
      assert l != "object" + op by {
        assert "object" <= "object" + op;
      }
    }
  }

  lemma {:induction false} MatchLength(p: seq<string>, s: seq<string>)
    requires MatchTokens(p, s)
    ensures |p| <= |s|
  {
    if p != [] && p != [">"] {
      MatchLength(p[1..], s[1..]);
    }
  }

  lemma OneTokenMatches(name: string, other: string)
    requires NoDot(other)
    ensures MatchTokens(Tokens(name), Tokens(other)) <==> name == other || name == "*" || name == ">"
  {
    TokensOfDotFree(other);
    SingleToken(name);
    if |Tokens(name)| > 1 {
      if MatchTokens(Tokens(name), Tokens(other)) {
        MatchLength(Tokens(name), Tokens(other));
      }
      LiteralTokens();
      TokensOfDotFree("*");
      TokensOfDotFree(">");
    } else {
      assert [name][1..] == [] && [other][1..] == [];
    }
  }

  /** A storage filter with any operation and bucket text against a subject of single tokens. */
  lemma StorageFilterMatches(o: string, projectID: string, b: string, op: string, bucket: string)
    requires NoDot(projectID) && NoDot(op) && NoDot(bucket)
    ensures Matches(Compose(STORAGE, o, projectID, b), Compose(STORAGE, op, projectID, bucket))
            <==> (o == op || o == "*") && (b == bucket || b == "*" || b == ">")
  {
    hide Compose, MatchTokens, Tokens, Source;
    if NoDot(o) {
      ComposeMatches(STORAGE, o, projectID, b, STORAGE, op, projectID, bucket);
      OneTokenMatches(b, bucket);
    } else {
      LiteralTokens();
      ComposedTokens(STORAGE, o, projectID, b);
      ComposedTokens(STORAGE, op, projectID, bucket);
      TokensOfDotFree(op);
      TokensOfDotFree(bucket);
      SingleToken(o);
      var p, t := Tokens(Compose(STORAGE, o, projectID, b)), Tokens(Compose(STORAGE, op, projectID, bucket));
      assert |t| == 5 && |p| > 5;
      if MatchTokens(p, t) {
        MatchLength(p, t);
      }
    }
  }

  lemma StorageTriggerMatches(projectID: string, t: ApiTrigger, op: string, bucket: string)
    requires t.ObjectStorage? && NoDot(projectID) && IsStorageOperation(op) && NoDot(bucket)
    ensures AnyMatch(FiltersOf(projectID, t), StorageSubject(STORAGE, op, projectID, bucket)) <==> NamesStorage(t, op, bucket)
  {
    hide EventFilters, Compose, Matches, Tokens, MatchTokens, StorageEventToOp;
    forall e | e in t.events
      ensures Matches(Compose(STORAGE, StorageEventToOp(e), projectID, t.bucket), Compose(STORAGE, op, projectID, bucket))
              <==> NamesOperation(e, op) && (t.bucket == bucket || t.bucket == "*" || t.bucket == ">")
      ensures Compose(STORAGE, StorageEventToOp(e), projectID, t.bucket) in FiltersOf(projectID, t)
    {
      StorageOperationNamed(e, op);
      StorageOperationNamed(e, "*");
      assert "object" + "*" == "object*";
      StorageFilterMatches(StorageEventToOp(e), projectID, t.bucket, op, bucket);
      EventFiltersHold(projectID, t.bucket, t.events, Compose(STORAGE, StorageEventToOp(e), projectID, t.bucket));
    }
    forall f | f in FiltersOf(projectID, t)
      ensures exists e :: e in t.events && f == Compose(STORAGE, StorageEventToOp(e), projectID, t.bucket)
    {
      EventFiltersHold(projectID, t.bucket, t.events, f);
    }
  }

  lemma ChangeTriggerIgnoresStorage(projectID: string, t: ApiTrigger, op: string, bucket: string)
    requires t.DatabaseChange? && NoDot(projectID)
    ensures !AnyMatch(FiltersOf(projectID, t), StorageSubject(STORAGE, op, projectID, bucket))
  {
    var name := SanitizeSubjectToken(t.table);
    forall f | f in FiltersOf(projectID, t)
      ensures !Matches(f, StorageSubject(STORAGE, op, projectID, bucket))
    {
      if t.events == [] {
        SecondTokenDiffers(DATABASE, "*", projectID, name, STORAGE, op, projectID, bucket);
      } else {
        OperationFiltersHold(DATABASE, projectID, t.events, name, f);
        var e :| e in t.events && f == Compose(DATABASE, SanitizeSubjectToken(Lower(e)), projectID, name);
        SecondTokenDiffers(DATABASE, SanitizeSubjectToken(Lower(e)), projectID, name, STORAGE, op, projectID, bucket);
      }
    }
  }

  /**
   A storage event of a bucket, whose name has no dot, reaches a function if and only if one of its
   triggers names that event and that bucket, or writes a wildcard for either.
   */
  lemma RoutesStorageEvent(projectID: string, apis: seq<ApiTrigger>, op: string, bucket: string)
    requires AllSet(apis) && NoDot(projectID) && IsStorageOperation(op) && NoDot(bucket)
    ensures AnyMatch(Compiled(projectID, apis), StorageSubject(STORAGE, op, projectID, bucket))
            <==> exists t :: t in apis && NamesStorage(t, op, bucket)
  {
    hide Compiled, FiltersOf, Matches, Compose;
    forall t | t in apis && !t.Unset?
      ensures AnyMatch(FiltersOf(projectID, t), StorageSubject(STORAGE, op, projectID, bucket)) <==> NamesStorage(t, op, bucket)
    {
      if t.ObjectStorage? {
        StorageTriggerMatches(projectID, t, op, bucket);
      } else {
        ChangeTriggerIgnoresStorage(projectID, t, op, bucket);
      }
    }
    AnyTriggerMatches(projectID, apis, StorageSubject(STORAGE, op, projectID, bucket));
  }

  predicate BucketChar(c: char) { 'a' <= c <= 'z' || '0' <= c <= '9' || c == '-' }

  /** The names the storage service accepts for a bucket. */
  predicate BucketName(b: string) {
    && 3 <= |b| <= 63 && b[0] != '-' && b[|b| - 1] != '-'
    && (forall i :: 0 <= i < |b| ==> BucketChar(b[i]))
    && (forall i :: 0 < i < |b| ==> !(b[i - 1] == '-' && b[i] == '-'))
  }

  /** A trigger on an operation gets the events of its own bucket alone if and only if it names no wildcard. */
  lemma OwnBucketAloneIff(projectID: string, t: ApiTrigger, op: string, e: string)
    requires t.ObjectStorage? && NoDot(projectID) && IsStorageOperation(op)
    requires e in t.events && NamesOperation(e, op)
    ensures (forall b :: BucketName(b) ==>
               (AnyMatch(Compiled(projectID, [t]), StorageSubject(STORAGE, op, projectID, b)) <==> b == t.bucket))
            <==> t.bucket != "*" && t.bucket != ">"
  {
    hide Compiled, Matches, Compose, StorageSubject, AnyMatch, NamesOperation;
    forall b | BucketName(b)
      ensures AnyMatch(Compiled(projectID, [t]), StorageSubject(STORAGE, op, projectID, b))
              <==> b == t.bucket || t.bucket == "*" || t.bucket == ">"
    {
      assert NoDot(b);
      RoutesStorageEvent(projectID, [t], op, b);
      assert t in [t];
    }
    var abc := "abc";
    assert BucketName(abc) && |abc| == 3 && |"*"| == 1 && |">"| == 1;
  }

  // Stream ownership

  /** The subjects a project's stream captures. */
  function StreamSubjects(projectID: string): seq<string> {
    [Compose(DATABASE, "*", projectID, ">"), Compose(STORAGE, "*", projectID, ">")]
  }

  lemma TailMatchesAnything(name: string)
    ensures MatchTokens(Tokens(">"), Tokens(name))
  {
    TokensOfDotFree(">");
  }

  /** A published subject is captured by its own project's stream and by no other. */
  lemma StreamOwnsSubject(projectID: string, other: string, prefix: string, op: string, name: string)
    requires NoDot(projectID) && NoDot(other) && NoDot(op)
    requires prefix == DATABASE || prefix == STORAGE
    ensures AnyMatch(StreamSubjects(other), Compose(prefix, op, projectID, name)) <==> projectID == other
  {
    hide Compose, Matches, MatchTokens, Tokens;
    LiteralTokens();
    TailMatchesAnything(name);
    ComposeMatches(DATABASE, "*", other, ">", prefix, op, projectID, name);
    ComposeMatches(STORAGE, "*", other, ">", prefix, op, projectID, name);
    var ss := StreamSubjects(other);
    assert ss[0] in ss && ss[1] in ss;
    assert ss == [ss[0], ss[1]];
  }

  /** Both publishers only ever use dot-free operation tokens. */
  lemma PublishersStayInStream(projectID: string, other: string, op: string, table: string, sop: string, bucket: string)
    requires NoDot(projectID) && NoDot(other) && IsStorageOperation(sop)
    ensures AnyMatch(StreamSubjects(other), CdcSubject(DATABASE, projectID, op, table)) <==> projectID == other
    ensures AnyMatch(StreamSubjects(other), StorageSubject(STORAGE, sop, projectID, bucket)) <==> projectID == other
  {
    StreamOwnsSubject(projectID, other, DATABASE, OperationToSubject(op), table);
    StreamOwnsSubject(projectID, other, STORAGE, sop, bucket);
  }

  /** Everything the filter can match is captured by the project's stream. */
  ghost predicate Contained(projectID: string, f: string) {
    forall s: string :: Matches(f, s) ==> AnyMatch(StreamSubjects(projectID), s)
  }

  /** The operation token keeps the project token in the position the stream expects. */
  predicate Aligned(projectID: string, op: string) {
    |Tokens(op)| == 1 || Tokens(op)[1] == "project-" + projectID
  }

  lemma {:induction false} MatchReflexive(p: seq<string>)
    ensures MatchTokens(p, p)
  {
    if p != [] && p != [">"] {
      MatchReflexive(p[1..]);
    }
  }

  lemma {:induction false} MatchNonEmpty(p: seq<string>, s: seq<string>)
    requires MatchTokens(p, s) && p != []
    ensures s != []
  {
  }

  /** The stream's pattern takes exactly the subjects with its first, second and fourth token. */
  lemma StreamPattern(prefix: string, projectID: string, s: string)
    requires prefix == DATABASE || prefix == STORAGE
    requires NoDot(projectID)
    ensures Matches(Compose(prefix, "*", projectID, ">"), s)
            <==> var t := Tokens(s); |t| > 4 && t[0] == EVENTS && t[1] == Source(prefix) && t[3] == "project-" + projectID
  {
    hide Compose, Tokens;
    LiteralTokens();
    DotFreeTokens(prefix, "*", projectID, ">");
    TokensOfDotFree(">");
    ProjectTokens(projectID, projectID);
    MatchFour(EVENTS, Source(prefix), "*", "project-" + projectID, [">"], Tokens(s));
  }

  /** The tokens of a filter after its operation's first token. */
  lemma FilterTokens(prefix: string, op: string, projectID: string, name: string) returns (fourth: string, tail: seq<string>)
    requires prefix == DATABASE || prefix == STORAGE
    requires NoDot(projectID)
    ensures Tokens(Compose(prefix, op, projectID, name)) == [EVENTS, Source(prefix), Tokens(op)[0], fourth] + tail
    ensures tail != []
    ensures Aligned(projectID, op) <==> fourth == "project-" + projectID
  {
    hide Tokens, Compose, Source;
    ComposedTokens(prefix, op, projectID, name);
    var o, P := Tokens(op), "project-" + projectID;
    var all := o + [P] + Tokens(name);
    fourth, tail := all[1], all[2..];
    assert all == [o[0], fourth] + tail;
    assert [EVENTS, Source(prefix)] + ([o[0], fourth] + tail) == [EVENTS, Source(prefix), o[0], fourth] + tail;
  }

  /**
   A filter's language lies inside its project's stream if and only if its operation token is
   dot-free (or happens to supply the project token itself).
   */
  lemma FilterContained(prefix: string, op: string, projectID: string, name: string)
    requires prefix == DATABASE || prefix == STORAGE
    requires NoDot(projectID)
    ensures Contained(projectID, Compose(prefix, op, projectID, name)) <==> Aligned(projectID, op)
  {
    hide Compose, Tokens, MatchTokens, Source, Aligned;
    var f := Compose(prefix, op, projectID, name);
    var fourth, tail := FilterTokens(prefix, op, projectID, name);
    var ss := StreamSubjects(projectID);
    assert ss[0] in ss && ss[1] in ss && ss == [ss[0], ss[1]];
    LiteralTokens();
    if Aligned(projectID, op) {
      ProjectTokens(projectID, projectID);
      forall s: string | Matches(f, s)
        ensures AnyMatch(ss, s)
      {
        MatchFour(EVENTS, Source(prefix), Tokens(op)[0], fourth, tail, Tokens(s));
        MatchNonEmpty(tail, Tokens(s)[4..]);
        SourceIsNoWildcard(prefix);
        StreamPattern(prefix, projectID, s);
      }
    } else {
      MatchReflexive(Tokens(f));
      StreamPattern(DATABASE, projectID, f);
      StreamPattern(STORAGE, projectID, f);
      assert Matches(f, f) && !AnyMatch(ss, f);
    }
  }

  lemma SourceIsNoWildcard(prefix: string)
    requires prefix == DATABASE || prefix == STORAGE
    ensures Source(prefix) != "*"
  {
    LiteralTokens();
  }

  /** The operation tokens a trigger's filters are built with. */
  ghost predicate AllAligned(projectID: string, t: ApiTrigger) {
    t.ObjectStorage? ==> forall e :: e in t.events ==> Aligned(projectID, StorageEventToOp(e))
  }

  lemma AlignedTriggerContained(projectID: string, t: ApiTrigger, f: string)
    requires !t.Unset? && NoDot(projectID) && AllAligned(projectID, t) && f in FiltersOf(projectID, t)
    ensures Contained(projectID, f)
  {
    hide Compose, Contained, Tokens;
    LiteralTokens();
    if t.DatabaseChange? {
      var name := SanitizeSubjectToken(t.table);
      if t.events == [] {
        TokensOfDotFree("*");
        FilterContained(DATABASE, "*", projectID, name);
      } else {
        OperationFiltersHold(DATABASE, projectID, t.events, name, f);
        var e :| e in t.events && f == Compose(DATABASE, SanitizeSubjectToken(Lower(e)), projectID, name);
        SanitizedIsLiteral(Lower(e));
        TokensOfDotFree(SanitizeSubjectToken(Lower(e)));
        FilterContained(DATABASE, SanitizeSubjectToken(Lower(e)), projectID, name);
      }
    } else {
      EventFiltersHold(projectID, t.bucket, t.events, f);
      var e :| e in t.events && f == Compose(STORAGE, StorageEventToOp(e), projectID, t.bucket);
      assert Aligned(projectID, StorageEventToOp(e));
      ProjectTokens(projectID, projectID);
      FilterContained(STORAGE, StorageEventToOp(e), projectID, t.bucket);
    }
  }

  /** All filters compiled for a function stay inside its project's stream if and only if its triggers are aligned. */
  lemma CompiledFiltersContained(projectID: string, apis: seq<ApiTrigger>)
    requires AllSet(apis) && NoDot(projectID)
    ensures (forall f :: f in Compiled(projectID, apis) ==> Contained(projectID, f))
            <==> forall t :: t in apis ==> AllAligned(projectID, t)
  {
    hide Compiled, Compose, Contained, Aligned, StorageEventToOp, EventFilters;
    forall f | f in Compiled(projectID, apis) && forall t :: t in apis ==> AllAligned(projectID, t)
      ensures Contained(projectID, f)
    {
      CompiledHold(projectID, apis, f);
      var t :| t in apis && !t.Unset? && f in FiltersOf(projectID, t);
      AlignedTriggerContained(projectID, t, f);
    }
    forall t, e | t in apis && t.ObjectStorage? && e in t.events && !Aligned(projectID, StorageEventToOp(e))
      ensures exists f :: f in Compiled(projectID, apis) && !Contained(projectID, f)
    {
      var f := Compose(STORAGE, StorageEventToOp(e), projectID, t.bucket);
      EventFiltersHold(projectID, t.bucket, t.events, f);
      CompiledHold(projectID, apis, f);
      FilterContained(STORAGE, StorageEventToOp(e), projectID, t.bucket);
      assert f in Compiled(projectID, apis) && !Contained(projectID, f);
    }
  }
}
