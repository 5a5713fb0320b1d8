/** NATS subjects: how publishers spell them and how the server matches them against filters. */
module Subjects {
  import opened Text

  /** The tokens of a subject: the pieces between dots, always at least one. */
  function Tokens(s: string): (ts: seq<string>)
    ensures |ts| >= 1
  {
    if s == "" then [""]
    else
      var rest := Tokens(s[1..]);
      if s[0] == '.' then [""] + rest
      else [[s[0]] + rest[0]] + rest[1..]
  }

  /** Server-side matching: '*' stands for one token, a final '>' for one or more. */
  predicate MatchTokens(p: seq<string>, s: seq<string>) {
    if p == [] then s == []
    else if p == [">"] then s != []
    else s != [] && (p[0] == "*" || p[0] == s[0]) && MatchTokens(p[1..], s[1..])
  }

  predicate Matches(pattern: string, subject: string) {
    MatchTokens(Tokens(pattern), Tokens(subject))
  }

  /** {prefix}.{op}.project-{projectID}.{name}, the shape of every subject and filter. */
  function Compose(prefix: string, op: string, projectID: string, name: string): string {
    prefix + "." + op + ".project-" + projectID + "." + name
  }

  /** The subject token of a WAL operation, in whatever letter case it arrives. */
  function OperationToSubject(op: string): string {
    var u := Upper(op);
    if u == "INSERT" then "insert"
    else if u == "UPDATE" then "update"
    else if u == "DELETE" then "delete"
    else "unknown"
  }

  const DATABASE: string := "events.database"
  const STORAGE: string := "events.storage"

  function CdcSubject(prefix: string, projectID: string, operation: string, table: string): string {
    Compose(prefix, OperationToSubject(operation), projectID, table)
  }

  function StorageSubject(prefix: string, operation: string, projectID: string, bucket: string): string {
    Compose(prefix, operation, projectID, bucket)
  }

  predicate NoDot(s: string) { '.' !in s }

  lemma {:induction false} TokensOfDotFree(s: string)
    requires NoDot(s)
    ensures Tokens(s) == [s]
  {
    if s != "" {
      TokensOfDotFree(s[1..]);
      assert [s[0]] + s[1..] == s;
    }
  }

  /** Tokens of a dotted concatenation are the tokens of its parts, in order. */
  lemma {:induction false} TokensOfJoin(a: string, b: string)
    ensures Tokens(a + "." + b) == Tokens(a) + Tokens(b)
  {
    var s := a + "." + b;
    if a == "" {
      assert s[1..] == b;
    } else {
      assert s[1..] == a[1..] + "." + b;
      TokensOfJoin(a[1..], b);
    }
  }

  lemma {:induction false} TokensContainNoDot(s: string)
    ensures forall i :: 0 <= i < |Tokens(s)| ==> NoDot(Tokens(s)[i])
  {
    if s != "" {
      TokensContainNoDot(s[1..]);
    }
  }

  /** Every subject and filter splits into its prefix, operation, project and name tokens. */
  lemma TokensOfCompose(prefix: string, op: string, projectID: string, name: string)
    ensures Tokens(Compose(prefix, op, projectID, name))
            == Tokens(prefix) + Tokens(op) + Tokens("project-" + projectID) + Tokens(name)
  {
    var p := "project-" + projectID;
    calc {
      Tokens(Compose(prefix, op, projectID, name));
      { assert Compose(prefix, op, projectID, name) == (prefix + "." + op + "." + p) + "." + name; }
      Tokens((prefix + "." + op + "." + p) + "." + name);
      { TokensOfJoin(prefix + "." + op + "." + p, name); }
      Tokens((prefix + "." + op) + "." + p) + Tokens(name);
      { TokensOfJoin(prefix + "." + op, p); }
      Tokens(prefix + "." + op) + Tokens(p) + Tokens(name);
      { TokensOfJoin(prefix, op); }
      Tokens(prefix) + Tokens(op) + Tokens(p) + Tokens(name);
    }
  }

  const EVENTS: string := "events"

  /** Where events come from: the second token of a subject. */
  function Source(prefix: string): string
    requires prefix == DATABASE || prefix == STORAGE
  {
    if prefix == DATABASE then "database" else "storage"
  }

  lemma LiteralTokens()
    ensures DATABASE == EVENTS + "." + "database" && STORAGE == EVENTS + "." + "storage"
    ensures NoDot(EVENTS) && NoDot("database") && NoDot("storage") && NoDot("*") && NoDot(">")
    ensures EVENTS != "*" && "database" != "storage" && "database" != "*" && "storage" != "*"
    ensures DATABASE != STORAGE
  {
    assert "database"[0] == 'd' && "storage"[0] == 's' && "*"[0] == '*' && EVENTS[0] == 'e';
    assert DATABASE[7] == 'd' && STORAGE[7] == 's';
  }

  lemma PrefixTokens(prefix: string)
    requires prefix == DATABASE || prefix == STORAGE
    ensures Tokens(prefix) == [EVENTS, Source(prefix)]
  {
    hide Tokens;
    LiteralTokens();
    TokensOfJoin(EVENTS, Source(prefix));
    TokensOfDotFree(EVENTS);
    TokensOfDotFree(Source(prefix));
  }
}
