/**
 From an API trigger to JetStream filter subjects: stored JSON, Function resource, operator, NATS.
 The functions state what each stage yields; the methods are the loops that yield it.
 */
module Triggers {
  import opened Wrappers
  import opened Text
  import opened Subjects

  /** A trigger as the API receives it; `Unset` is a request without a config. */
  datatype ApiTrigger =
    | DatabaseChange(table: string, events: seq<string>, filter: string, includeColumns: seq<string>)
    | ObjectStorage(bucket: string, events: seq<string>, prefix: string)
    | Unset

  datatype ChangeSpec = ChangeSpec(table: string, operations: seq<string>, filter: string, includeColumns: seq<string>)
  datatype StorageSpec = StorageSpec(bucket: string, events: seq<string>, prefix: string)

  /** One element of the stored JSON array; the Function resource uses the same shape. */
  datatype Trigger = Trigger(kind: string, change: Option<ChangeSpec>, storage: Option<StorageSpec>)

  // API request to stored row

  function Stored(t: ApiTrigger): Trigger
    requires !t.Unset?
  {
    match t
    case DatabaseChange(table, events, filter, cols) =>
      Trigger("database_change", Some(ChangeSpec(table, events, filter, cols)), None)
    case ObjectStorage(bucket, events, prefix) =>
      Trigger("object_storage", None, Some(StorageSpec(bucket, events, prefix)))
  }

  predicate AllSet(ts: seq<ApiTrigger>) {
    forall i :: 0 <= i < |ts| ==> !ts[i].Unset?
  }

  function StoredAll(ts: seq<ApiTrigger>): (r: seq<Trigger>)
    requires AllSet(ts)
    ensures |r| == |ts|
  {
    if ts == [] then [] else StoredAll(ts[..|ts| - 1]) + [Stored(ts[|ts| - 1])]
  }

  method TriggersFromProto(ts: seq<ApiTrigger>) returns (r: Result<seq<Trigger>, string>)
    ensures r == if AllSet(ts) then Ok(StoredAll(ts)) else Err("unknown trigger config type")
  {
    var result: seq<Trigger> := [];
    for i := 0 to |ts|
      invariant AllSet(ts[..i]) && result == StoredAll(ts[..i])
    {
      assert ts[..i + 1][..i] == ts[..i];
      match ts[i] {
        case DatabaseChange(table, events, filter, cols) =>
          result := result + [Trigger("database_change", Some(ChangeSpec(table, events, filter, cols)), None)];
        case ObjectStorage(bucket, events, prefix) =>
          result := result + [Trigger("object_storage", None, Some(StorageSpec(bucket, events, prefix)))];
        case Unset =>
          return Err("unknown trigger config type");
      }
    }
    assert ts[..|ts|] == ts;
    r := Ok(result);
  }

  // Stored row to Function resource

  function ConvertTriggerToCRD(t: Trigger): Option<Trigger> {
    if t.kind == "database_change" then
      if t.change.None? then None else Some(Trigger("DatabaseChange", t.change, None))
    else if t.kind == "object_storage" then
      if t.storage.None? then None else Some(Trigger("ObjectStorage", None, t.storage))
    else None
  }

  function ConvertAll(ts: seq<Trigger>): seq<Trigger> {
    if ts == [] then []
    else
      var c := ConvertTriggerToCRD(ts[0]);
      (if c.Some? then [c.value] else []) + ConvertAll(ts[1..])
  }

  /** The untyped tree the Kubernetes API transports. */
  datatype Node = Text(s: string) | Texts(items: seq<string>) | Object(fields: map<string, Node>)

  function BuildTriggerSpec(t: Trigger): Node {
    var trigger := map["type" := Text(t.kind)];
    var withChange :=
      if t.change.None? then trigger
      else
        var c := t.change.value;
        var dc := map["table" := Text(c.table), "operations" := Texts(c.operations)];
        var filtered := if c.filter != "" then dc["filter" := Text(c.filter)] else dc;
        var columned := if c.includeColumns != [] then filtered["includeColumns" := Texts(c.includeColumns)] else filtered;
        trigger["databaseChange" := Object(columned)];
    var withStorage :=
      if t.storage.None? then withChange
      else
        var o := t.storage.value;
        var os := map["bucket" := Text(o.bucket), "events" := Texts(o.events)];
        withChange["objectStorage" := Object(if o.prefix != "" then os["prefix" := Text(o.prefix)] else os)];
    Object(withStorage)
  }

  function TextField(fields: map<string, Node>, name: string): string {
    if name in fields && fields[name].Text? then fields[name].s else ""
  }

  function TextsField(fields: map<string, Node>, name: string): seq<string> {
    if name in fields && fields[name].Texts? then fields[name].items else []
  }

  /** The operator's typed reading of the tree: absent fields are zero values. */
  function ReadTrigger(n: Node): Trigger
    requires n.Object?
  {
    var f := n.fields;
    Trigger(
      TextField(f, "type"),
      if "databaseChange" in f && f["databaseChange"].Object? then
        var d := f["databaseChange"].fields;
        Some(ChangeSpec(TextField(d, "table"), TextsField(d, "operations"),
                        TextField(d, "filter"), TextsField(d, "includeColumns")))
      else None,
      if "objectStorage" in f && f["objectStorage"].Object? then
        var o := f["objectStorage"].fields;
        Some(StorageSpec(TextField(o, "bucket"), TextsField(o, "events"), TextField(o, "prefix")))
      else None)
  }

  lemma FieldNamesDiffer()
    ensures "type" != "databaseChange" && "type" != "objectStorage" && "databaseChange" != "objectStorage"
    ensures "table" != "operations" && "table" != "filter" && "table" != "includeColumns"
    ensures "operations" != "filter" && "operations" != "includeColumns" && "filter" != "includeColumns"
    ensures "bucket" != "events" && "bucket" != "prefix" && "events" != "prefix"
  {
    assert "type"[0] != "databaseChange"[0] && "type"[0] != "objectStorage"[0];
    assert "databaseChange"[0] != "objectStorage"[0];
    assert "table"[0] != "operations"[0] && "table"[0] != "filter"[0] && "table"[0] != "includeColumns"[0];
    assert "operations"[0] != "filter"[0] && "operations"[0] != "includeColumns"[0];
    assert "filter"[0] != "includeColumns"[0];
    assert "bucket"[0] != "events"[0] && "bucket"[0] != "prefix"[0] && "events"[0] != "prefix"[0];
  }

  /** Nothing of a trigger is lost between the function service and the operator. */
  lemma TriggerSpecRoundTrip(t: Trigger)
    ensures ReadTrigger(BuildTriggerSpec(t)) == t
  {
    FieldNamesDiffer();
  }

  /** The names under which the tree holds a trigger are those of the operator's own fields. */
  lemma TreeNames(t: Trigger)
    ensures var n := BuildTriggerSpec(t);
      && n.Object? && "type" in n.fields && n.fields["type"] == Text(t.kind)
      && ("databaseChange" in n.fields <==> t.change.Some?) && ("objectStorage" in n.fields <==> t.storage.Some?)
      && (t.change.Some? ==>
            && n.fields["databaseChange"].Object?
            && var d := n.fields["databaseChange"].fields;
               && "table" in d && d["table"] == Text(t.change.value.table)
               && "operations" in d && d["operations"] == Texts(t.change.value.operations))
      && (t.storage.Some? ==>
            && n.fields["objectStorage"].Object?
            && var o := n.fields["objectStorage"].fields;
               && "bucket" in o && o["bucket"] == Text(t.storage.value.bucket)
               && "events" in o && o["events"] == Texts(t.storage.value.events))
  {
    FieldNamesDiffer();
  }

  function Transported(ts: seq<Trigger>): (r: seq<Trigger>)
    ensures |r| == |ts|
  {
    seq(|ts|, i requires 0 <= i < |ts| => ReadTrigger(BuildTriggerSpec(ts[i])))
  }

  lemma TransportedIsIdentity(ts: seq<Trigger>)
    ensures Transported(ts) == ts
  {
    forall i | 0 <= i < |ts|
      ensures Transported(ts)[i] == ts[i]
    {
      TriggerSpecRoundTrip(ts[i]);
    }
  }

  // Function resource to filter subjects

  function SanitizeChar(c: char): char {
    if c == '.' || c == '*' || c == '>' || c == ' ' then '_' else c
  }

  function SanitizeSubjectToken(s: string): (r: string)
    ensures |r| == |s|
    ensures forall i :: 0 <= i < |s| ==> r[i] == SanitizeChar(s[i])
  {
    seq(|s|, i requires 0 <= i < |s| => SanitizeChar(s[i]))
  }

  function OperationFilters(prefix: string, projectID: string, ops: seq<string>, table: string): seq<string> {
    if ops == [] then []
    else OperationFilters(prefix, projectID, ops[..|ops| - 1], table)
         + [Compose(prefix, SanitizeSubjectToken(Lower(ops[|ops| - 1])), projectID, table)]
  }

  function ChangeFilters(prefix: string, projectID: string, c: ChangeSpec): seq<string> {
    var table := SanitizeSubjectToken(c.table);
    if c.operations != [] then OperationFilters(prefix, projectID, c.operations, table)
    else [Compose(prefix, "*", projectID, table)]
  }

  function AllChangeFilters(prefix: string, projectID: string, cs: seq<ChangeSpec>): seq<string> {
    if cs == [] then []
    else AllChangeFilters(prefix, projectID, cs[..|cs| - 1]) + ChangeFilters(prefix, projectID, cs[|cs| - 1])
  }

  method BuildFilterSubjects(prefix: string, projectID: string, cs: seq<ChangeSpec>) returns (subjects: seq<string>)
    ensures subjects == AllChangeFilters(prefix, projectID, cs)
  {
    subjects := [];
    for i := 0 to |cs|
      invariant subjects == AllChangeFilters(prefix, projectID, cs[..i])
    {
      ghost var before := subjects;
      var table := SanitizeSubjectToken(cs[i].table);
      var ops := cs[i].operations;
      if |ops| > 0 {
        for j := 0 to |ops|
          invariant subjects == before + OperationFilters(prefix, projectID, ops[..j], table)
        {
          assert ops[..j + 1][..j] == ops[..j];
          subjects := subjects + [Compose(prefix, SanitizeSubjectToken(Lower(ops[j])), projectID, table)];
        }
        assert ops[..|ops|] == ops;
      } else {
        subjects := subjects + [Compose(prefix, "*", projectID, table)];
      }
      assert cs[..i + 1][..i] == cs[..i];
    }
    assert cs[..|cs|] == cs;
  }

  function TrimObject(s: string): string {
    if "object" <= s then s[6..] else s
  }

  function StorageEventToOp(event: string): string {
    var op := TrimObject(Lower(event));
    if op == "" then "unknown" else op
  }

  function EventFilters(projectID: string, bucket: string, events: seq<string>): seq<string> {
    if events == [] then []
    else EventFilters(projectID, bucket, events[..|events| - 1])
         + [Compose(STORAGE, StorageEventToOp(events[|events| - 1]), projectID, bucket)]
  }

  predicate IsChange(t: Trigger) { t.kind == "DatabaseChange" && t.change.Some? }

  predicate IsStorage(t: Trigger) { t.kind == "ObjectStorage" && t.storage.Some? }

  function ChangeSpecs(ts: seq<Trigger>): seq<ChangeSpec> {
    if ts == [] then []
    else
      var last := ts[|ts| - 1];
      ChangeSpecs(ts[..|ts| - 1]) + if IsChange(last) then [last.change.value] else []
  }

  function TriggerStorageFilters(projectID: string, t: Trigger): seq<string> {
    if IsStorage(t) then EventFilters(projectID, t.storage.value.bucket, t.storage.value.events) else []
  }

  function StorageFilters(projectID: string, ts: seq<Trigger>): seq<string> {
    if ts == [] then []
    else StorageFilters(projectID, ts[..|ts| - 1]) + TriggerStorageFilters(projectID, ts[|ts| - 1])
  }

  /** Every filter subject of a function, database triggers first. */
  function FilterSubjects(projectID: string, ts: seq<Trigger>): seq<string> {
    AllChangeFilters(DATABASE, projectID, ChangeSpecs(ts)) + StorageFilters(projectID, ts)
  }

  predicate HasEventTrigger(ts: seq<Trigger>) {
    exists i :: 0 <= i < |ts| && (IsChange(ts[i]) || IsStorage(ts[i]))
  }

  /** The whole compilation, from the API request. */
  function Compiled(projectID: string, apis: seq<ApiTrigger>): seq<string>
    requires AllSet(apis)
  {
    FilterSubjects(projectID, Transported(ConvertAll(StoredAll(apis))))
  }

  method AnyEventTrigger(ts: seq<Trigger>) returns (found: bool)
    ensures found <==> HasEventTrigger(ts)
  {
    for i := 0 to |ts|
      invariant forall k :: 0 <= k < i ==> !IsChange(ts[k]) && !IsStorage(ts[k])
    {
      if IsChange(ts[i]) || IsStorage(ts[i]) {
        return true;
      }
    }
    found := false;
  }

  method BuildStorageFilters(projectID: string, ts: seq<Trigger>) returns (filters: seq<string>)
    ensures filters == StorageFilters(projectID, ts)
  {
    filters := [];
    for i := 0 to |ts|
      invariant filters == StorageFilters(projectID, ts[..i])
    {
      assert ts[..i + 1][..i] == ts[..i];
      if ts[i].kind == "ObjectStorage" && ts[i].storage.Some? {
        ghost var before := filters;
        var events, bucket := ts[i].storage.value.events, ts[i].storage.value.bucket;
        for j := 0 to |events|
          invariant filters == before + EventFilters(projectID, bucket, events[..j])
        {
          assert events[..j + 1][..j] == events[..j];
          filters := filters + [Compose(STORAGE, StorageEventToOp(events[j]), projectID, bucket)];
        }
        assert events[..|events|] == events;
      }
    }
    assert ts[..|ts|] == ts;
  }
}
