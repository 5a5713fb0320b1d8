/**
 The function table: rows are created and updated by read-modify-write calls that race with each
 other, with soft deletes and with status syncs.
 */
module FunctionTable {
  import opened Wrappers
  import opened Sets
  import opened Text
  import Triggers

  // Stored JSON, as far as validation reads it

  datatype SourceConfig = NoSource | UnreadableSource | Code(size: nat, text: string)

  datatype GpuConfig = NoGpu | UnreadableGpu | GpuModel(model: string, provider: string)

  datatype TriggerConfig = NoTriggers | UnreadableTriggers | TriggerList(triggers: seq<Triggers.Trigger>)

  datatype Source = Source(sourceType: string, config: SourceConfig, storagePath: Option<string>)

  datatype Runtime = Runtime(preset: Option<string>, requirements: seq<string>, dockerfile: Option<string>)

  datatype Row = Row(
    project: string, name: string, kind: string, status: string,
    displayName: string, mode: string, source: Source, runtime: Runtime,
    timeout: int, gpu: GpuConfig, triggers: TriggerConfig, env: string)

  datatype Refusal =
    | BadName | BadDisplayName | BadKind | BadMode | BadRuntime | BadTriggers | SourceTooLarge | BadTimeout
    | NotFound | LimitReached | NameTaken | Rejected

  // Validation

  const MAX_FUNCTIONS: nat := 10

  predicate AlphaNumeric(c: char) {
    'a' <= c <= 'z' || '0' <= c <= '9'
  }

  predicate NameOk(s: string) {
    && 3 <= |s| <= 40
    && AlphaNumeric(s[0]) && AlphaNumeric(s[|s| - 1])
    && forall i :: 0 <= i < |s| ==> AlphaNumeric(s[i]) || s[i] == '-'
  }

  predicate DisplayNameOk(s: string) {
    1 <= |s| <= 100
  }

  predicate KindOk(s: string) {
    s == "heavy-job" || s == "heavy-deployment" || s == "light-deployment"
  }

  predicate ModeOk(s: string) {
    s == "sync" || s == "async" || s == "stream"
  }

  predicate Given(o: Option<string>) {
    o.Some? && o.value != ""
  }

  /** Exactly one of preset and Dockerfile. */
  predicate RuntimeOk(r: Runtime) {
    Given(r.preset) != Given(r.dockerfile)
  }

  predicate TriggerTypeOk(t: Triggers.Trigger) {
    t.kind == "database_change" || t.kind == "object_storage"
  }

  predicate TriggersOk(c: TriggerConfig) {
    match c
    case NoTriggers => true
    case UnreadableTriggers => false
    case TriggerList(ts) => forall i :: 0 <= i < |ts| ==> TriggerTypeOk(ts[i])
  }

  predicate SourceOk(s: Source) {
    s.sourceType == "inline" && s.config.Code? ==> s.config.size <= 1024 * 1024
  }

  predicate HasGpu(g: GpuConfig) {
    g.GpuModel? && g.model != ""
  }

  predicate TimeoutOk(timeout: int, kind: string, gpu: GpuConfig) {
    && (kind == "light-deployment" ==> timeout <= 30)
    && (kind == "heavy-job" || kind == "heavy-deployment" ==> HasGpu(gpu) || timeout <= 3600)
  }

  function DefaultTimeout(timeout: int): int {
    if timeout <= 0 then 30 else timeout
  }

  /** The table's own CHECK constraints on what a write may leave. */
  predicate ConstraintsOk(r: Row) {
    && (r.runtime.preset.Some? != r.runtime.dockerfile.Some?)
    && (r.source.sourceType == "git" || r.source.sourceType == "zip" || r.source.sourceType == "inline")
    && KindOk(r.kind) && ModeOk(r.mode) && |r.name| <= 40 && |r.displayName| <= 100
  }

  method ValidateTriggers(c: TriggerConfig) returns (ok: bool)
    ensures ok <==> TriggersOk(c)
  {
    match c {
      case NoTriggers => return true;
      case UnreadableTriggers => return false;
      case TriggerList(ts) =>
        for i := 0 to |ts|
          invariant forall k :: 0 <= k < i ==> TriggerTypeOk(ts[k])
        {
          if !TriggerTypeOk(ts[i]) {
            return false;
          }
        }
        return true;
    }
  }

  /** The checks CreateFunction and UpdateFunction share, in their order. */
  function Checked(r: Row): Option<Refusal> {
    if !ModeOk(r.mode) then Some(BadMode)
    else if !RuntimeOk(r.runtime) then Some(BadRuntime)
    else if !TriggersOk(r.triggers) then Some(BadTriggers)
    else if !SourceOk(r.source) then Some(SourceTooLarge)
    else if !TimeoutOk(r.timeout, r.kind, r.gpu) then Some(BadTimeout)
    else None
  }

  /** A request to create: the row it asks for, with its timeout defaulted. */
  function Requested(r: Row): Row {
    r.(timeout := DefaultTimeout(r.timeout), status := "pending")
  }

  function ValidateCreate(r: Row): Option<Refusal> {
    if !NameOk(r.name) then Some(BadName)
    else if !DisplayNameOk(r.displayName) then Some(BadDisplayName)
    else if !KindOk(r.kind) then Some(BadKind)
    else Checked(Requested(r))
  }

  function ValidateUpdate(r: Row): Option<Refusal> {
    if !DisplayNameOk(r.displayName) then Some(BadDisplayName) else Checked(r)
  }

  // Updates

  /** The fields an update request sets. */
  datatype Patch = Patch(
    displayName: Option<string>, mode: Option<string>, source: Option<Source>, runtime: Option<Runtime>,
    timeout: Option<int>, gpu: Option<GpuConfig>, triggers: Option<TriggerConfig>, env: Option<string>)

  function Or<T>(o: Option<T>, current: T): T {
    if o.Some? then o.value else current
  }

  function MergeFunction(r: Row, p: Patch): Row {
    r.(displayName := Or(p.displayName, r.displayName), mode := Or(p.mode, r.mode),
       source := Or(p.source, r.source), runtime := Or(p.runtime, r.runtime),
       timeout := Or(p.timeout, r.timeout), gpu := Or(p.gpu, r.gpu),
       triggers := Or(p.triggers, r.triggers), env := Or(p.env, r.env))
  }

  /** What an update computes from the row it read. */
  function Merged(r: Row, p: Patch): Row {
    var m := MergeFunction(r, p);
    m.(timeout := DefaultTimeout(m.timeout))
  }

  /** The UPDATE statement: it writes these columns and no others, whatever the row holds by then. */
  function Written(cur: Row, m: Row): Row {
    cur.(displayName := m.displayName, mode := m.mode, source := m.source, runtime := m.runtime,
         timeout := m.timeout, gpu := m.gpu, triggers := m.triggers, env := m.env)
  }

  function FirstSome<T>(p: Option<T>, q: Option<T>): Option<T> {
    if q.Some? then q else p
  }

  /** The patch that does `p`, then `q`. */
  function Then(p: Patch, q: Patch): Patch {
    Patch(FirstSome(p.displayName, q.displayName), FirstSome(p.mode, q.mode), FirstSome(p.source, q.source),
          FirstSome(p.runtime, q.runtime), FirstSome(p.timeout, q.timeout), FirstSome(p.gpu, q.gpu),
          FirstSome(p.triggers, q.triggers), FirstSome(p.env, q.env))
  }

  // The table

  type Id = nat

  type Table = map<Id, Row>

  predicate Live(t: Table, id: Id, project: string) {
    id in t && t[id].project == project && t[id].status != "deleted"
  }

  predicate NameUsed(t: Table, project: string, name: string) {
    exists id :: id in t && t[id].project == project && t[id].name == name
  }

  function Active(t: Table, project: string): set<Id> {
    set id | id in t && t[id].project == project && t[id].status != "deleted"
  }

  /** INSERT: refused by a constraint or by the unique (project, name). */
  function Insert(t: Table, id: Id, r: Row): Result<Table, Refusal>
    requires id !in t
  {
    if NameUsed(t, r.project, r.name) then Err(NameTaken)
    else if !ConstraintsOk(r) then Err(Rejected)
    else Ok(t[id := r])
  }

  function Update(t: Table, id: Id, project: string, m: Row): Result<Table, Refusal> {
    if !Live(t, id, project) then Err(NotFound)
    else if !ConstraintsOk(Written(t[id], m)) then Err(Rejected)
    else Ok(t[id := Written(t[id], m)])
  }

  class FunctionService {
    var rows: map<Id, Row>

    constructor ()
      ensures rows == map[]
    {
      rows := map[];
    }

    /** `owned`: the caller owns the project. `id` is the new row's id. */
    method CreateFunction(r: Row, owned: bool, id: Id) returns (refusal: Option<Refusal>)
      requires id !in rows
      modifies this
      ensures refusal.Some? ==> rows == old(rows)
      ensures refusal.None? ==> Insert(old(rows), id, Requested(r)) == Ok(rows)
      ensures refusal.None? ==>
        rows == old(rows)[id := r.(timeout := if r.timeout > 0 then r.timeout else 30, status := "pending")]
      ensures refusal == if ValidateCreate(r).Some? then ValidateCreate(r)
                         else if !owned then Some(NotFound)
                         else if |Active(old(rows), r.project)| >= MAX_FUNCTIONS then Some(LimitReached)
                         else if Insert(old(rows), id, Requested(r)).Err? then Some(Insert(old(rows), id, Requested(r)).error)
                         else None
    {
      if !NameOk(r.name) {
        return Some(BadName);
      }
      if !DisplayNameOk(r.displayName) {
        return Some(BadDisplayName);
      }
      if !KindOk(r.kind) {
        return Some(BadKind);
      }
      if !ModeOk(r.mode) {
        return Some(BadMode);
      }
      if !RuntimeOk(r.runtime) {
        return Some(BadRuntime);
      }
      var ok := ValidateTriggers(r.triggers);
      if !ok {
        return Some(BadTriggers);
      }
      if !SourceOk(r.source) {
        return Some(SourceTooLarge);
      }
      if !TimeoutOk(DefaultTimeout(r.timeout), r.kind, r.gpu) {
        return Some(BadTimeout);
      }
      if !owned {
        return Some(NotFound);
      }
      if |Active(rows, r.project)| >= MAX_FUNCTIONS {
        return Some(LimitReached);
      }
      var inserted := Insert(rows, id, Requested(r));
      if inserted.Err? {
        return Some(inserted.error);
      }
      rows := inserted.value;
      refusal := None;
    }

    method UpdateFunction(id: Id, project: string, owned: bool, p: Patch) returns (refusal: Option<Refusal>)
      modifies this
      ensures refusal.Some? ==> rows == old(rows)
      ensures refusal.None? ==> Live(old(rows), id, project) && rows == old(rows)[id := Merged(old(rows)[id], p)]
      ensures refusal == if !owned || !Live(old(rows), id, project) then Some(NotFound)
                         else if ValidateUpdate(Merged(old(rows)[id], p)).Some? then ValidateUpdate(Merged(old(rows)[id], p))
                         else if !ConstraintsOk(Merged(old(rows)[id], p)) then Some(Rejected)
                         else None
    {
      if !owned || !Live(rows, id, project) {
        return Some(NotFound);
      }
      var merged := MergeFunction(rows[id], p);
      if !DisplayNameOk(merged.displayName) {
        return Some(BadDisplayName);
      }
      if !ModeOk(merged.mode) {
        return Some(BadMode);
      }
      if !RuntimeOk(merged.runtime) {
        return Some(BadRuntime);
      }
      var ok := ValidateTriggers(merged.triggers);
      if !ok {
        return Some(BadTriggers);
      }
      if !SourceOk(merged.source) {
        return Some(SourceTooLarge);
      }
      var timeout := DefaultTimeout(merged.timeout);
      if !TimeoutOk(timeout, rows[id].kind, merged.gpu) {
        return Some(BadTimeout);
      }
      var updated := Update(rows, id, project, merged.(timeout := timeout));
      assert Written(rows[id], merged.(timeout := timeout)) == Merged(rows[id], p);
      if updated.Err? {
        return Some(updated.error);
      }
      rows := updated.value;
      refusal := None;
    }
  }

  // What validation accepts

  predicate Letter(c: char) {
    '0' <= c <= 'z' && !('9' < c < 'a')
  }

  /** Three to forty small letters, digits and hyphens, no hyphen at either end. */
  predicate PlainName(s: string) {
    && 2 < |s| < 41
    && (forall i :: 0 <= i < |s| ==> Letter(s[i]) || (s[i] == '-' && 0 < i < |s| - 1))
  }

  /** Seconds a function may run: thirty when light, an hour when heavy without a GPU model. */
  predicate WithinTime(timeout: int, kind: string, gpu: GpuConfig) {
    && (kind == "light-deployment" ==> timeout <= 30)
    && (kind != "light-deployment" && (!gpu.GpuModel? || gpu.model == "") ==> timeout <= 3600)
  }

  /** What an update may leave, whatever was there before. */
  predicate WellConfigured(r: Row) {
    && 1 <= |r.displayName| <= 100 && r.mode in {"sync", "async", "stream"}
    && (r.runtime.preset in {None, Some("")} <==> r.runtime.dockerfile !in {None, Some("")})
    && (r.triggers.NoTriggers?
        || (r.triggers.TriggerList?
            && forall i :: 0 <= i < |r.triggers.triggers| ==>
                 r.triggers.triggers[i].kind in {"database_change", "object_storage"}))
    && (r.source.sourceType == "inline" && r.source.config.Code? ==> r.source.config.size <= 1_048_576)
  }

  lemma PlainNames(s: string)
    ensures NameOk(s) <==> PlainName(s)
  {
    if PlainName(s) {
      assert Letter(s[0]) && Letter(s[|s| - 1]);
    }
  }

  lemma Configured(r: Row)
    requires KindOk(r.kind)
    ensures DisplayNameOk(r.displayName) && Checked(r).None? <==> WellConfigured(r) && WithinTime(r.timeout, r.kind, r.gpu)
  {
    assert Given(r.runtime.preset) <==> r.runtime.preset !in {None, Some("")};
    assert Given(r.runtime.dockerfile) <==> r.runtime.dockerfile !in {None, Some("")};
  }

  /** A request to create passes validation exactly if it is well named and well configured. */
  lemma CreateValidIff(r: Row)
    ensures ValidateCreate(r).None?
            <==> PlainName(r.name) && r.kind in {"heavy-job", "heavy-deployment", "light-deployment"} && WellConfigured(r)
                 && WithinTime(if r.timeout > 0 then r.timeout else 30, r.kind, r.gpu)
  {
    PlainNames(r.name);
    if KindOk(r.kind) {
      Configured(Requested(r));
    }
    hide NameOk, PlainName, Checked, WithinTime;
  }

  /** So does an update, on the row as it would be. */
  lemma UpdateValidIff(r: Row, p: Patch)
    requires KindOk(r.kind)
    ensures var m := MergeFunction(r, p);
      ValidateUpdate(Merged(r, p)).None?
      <==> WellConfigured(m) && WithinTime(if m.timeout > 0 then m.timeout else 30, r.kind, m.gpu)
  {
    Configured(Merged(r, p));
    hide Checked, WithinTime;
  }

  /** Every row ever stored is well named and well configured and has a time limit. */
  lemma StoredRowsPlain(actions: seq<Action>, id: Id)
    requires Exec(START, actions).Some? && id in Exec(START, actions).value.rows
    ensures var r := Exec(START, actions).value.rows[id];
      && PlainName(r.name) && r.kind in {"heavy-job", "heavy-deployment", "light-deployment"} && WellConfigured(r)
      && r.timeout > 0 && WithinTime(r.timeout, r.kind, r.gpu)
  {
    assert Exec(Exec(START, actions).value, []) == Exec(START, actions);
    EveryRunValid(actions, []);
    var r := Exec(START, actions).value.rows[id];
    assert RowOk(r);
    PlainNames(r.name);
    Configured(r);
    hide Exec, NameOk, PlainName, TimeoutOk, WithinTime;
  }

  // Merging

  /** An update sets what its request names, keeps the rest, and never touches what identifies the row. */
  lemma UpdateTakesEffect(r: Row, p: Patch)
    ensures var m := Merged(r, p);
      && (if p.displayName.Some? then p.displayName == Some(m.displayName) else m.displayName == r.displayName)
      && (if p.mode.Some? then p.mode == Some(m.mode) else m.mode == r.mode)
      && (if p.source.Some? then p.source == Some(m.source) else m.source == r.source)
      && (if p.runtime.Some? then p.runtime == Some(m.runtime) else m.runtime == r.runtime)
      && (p.timeout.Some? && p.timeout.value > 0 ==> m.timeout == p.timeout.value)
      && (p.timeout.None? && r.timeout > 0 ==> m.timeout == r.timeout)
      && (m.timeout == 30 || (p.timeout.Some? && p.timeout.value > 0) || (p.timeout.None? && r.timeout > 0))
      && (if p.gpu.Some? then p.gpu == Some(m.gpu) else m.gpu == r.gpu)
      && (if p.triggers.Some? then p.triggers == Some(m.triggers) else m.triggers == r.triggers)
      && (if p.env.Some? then p.env == Some(m.env) else m.env == r.env)
      && Written(r, m) == m
  {
  }

  /** Two updates one after the other are one update with the later settings on top. */
  lemma MergesCompose(r: Row, p: Patch, q: Patch)
    ensures Merged(Merged(r, p), q) == Merged(r, Then(p, q))
  {
  }

  /** Nothing that `p` changed is undone by rewriting what `q` does not set with the values of `r`. */
  predicate Spared(r: Row, p: Patch, q: Patch) {
    && (q.displayName.Some? || Merged(r, p).displayName == r.displayName)
    && (q.mode.Some? || Merged(r, p).mode == r.mode)
    && (q.source.Some? || Merged(r, p).source == r.source)
    && (q.runtime.Some? || Merged(r, p).runtime == r.runtime)
    && (q.timeout.Some? || Merged(r, p).timeout == DefaultTimeout(r.timeout))
    && (q.gpu.Some? || Merged(r, p).gpu == r.gpu)
    && (q.triggers.Some? || Merged(r, p).triggers == r.triggers)
    && (q.env.Some? || Merged(r, p).env == r.env)
  }

  /**
   Of two updates that read the same row, the second to write erases the first, except where both
   say what the row holds: their outcome is that of one after the other exactly then.
   */
  lemma OverlappingUpdatesIff(r: Row, p: Patch, q: Patch)
    ensures Written(Written(r, Merged(r, p)), Merged(r, q)) == Merged(Merged(r, p), q) <==> Spared(r, p, q)
  {
  }

  // Races

  datatype Call =
    | Idle
    | Counting(request: Row)                                  // validated, before the count
    | Inserting(request: Row)                                 // counted below the limit
    | Writing(id: Id, project: string, merged: Row)           // read, merged and validated

  datatype System = System(rows: Table, calls: map<nat, Call>)

  datatype Action =
    | StartCreate(w: nat, request: Row)
    | CheckLimit(w: nat)
    | InsertRow(w: nat, id: Id)
    | StartUpdate(w: nat, id: Id, project: string, patch: Patch)
    | WriteRow(w: nat)
    | GiveUp(w: nat)
    | Delete(id: Id, project: string)
    | SyncStatus(id: Id, project: string, status: string)

  const START: System := System(map[], map[])

  function CallOf(s: System, w: nat): Call {
    if w in s.calls then s.calls[w] else Idle
  }

  function Goes(s: System, w: nat, c: Call): System {
    s.(calls := s.calls[w := c])
  }

  function Next(s: System, a: Action): Option<System> {
    match a
    case StartCreate(w, r) =>
      if !CallOf(s, w).Idle? then None
      else Some(Goes(s, w, if ValidateCreate(r).None? then Counting(Requested(r)) else Idle))
    case CheckLimit(w) =>
      var c := CallOf(s, w);
      if !c.Counting? then None
      else Some(Goes(s, w, if |Active(s.rows, c.request.project)| < MAX_FUNCTIONS then Inserting(c.request) else Idle))
    case InsertRow(w, id) =>
      var c := CallOf(s, w);
      if !c.Inserting? || id in s.rows then None
      else
        var t := Insert(s.rows, id, c.request);
        Some(Goes(s.(rows := if t.Ok? then t.value else s.rows), w, Idle))
    case StartUpdate(w, id, project, p) =>
      if !CallOf(s, w).Idle? then None
      else if !Live(s.rows, id, project) then Some(Goes(s, w, Idle))
      else
        var m := Merged(s.rows[id], p);
        Some(Goes(s, w, if ValidateUpdate(m).None? then Writing(id, project, m) else Idle))
    case WriteRow(w) =>
      var c := CallOf(s, w);
      if !c.Writing? then None
      else
        var t := Update(s.rows, c.id, c.project, c.merged);
        Some(Goes(s.(rows := if t.Ok? then t.value else s.rows), w, Idle))
    case GiveUp(w) => Some(Goes(s, w, Idle))
    case Delete(id, project) =>
      if !Live(s.rows, id, project) then None
      else Some(s.(rows := s.rows[id := s.rows[id].(status := "deleted")]))
    case SyncStatus(id, project, status) =>
      if !Live(s.rows, id, project) || status == "deleted" then None
      else Some(s.(rows := s.rows[id := s.rows[id].(status := status)]))
  }

  function Exec(s: System, actions: seq<Action>): Option<System>
    decreases |actions|
  {
    if actions == [] then Some(s)
    else
      var n := Next(s, actions[0]);
      if n.None? then None else Exec(n.value, actions[1..])
  }

  /** Everything validation and the table's constraints ask of a row. */
  predicate RowOk(r: Row) {
    && NameOk(r.name) && DisplayNameOk(r.displayName) && KindOk(r.kind) && ModeOk(r.mode)
    && RuntimeOk(r.runtime) && TriggersOk(r.triggers) && SourceOk(r.source)
    && r.timeout > 0 && TimeoutOk(r.timeout, r.kind, r.gpu)
    && ConstraintsOk(r)
  }

  /** What a call in flight knows: its request is validated; the row it read still has its kind. */
  predicate CallOk(s: System, c: Call) {
    match c
    case Idle => true
    case Counting(r) => ValidRequest(r)
    case Inserting(r) => ValidRequest(r)
    case Writing(id, _, m) => id in s.rows && s.rows[id].kind == m.kind && ValidateUpdate(m).None? && m.timeout > 0
  }

  predicate ValidRequest(r: Row) {
    NameOk(r.name) && DisplayNameOk(r.displayName) && KindOk(r.kind) && Checked(r).None? && r.timeout > 0
  }

  predicate NamesUnique(t: Table) {
    forall i, j :: i in t && j in t && t[i].project == t[j].project && t[i].name == t[j].name ==> i == j
  }

  predicate Invariant(s: System) {
    && (forall id :: id in s.rows ==> RowOk(s.rows[id]))
    && NamesUnique(s.rows)
    && (forall w :: w in s.calls ==> CallOk(s, s.calls[w]))
  }

  /** Rows stay; their project, name and kind never change; a deleted row never changes at all. */
  predicate Ages(before: Table, after: Table) {
    forall id :: id in before ==>
      && id in after
      && after[id].project == before[id].project && after[id].name == before[id].name && after[id].kind == before[id].kind
      && (before[id].status == "deleted" ==> after[id] == before[id])
  }

  lemma WrittenOk(cur: Row, m: Row)
    requires RowOk(cur) && cur.kind == m.kind && ValidateUpdate(m).None? && m.timeout > 0
    requires ConstraintsOk(Written(cur, m))
    ensures RowOk(Written(cur, m))
  {
    hide NameOk, ModeOk, KindOk, DisplayNameOk, SourceOk, TriggersOk, RuntimeOk, TimeoutOk, ConstraintsOk;
  }

  lemma MergedKnown(r: Row, p: Patch)
    ensures Merged(r, p).kind == r.kind && Merged(r, p).timeout > 0
  {
  }

  /** Calls only look at what never changes. */
  lemma CallsSurvive(s: System, s': System)
    requires Ages(s.rows, s'.rows) && (forall w :: w in s.calls ==> CallOk(s, s.calls[w]))
    ensures forall w :: w in s.calls ==> CallOk(s', s.calls[w])
  {
    hide ValidRequest, ValidateUpdate;
  }

  lemma RowReplaced(s: System, id: Id, r: Row)
    requires Invariant(s) && id in s.rows && RowOk(r)
    requires r.project == s.rows[id].project && r.name == s.rows[id].name && r.kind == s.rows[id].kind
    requires s.rows[id].status != "deleted"
    ensures var s' := s.(rows := s.rows[id := r]);
      Invariant(s') && Ages(s.rows, s'.rows)
  {
    hide RowOk, CallOk;
    CallsSurvive(s, s.(rows := s.rows[id := r]));
  }

  lemma RowAdded(s: System, id: Id, r: Row)
    requires Invariant(s) && id !in s.rows && RowOk(r) && !NameUsed(s.rows, r.project, r.name)
    ensures var s' := s.(rows := s.rows[id := r]);
      Invariant(s') && Ages(s.rows, s'.rows)
  {
    hide RowOk, CallOk;
    CallsSurvive(s, s.(rows := s.rows[id := r]));
  }

  lemma CallMoves(s: System, w: nat, c: Call)
    requires Invariant(s) && CallOk(s, c)
    ensures Invariant(Goes(s, w, c)) && Ages(s.rows, Goes(s, w, c).rows)
  {
    hide RowOk, ValidRequest, ValidateUpdate;
    var s' := Goes(s, w, c);
    assert forall v :: v in s'.calls ==> CallOk(s', s'.calls[v]);
  }

  lemma StatusKeepsRow(r: Row, status: string)
    requires RowOk(r)
    ensures RowOk(r.(status := status))
  {
  }

  lemma RequestedOk(r: Row)
    requires ValidateCreate(r).None?
    ensures ValidRequest(Requested(r))
  {
  }

  lemma InsertedOk(r: Row)
    requires ValidRequest(r) && ConstraintsOk(r)
    ensures RowOk(r)
  {
  }

  lemma RestingCall(s: System)
    ensures CallOk(s, Idle)
  {
  }

  lemma CreateKeeps(s: System, a: Action)
    requires Invariant(s) && Next(s, a).Some? && (a.StartCreate? || a.CheckLimit? || a.GiveUp?)
    ensures Invariant(Next(s, a).value) && Ages(s.rows, Next(s, a).value.rows)
  {
    RestingCall(s);
    assert CallOk(s, CallOf(s, a.w));
    hide Invariant, ValidateCreate, ValidRequest, Requested, Ages, Active;
    match a {
      case StartCreate(w, r) =>
        if ValidateCreate(r).None? {
          RequestedOk(r);
          CallMoves(s, w, Counting(Requested(r)));
        } else {
          CallMoves(s, w, Idle);
        }
      case CheckLimit(w) =>
        var c := CallOf(s, w);
        CallMoves(s, w, if |Active(s.rows, c.request.project)| < MAX_FUNCTIONS then Inserting(c.request) else Idle);
      case GiveUp(w) =>
        CallMoves(s, w, Idle);
    }
  }

  lemma InsertKeeps(s: System, w: nat, id: Id)
    requires Invariant(s) && Next(s, InsertRow(w, id)).Some?
    ensures var s' := Next(s, InsertRow(w, id)).value; Invariant(s') && Ages(s.rows, s'.rows)
  {
    var c := CallOf(s, w);
    assert CallOk(s, c);
    hide Invariant, ValidRequest, ConstraintsOk, NameUsed, RowOk, Ages;
    var t := Insert(s.rows, id, c.request);
    if t.Ok? {
      InsertedOk(c.request);
      RowAdded(s, id, c.request);
      var mid := s.(rows := t.value);
      RestingCall(mid);
      CallMoves(mid, w, Idle);
    } else {
      RestingCall(s);
      CallMoves(s, w, Idle);
    }
  }

  lemma StartUpdateKeeps(s: System, w: nat, id: Id, project: string, p: Patch)
    requires Invariant(s) && Next(s, StartUpdate(w, id, project, p)).Some?
    ensures var s' := Next(s, StartUpdate(w, id, project, p)).value; Invariant(s') && Ages(s.rows, s'.rows)
  {
    hide Invariant, ValidateUpdate, Merged, Ages;
    RestingCall(s);
    if Live(s.rows, id, project) {
      MergedKnown(s.rows[id], p);
      var m := Merged(s.rows[id], p);
      CallMoves(s, w, if ValidateUpdate(m).None? then Writing(id, project, m) else Idle);
    } else {
      CallMoves(s, w, Idle);
    }
  }

  lemma WriteKeeps(s: System, w: nat)
    requires Invariant(s) && Next(s, WriteRow(w)).Some?
    ensures var s' := Next(s, WriteRow(w)).value; Invariant(s') && Ages(s.rows, s'.rows)
  {
    var c := CallOf(s, w);
    assert CallOk(s, c) && RowOk(s.rows[c.id]);
    hide Invariant, ValidateUpdate, ConstraintsOk, RowOk, Ages;
    var t := Update(s.rows, c.id, c.project, c.merged);
    if t.Ok? {
      var r := Written(s.rows[c.id], c.merged);
      WrittenOk(s.rows[c.id], c.merged);
      RowReplaced(s, c.id, r);
      var mid := s.(rows := t.value);
      RestingCall(mid);
      CallMoves(mid, w, Idle);
    } else {
      RestingCall(s);
      CallMoves(s, w, Idle);
    }
  }

  lemma StatusKeeps(s: System, id: Id, project: string, status: string)
    requires Invariant(s) && Live(s.rows, id, project)
    ensures var s' := s.(rows := s.rows[id := s.rows[id].(status := status)]);
      Invariant(s') && Ages(s.rows, s'.rows)
  {
    assert RowOk(s.rows[id]);
    hide Invariant, RowOk, Ages;
    StatusKeepsRow(s.rows[id], status);
    RowReplaced(s, id, s.rows[id].(status := status));
  }

  lemma NextKeeps(s: System, a: Action)
    requires Invariant(s) && Next(s, a).Some?
    ensures Invariant(Next(s, a).value) && Ages(s.rows, Next(s, a).value.rows)
  {
    hide Invariant, Ages;
    match a {
      case InsertRow(w, id) => InsertKeeps(s, w, id);
      case StartUpdate(w, id, project, p) => StartUpdateKeeps(s, w, id, project, p);
      case WriteRow(w) => WriteKeeps(s, w);
      case Delete(id, project) => StatusKeeps(s, id, project, "deleted");
      case SyncStatus(id, project, status) => StatusKeeps(s, id, project, status);
      case _ => CreateKeeps(s, a);
    }
  }

  lemma AgesCompose(a: Table, b: Table, c: Table)
    requires Ages(a, b) && Ages(b, c)
    ensures Ages(a, c)
  {
  }

  lemma {:induction false} RunKeeps(s: System, actions: seq<Action>)
    requires Invariant(s) && Exec(s, actions).Some?
    ensures Invariant(Exec(s, actions).value) && Ages(s.rows, Exec(s, actions).value.rows)
    decreases |actions|
  {
    hide Invariant, Next;
    if actions != [] {
      var n := Next(s, actions[0]).value;
      NextKeeps(s, actions[0]);
      RunKeeps(n, actions[1..]);
      hide Ages;
      AgesCompose(s.rows, n.rows, Exec(n, actions[1..]).value.rows);
    }
  }

  /**
   In every interleaving, every stored row passes the whole validation, names are unique in their
   project, rows keep project, name and kind for ever, and a deleted row is never written again.
   */
  lemma EveryRunValid(before: seq<Action>, after: seq<Action>)
    requires Exec(START, before).Some? && Exec(Exec(START, before).value, after).Some?
    ensures var t, u := Exec(START, before).value.rows, Exec(Exec(START, before).value, after).value.rows;
      && (forall id :: id in u ==> RowOk(u[id])) && NamesUnique(u) && Ages(t, u)
  {
    assert Invariant(START);
    hide Exec, RowOk, Ages, NamesUnique, CallOk;
    RunKeeps(START, before);
    RunKeeps(Exec(START, before).value, after);
  }

  /** A name once used, even by a deleted function, is never free again. */
  lemma UsedNamesStayUsed(before: seq<Action>, after: seq<Action>, project: string, name: string)
    requires Exec(START, before).Some? && Exec(Exec(START, before).value, after).Some?
    requires NameUsed(Exec(START, before).value.rows, project, name)
    ensures NameUsed(Exec(Exec(START, before).value, after).value.rows, project, name)
  {
    hide Exec, RowOk;
    EveryRunValid(before, after);
    var t, u := Exec(START, before).value.rows, Exec(Exec(START, before).value, after).value.rows;
    var id :| id in t && t[id].project == project && t[id].name == name;
    assert id in u && u[id].project == project && u[id].name == name;
  }

  // The limit per project

  function InsertingFor(s: System, project: string): set<nat> {
    set w | w in s.calls && s.calls[w].Inserting? && s.calls[w].request.project == project
  }

  predicate InTeam(a: Action, team: nat) {
    !a.Delete? && !a.SyncStatus? ==> a.w < team
  }

  ghost predicate Bounded(s: System, team: nat) {
    && (forall w :: w in s.calls ==> w < team)
    && (forall p: string :: |Active(s.rows, p)| + |InsertingFor(s, p)| <= MAX_FUNCTIONS - 1 + team)
  }

  lemma FewerKeep(s: System, s': System, team: nat)
    requires Bounded(s, team) && forall w :: w in s'.calls ==> w < team
    requires forall p :: Active(s'.rows, p) <= Active(s.rows, p) && InsertingFor(s', p) <= InsertingFor(s, p)
    ensures Bounded(s', team)
  {
    hide Active, InsertingFor;
    forall p: string
      ensures |Active(s'.rows, p)| + |InsertingFor(s', p)| <= MAX_FUNCTIONS - 1 + team
    {
      Smaller(Active(s'.rows, p), Active(s.rows, p));
      Smaller(InsertingFor(s', p), InsertingFor(s, p));
    }
  }

  lemma InsertionTrades(s: System, w: nat, id: Id, r: Row, team: nat)
    requires Bounded(s, team) && w in s.calls && s.calls[w] == Inserting(r) && id !in s.rows
    ensures Bounded(Goes(s.(rows := s.rows[id := r]), w, Idle), team)
  {
    var s' := Goes(s.(rows := s.rows[id := r]), w, Idle);
    forall p: string
      ensures |Active(s'.rows, p)| + |InsertingFor(s', p)| <= MAX_FUNCTIONS - 1 + team
    {
      ActiveGrows(s.rows, id, r, p);
      InsertingLeaves(s, s', w, p);
      assert w in InsertingFor(s, p) <==> p == r.project;
      hide Active, InsertingFor;
      if p == r.project {
        Smaller(Active(s'.rows, p), Active(s.rows, p) + {id});
      }
    }
  }

  lemma ActiveGrows(t: Table, id: Id, r: Row, project: string)
    requires id !in t
    ensures Active(t[id := r], project) <= Active(t, project) + {id}
    ensures project != r.project ==> Active(t[id := r], project) == Active(t, project)
  {
  }

  lemma InsertingLeaves(s: System, s': System, w: nat, project: string)
    requires s'.calls == s.calls[w := Idle]
    ensures InsertingFor(s', project) == InsertingFor(s, project) - {w}
  {
  }

  lemma AdmissionFits(s: System, w: nat, r: Row, team: nat)
    requires Bounded(s, team) && w < team && |Active(s.rows, r.project)| < MAX_FUNCTIONS
    ensures Bounded(Goes(s, w, Inserting(r)), team)
  {
    var s' := Goes(s, w, Inserting(r));
    forall p: string
      ensures |Active(s'.rows, p)| + |InsertingFor(s', p)| <= MAX_FUNCTIONS - 1 + team
    {
      if p == r.project {
        TeamSize(InsertingFor(s', p), team);
      } else {
        assert InsertingFor(s', p) <= InsertingFor(s, p);
        Smaller(InsertingFor(s', p), InsertingFor(s, p));
      }
    }
  }

  lemma NextKeepsBound(s: System, a: Action, team: nat)
    requires Bounded(s, team) && InTeam(a, team) && Next(s, a).Some?
    ensures Bounded(Next(s, a).value, team)
  {
    assert forall w :: w in s.calls ==> w < team;
    hide Bounded, ValidateCreate, ValidateUpdate, ConstraintsOk, NameUsed, Merged, Requested;
    var s' := Next(s, a).value;
    if a.InsertRow? && Insert(s.rows, a.id, CallOf(s, a.w).request).Ok? {
      InsertionTrades(s, a.w, a.id, CallOf(s, a.w).request, team);
    } else if a.CheckLimit? && CallOf(s', a.w).Inserting? {
      AdmissionFits(s, a.w, CallOf(s, a.w).request, team);
    } else {
      FewerKeep(s, s', team);
    }
  }

  lemma {:induction false} RunKeepsBound(s: System, actions: seq<Action>, team: nat)
    requires Bounded(s, team) && Exec(s, actions).Some?
    requires forall i :: 0 <= i < |actions| ==> InTeam(actions[i], team)
    ensures Bounded(Exec(s, actions).value, team)
    decreases |actions|
  {
    hide Bounded, Next, InTeam;
    if actions != [] {
      NextKeepsBound(s, actions[0], team);
      RunKeepsBound(Next(s, actions[0]).value, actions[1..], team);
    }
  }

  /** The count and the insert are two statements: `team` concurrent calls can pass the limit by `team - 1`. */
  lemma FunctionsWithinLimit(actions: seq<Action>, team: nat, project: string)
    requires team > 0 && Exec(START, actions).Some?
    requires forall i :: 0 <= i < |actions| ==> InTeam(actions[i], team)
    ensures |Active(Exec(START, actions).value.rows, project)| <= 10 + (team - 1)
  {
    forall p: string
      ensures Active(START.rows, p) == {} && InsertingFor(START, p) == {}
    {
    }
    RunKeepsBound(START, actions, team);
  }

  // How far the limit is passed

  ghost predicate Reaches(team: nat, s: System, t: System) {
    exists actions :: Exec(s, actions) == Some(t) && AllInTeam(actions, team)
  }

  predicate AllInTeam(actions: seq<Action>, team: nat) {
    forall i :: 0 <= i < |actions| ==> InTeam(actions[i], team)
  }

  lemma {:induction false} ExecJoin(s: System, first: seq<Action>, rest: seq<Action>)
    requires Exec(s, first).Some?
    ensures Exec(s, first + rest) == Exec(Exec(s, first).value, rest)
    decreases |first|
  {
    hide Next;
    if first == [] {
      assert first + rest == rest;
    } else {
      assert (first + rest)[1..] == first[1..] + rest;
      ExecJoin(Next(s, first[0]).value, first[1..], rest);
    }
  }

  lemma OneAction(team: nat, s: System, a: Action, t: System)
    requires Next(s, a) == Some(t) && InTeam(a, team)
    ensures Reaches(team, s, t)
  {
    hide Next, InTeam;
    assert [a][1..] == [];
    assert Exec(t, []) == Some(t);
    assert Exec(s, [a]) == Some(t) && AllInTeam([a], team);
  }

  lemma Onward(team: nat, s: System, m: System, t: System)
    requires Reaches(team, s, m) && Reaches(team, m, t)
    ensures Reaches(team, s, t)
  {
    hide Exec, InTeam;
    var first :| Exec(s, first) == Some(m) && AllInTeam(first, team);
    var rest :| Exec(m, rest) == Some(t) && AllInTeam(rest, team);
    ExecJoin(s, first, rest);
    assert Exec(s, first + rest) == Some(t) && AllInTeam(first + rest, team);
  }

  lemma Stays(team: nat, s: System)
    ensures Reaches(team, s, s)
  {
    assert Exec(s, []) == Some(s) && AllInTeam([], team);
  }

  const NAMES: nat := Power(Decimal, 37)

  /** Forty characters, as many as a name may have. */
  function NameNumber(i: nat): string {
    "fn-" + Padded(i, 37, Decimal, true)
  }

  lemma NameNumbers(i: nat, j: nat)
    requires i < NAMES && j < NAMES
    ensures NameOk(NameNumber(i))
    ensures NameNumber(i) == NameNumber(j) ==> i == j
  {
    hide Power, Padded, Value;
    PaddedRoundTrip(i, 37, Decimal, true);
    PaddedRoundTrip(j, 37, Decimal, true);
    var s := NameNumber(i);
    assert s[3..] == Padded(i, 37, Decimal, true) && NameNumber(j)[3..] == Padded(j, 37, Decimal, true);
    assert forall k :: 3 <= k < |s| ==> s[k] == s[3..][k - 3];
    assert s[0] == 'f' && s[1] == 'n' && s[2] == '-';
  }

  predicate Creatable(r: Row) {
    ValidateCreate(r).None? && ConstraintsOk(Requested(r))
  }

  /** The row a request for the `i`-th function makes. */
  function Numbered(r: Row, i: nat): Row {
    Requested(r).(name := NameNumber(i))
  }

  function FirstRows(r: Row, k: nat): Table {
    map i: nat | i < k :: Numbered(r, i)
  }

  lemma {:induction false} FirstRowsCount(r: Row, k: nat)
    ensures |Active(FirstRows(r, k), r.project)| == k
    decreases k
  {
    hide *;
    if k == 0 {
      NoRows(r);
    } else {
      NextRow(r, k - 1);
      NumberedLive(r, k - 1);
      FirstRowsCount(r, k - 1);
      OneMore(FirstRows(r, k - 1), k - 1, Numbered(r, k - 1));
    }
  }

  lemma NoRows(r: Row)
    ensures Active(FirstRows(r, 0), r.project) == {}
  {
  }

  lemma NumberedLive(r: Row, i: nat)
    ensures Numbered(r, i).project == r.project && Numbered(r, i).status != "deleted"
  {
    hide NameNumber;
    assert "pending"[0] != "deleted"[0];
  }

  lemma NextRow(r: Row, k: nat)
    ensures k !in FirstRows(r, k) && FirstRows(r, k)[k := Numbered(r, k)] == FirstRows(r, k + 1)
  {
    hide Numbered;
  }

  lemma OneMore(t: Table, i: Id, r: Row)
    requires i !in t && r.status != "deleted"
    ensures |Active(t[i := r], r.project)| == |Active(t, r.project)| + 1
  {
    assert Active(t[i := r], r.project) == Active(t, r.project) + {i};
  }

  lemma NumberedValid(r: Row, i: nat)
    requires Creatable(r) && i < NAMES
    ensures ValidateCreate(r.(name := NameNumber(i))).None? && ConstraintsOk(Numbered(r, i))
    ensures Requested(r.(name := NameNumber(i))) == Numbered(r, i)
  {
    NameNumbers(i, i);
    hide NameOk, Checked, NAMES, NameNumber;
    assert |NameNumber(i)| <= 40;
  }

  lemma GoesOn(s: System, w: nat, c: Call, d: Call)
    ensures CallOf(Goes(s, w, c), w) == c && Goes(s, w, c).rows == s.rows
    ensures Goes(Goes(s, w, c), w, d) == Goes(s, w, d)
  {
    assert s.calls[w := c][w := d] == s.calls[w := d];
  }

  lemma Counts(s: System, w: nat, request: Row)
    requires ValidateCreate(request).None? && CallOf(s, w).Idle?
    ensures Next(s, StartCreate(w, request)) == Some(Goes(s, w, Counting(Requested(request))))
  {
    hide Goes, Requested, ValidateCreate;
  }

  lemma Passes(s: System, w: nat, r: Row)
    requires CallOf(s, w) == Counting(r) && |Active(s.rows, r.project)| < MAX_FUNCTIONS
    ensures Next(s, CheckLimit(w)) == Some(Goes(s, w, Inserting(r)))
  {
    hide Goes, Active;
  }

  lemma Inserts(s: System, w: nat, id: Id, r: Row)
    requires CallOf(s, w) == Inserting(r) && id !in s.rows
    requires !NameUsed(s.rows, r.project, r.name) && ConstraintsOk(r)
    ensures Next(s, InsertRow(w, id)) == Some(Goes(s.(rows := s.rows[id := r]), w, Idle))
  {
    hide Goes, NameUsed, ConstraintsOk;
  }

  /** A call that counts while there is room is let through. */
  lemma LetThrough(team: nat, s: System, w: nat, r: Row, i: nat)
    requires w < team && Creatable(r) && i < NAMES && |Active(s.rows, r.project)| < MAX_FUNCTIONS
    ensures Reaches(team, s, Goes(s, w, Inserting(Numbered(r, i))))
  {
    var row := Numbered(r, i);
    var idle, counting, inserting := Goes(s, w, Idle), Goes(s, w, Counting(row)), Goes(s, w, Inserting(row));
    NumberedValid(r, i);
    assert row.project == r.project;
    OneAction(team, s, GiveUp(w), idle);
    hide *;
    GoesOn(s, w, Idle, Counting(row));
    Counts(idle, w, r.(name := NameNumber(i)));
    InTeamOf(StartCreate(w, r.(name := NameNumber(i))), CheckLimit(w), team);
    OneAction(team, idle, StartCreate(w, r.(name := NameNumber(i))), counting);
    GoesOn(s, w, Counting(row), Inserting(row));
    Passes(counting, w, row);
    OneAction(team, counting, CheckLimit(w), inserting);
    Onward(team, s, idle, counting);
    Onward(team, s, counting, inserting);
  }

  lemma InTeamOf(a: Action, b: Action, team: nat)
    requires !a.Delete? && !a.SyncStatus? && a.w < team && !b.Delete? && !b.SyncStatus? && b.w < team
    ensures InTeam(a, team) && InTeam(b, team)
  {
  }

  lemma NextName(r: Row, k: nat)
    requires k < NAMES
    ensures !NameUsed(FirstRows(r, k), Numbered(r, k).project, Numbered(r, k).name)
  {
    hide NameNumber, NAMES;
    forall i | i in FirstRows(r, k)
      ensures FirstRows(r, k)[i].name != NameNumber(k)
    {
      NameNumbers(i, k);
    }
  }

  /** Its insert then adds the next row. */
  lemma OneMoreRow(team: nat, s: System, w: nat, r: Row, k: nat)
    requires w < team && Creatable(r) && k < NAMES && s.rows == FirstRows(r, k)
    requires CallOf(s, w) == Inserting(Numbered(r, k))
    ensures Reaches(team, s, Goes(s.(rows := FirstRows(r, k + 1)), w, Idle))
  {
    NumberedValid(r, k);
    NextName(r, k);
    NextRow(r, k);
    InTeamOf(InsertRow(w, k), InsertRow(w, k), team);
    hide *;
    Inserts(s, w, k, Numbered(r, k));
    OneAction(team, s, InsertRow(w, k), Goes(s.(rows := FirstRows(r, k + 1)), w, Idle));
  }

  /** One call after the other makes any number of functions up to the limit. */
  lemma {:induction false} Filled(team: nat, r: Row, k: nat) returns (t: System)
    requires 0 < team && Creatable(r) && k <= MAX_FUNCTIONS <= NAMES
    ensures Reaches(team, START, t) && t.rows == FirstRows(r, k)
    decreases k
  {
    hide *;
    if k == 0 {
      t := START;
      Stays(team, START);
      NothingYet(r);
    } else {
      t := Filled(team, r, k - 1);
      t := OneMoreFilled(team, r, k - 1, t);
    }
  }

  lemma NothingYet(r: Row)
    ensures START.rows == FirstRows(r, 0)
  {
  }

  lemma OneMoreFilled(team: nat, r: Row, k: nat, m: System) returns (t: System)
    requires 0 < team && Creatable(r) && k < MAX_FUNCTIONS <= NAMES
    requires Reaches(team, START, m) && m.rows == FirstRows(r, k)
    ensures Reaches(team, START, t) && t.rows == FirstRows(r, k + 1)
  {
    hide *;
    FirstRowsCount(r, k);
    var a := Goes(m, 0, Inserting(Numbered(r, k)));
    GoesOn(m, 0, Inserting(Numbered(r, k)), Idle);
    LetThrough(team, m, 0, r, k);
    OneMoreRow(team, a, 0, r, k);
    t := Goes(a.(rows := FirstRows(r, k + 1)), 0, Idle);
    GoesOn(a.(rows := FirstRows(r, k + 1)), 0, Idle, Idle);
    Onward(team, START, m, a);
    Onward(team, START, a, t);
  }

  /** Calls `from` up to `to` have counted and not inserted, call `w` for function `base + w`. */
  ghost predicate Waiting(r: Row, s: System, base: nat, from: nat, to: nat) {
    forall w :: from <= w < to ==> Waits(r, s, base, w)
  }

  predicate Waits(r: Row, s: System, base: nat, w: nat) {
    CallOf(s, w) == Inserting(Numbered(r, base + w))
  }

  /** With one place left, any number of calls count before the first inserts. */
  lemma {:induction false} AllLetThrough(team: nat, r: Row, n: nat) returns (t: System)
    requires 0 < n <= team && Creatable(r) && MAX_FUNCTIONS - 1 + n <= NAMES && MAX_FUNCTIONS <= NAMES
    ensures Reaches(team, START, t) && t.rows == FirstRows(r, MAX_FUNCTIONS - 1)
    ensures Waiting(r, t, MAX_FUNCTIONS - 1, 0, n)
    decreases n
  {
    hide Reaches, Creatable, FirstRows, Numbered, NAMES;
    var base, w := MAX_FUNCTIONS - 1, n - 1;
    var m;
    if n == 1 {
      m := Filled(team, r, base);
    } else {
      m := AllLetThrough(team, r, n - 1);
    }
    FirstRowsCount(r, base);
    LetThrough(team, m, w, r, base + w);
    t := Goes(m, w, Inserting(Numbered(r, base + w)));
    Onward(team, START, m, t);
    forall v | 0 <= v < w
      ensures Waits(r, t, base, v)
    {
      assert Waits(r, m, base, v);
    }
  }

  /** Then all of them insert. */
  lemma {:induction false} AllInsert(team: nat, r: Row, s: System, base: nat, from: nat, n: nat) returns (t: System)
    requires from <= n <= team && Creatable(r) && base + n <= NAMES
    requires s.rows == FirstRows(r, base + from) && Waiting(r, s, base, from, n)
    ensures t.rows == FirstRows(r, base + n) && Reaches(team, s, t)
    decreases n - from
  {
    hide Reaches, Creatable, FirstRows, Numbered, NAMES;
    if from == n {
      t := s;
      Stays(team, s);
    } else {
      assert Waits(r, s, base, from);
      OneMoreRow(team, s, from, r, base + from);
      var m := Goes(s.(rows := FirstRows(r, base + from + 1)), from, Idle);
      forall w | from + 1 <= w < n
        ensures Waits(r, m, base, w)
      {
        assert Waits(r, s, base, w);
      }
      t := AllInsert(team, r, m, base, from + 1, n);
      Onward(team, s, m, t);
    }
  }

  /** `team` concurrent calls can come to this many live functions of the project. */
  ghost predicate CanHave(team: nat, project: string, functions: nat) {
    exists actions :: Exec(START, actions).Some? && AllInTeam(actions, team)
      && |Active(Exec(START, actions).value.rows, project)| == functions
  }

  lemma Has(team: nat, t: System, project: string)
    requires Reaches(team, START, t)
    ensures CanHave(team, project, |Active(t.rows, project)|)
  {
    hide Exec, AllInTeam;
    var actions :| Exec(START, actions) == Some(t) && AllInTeam(actions, team);
  }

  /** For every number of concurrent calls that names suffice for, a run attains the bound. */
  lemma LimitAttained(team: nat, r: Row)
    requires team > 0 && Creatable(r) && MAX_FUNCTIONS - 1 + team <= NAMES
    ensures CanHave(team, r.project, 10 + team - 1)
  {
    hide Reaches, Creatable, FirstRows, Waiting, CanHave;
    TenNames();
    hide NAMES;
    var base := MAX_FUNCTIONS - 1;
    var m := AllLetThrough(team, r, team);
    var t := AllInsert(team, r, m, base, 0, team);
    Onward(team, START, m, t);
    FirstRowsCount(r, base + team);
    Has(team, t, r.project);
  }

  lemma TenNames()
    ensures MAX_FUNCTIONS + 1 <= NAMES
  {
    assert Power(Decimal, 37) == 100 * Power(Decimal, 35);
    PowerPositive(35);
  }

  lemma {:induction false} PowerPositive(e: nat)
    ensures Power(Decimal, e) > 0
  {
    if e > 0 {
      PowerPositive(e - 1);
    }
  }

  lemma TeamsNest(team: nat, more: nat, project: string, functions: nat)
    requires team <= more && CanHave(team, project, functions)
    ensures CanHave(more, project, functions)
  {
    hide Exec;
    var actions :| Exec(START, actions).Some? && AllInTeam(actions, team)
      && |Active(Exec(START, actions).value.rows, project)| == functions;
    assert AllInTeam(actions, more);
  }

  /** The limit of ten holds over every run exactly if calls do not overlap. */
  lemma LimitKeptIff(team: nat, r: Row)
    requires team > 0 && Creatable(r)
    ensures team == 1 <==>
            forall functions: nat :: CanHave(team, r.project, functions) ==> functions <= 10
  {
    hide Exec, Active, Creatable;
    forall functions: nat | team == 1 && CanHave(team, r.project, functions)
      ensures functions <= MAX_FUNCTIONS
    {
      var actions :| Exec(START, actions).Some? && AllInTeam(actions, team)
        && |Active(Exec(START, actions).value.rows, r.project)| == functions;
      FunctionsWithinLimit(actions, team, r.project);
    }
    if team > 1 {
      hide CanHave;
      TenNames();
      LimitAttained(2, r);
      TeamsNest(2, team, r.project, MAX_FUNCTIONS + 1);
    }
  }
}
