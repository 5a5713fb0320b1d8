/** Turning WAL row changes into CDC events (the replication handler). */
module CdcHandler {
  import opened Wrappers
  import opened Text
  import opened EventIdentity
  import opened Pgoutput

  /** A decoded cell. `Typed` stands for the value parsed from the text under its type OID. */
  datatype Cell = Null | Typed(text: string, typeOid: nat) | Verbatim(bytes: string)

  type Row = Option<map<string, Cell>>

  datatype CdcEvent = CdcEvent(
    eventID: string, projectID: string, table: string, operation: string,
    timestamp: int, oldRow: Row, newRow: Row)

  datatype HandlerError = UnknownRelation(id: nat)

  /** What the handler remembers between messages. */
  datatype State = State(relations: map<nat, Relation>, xid: nat, commitTime: int)

  const FRESH: State := State(map[], 0, 0)

  /** How a message that is not a row change moves the handler's memory. */
  function Observe(h: State, m: Message): State {
    match m
    case RelationMessage(id, rel) => h.(relations := h.relations[id := rel])
    case BeginMessage(xid, ts) => h.(xid := xid, commitTime := ts)
    case _ => h
  }

  function DecodeCell(c: Column, meta: ColumnMeta): Cell {
    if c.kind == 'n' then Null
    else if c.kind == 't' then Typed(c.data, meta.typeOid)
    else Verbatim(c.data)
  }

  /** The first `n` columns that have metadata; unchanged TOAST columns leave no entry. */
  function DecodedPrefix(cols: seq<Column>, metas: seq<ColumnMeta>, n: nat): map<string, Cell>
    requires n <= |cols| && n <= |metas|
  {
    if n == 0 then map[]
    else
      var row := DecodedPrefix(cols, metas, n - 1);
      if cols[n - 1].kind == 'u' then row
      else row[metas[n - 1].name := DecodeCell(cols[n - 1], metas[n - 1])]
  }

  function Shorter(a: nat, b: nat): nat { if a <= b then a else b }

  function DecodedTuple(t: Tuple, rel: Relation): Row {
    if t.None? then None
    else Some(DecodedPrefix(t.value, rel.columns, Shorter(|t.value|, |rel.columns|)))
  }

  /** Column `i` is the one that decides the cell called `name`. */
  ghost predicate Decides(cols: seq<Column>, metas: seq<ColumnMeta>, n: nat, i: nat, name: string)
    requires n <= |cols| && n <= |metas|
  {
    && i < n && metas[i].name == name && cols[i].kind != 'u'
    && forall j :: i < j < n && metas[j].name == name ==> cols[j].kind == 'u'
  }

  /**
   A row holds exactly the columns that were sent with a value: a name is present if and only if
   some column of that name was not an unchanged TOAST value, and the last such column decides it.
   */
  lemma {:induction false} DecodedPrefixMeaning(cols: seq<Column>, metas: seq<ColumnMeta>, n: nat, name: string)
    requires n <= |cols| && n <= |metas|
    ensures name in DecodedPrefix(cols, metas, n)
            <==> exists i :: 0 <= i < n && metas[i].name == name && cols[i].kind != 'u'
    ensures forall i :: 0 <= i < n && Decides(cols, metas, n, i, name) ==>
      && name in DecodedPrefix(cols, metas, n)
      && DecodedPrefix(cols, metas, n)[name] == DecodeCell(cols[i], metas[i])
  {
    hide DecodeCell;
    if n > 0 {
      DecodedPrefixMeaning(cols, metas, n - 1, name);
      forall i | 0 <= i < n && Decides(cols, metas, n, i, name)
        ensures name in DecodedPrefix(cols, metas, n)
        ensures DecodedPrefix(cols, metas, n)[name] == DecodeCell(cols[i], metas[i])
      {
        if i < n - 1 {
          assert Decides(cols, metas, n - 1, i, name);
        }
      }
    }
  }

  /** The event a row change yields, or the error for a table the handler has not been told of. */
  function EventOf(h: State, projectID: string, lsn: Lsn, m: Message): Result<CdcEvent, HandlerError>
    requires m.IsChange()
  {
    if m.relId !in h.relations then Err(UnknownRelation(m.relId))
    else
      var rel := h.relations[m.relId];
      var id := BuildEventID(projectID, lsn, h.xid);
      match m
      case InsertMessage(_, t) =>
        Ok(CdcEvent(id, projectID, rel.name, "INSERT", h.commitTime, None, DecodedTuple(t, rel)))
      case UpdateMessage(_, o, t) =>
        Ok(CdcEvent(id, projectID, rel.name, "UPDATE", h.commitTime, DecodedTuple(o, rel), DecodedTuple(t, rel)))
      case DeleteMessage(_, o) =>
        Ok(CdcEvent(id, projectID, rel.name, "DELETE", h.commitTime, DecodedTuple(o, rel), None))
  }

  /** Column `i` is the last of its name that was sent with a value. */
  ghost predicate LastSent(t: seq<Column>, rel: Relation, i: nat) {
    && i < |t| && i < |rel.columns| && t[i].kind != 'u'
    && forall j :: i < j < |t| && j < |rel.columns| && rel.columns[j].name == rel.columns[i].name ==> t[j].kind == 'u'
  }

  /**
   The row shows the tuple: there is one exactly if a tuple was sent, with an entry for each column
   sent, which is null for kind 'n', the text with its type for kind 't', the bytes for any other.
   */
  ghost predicate Shows(row: Row, t: Tuple, rel: Relation) {
    && (row.None? <==> t.None?)
    && (t.Some? ==>
          && (forall name :: name in row.value ==>
                exists i :: 0 <= i < |rel.columns| && rel.columns[i].name == name && LastSent(t.value, rel, i))
          && (forall i :: 0 <= i < |rel.columns| && LastSent(t.value, rel, i) ==>
                var name, col := rel.columns[i].name, t.value[i];
                && name in row.value
                && (col.kind == 'n' ==> row.value[name] == Null)
                && (col.kind == 't' ==> row.value[name] == Typed(col.data, rel.columns[i].typeOid))
                && (col.kind != 'n' && col.kind != 't' ==> row.value[name] == Verbatim(col.data))))
  }

  /** What a subscriber is told of a change of this table in this transaction. */
  ghost predicate Tells(e: CdcEvent, projectID: string, lsn: Lsn, xid: nat, commitTime: int, rel: Relation, m: Message)
    requires m.IsChange()
  {
    && e.eventID == projectID + "-" + LsnText(lsn) + "-" + Numeral(xid, Decimal)
    && e.projectID == projectID && e.table == rel.name && e.timestamp == commitTime
    && (m.InsertMessage? ==> e.operation == "INSERT" && e.oldRow == None && Shows(e.newRow, m.newTuple, rel))
    && (m.UpdateMessage? ==>
          e.operation == "UPDATE" && Shows(e.oldRow, m.oldTuple, rel) && Shows(e.newRow, m.newTuple, rel))
    && (m.DeleteMessage? ==> e.operation == "DELETE" && Shows(e.oldRow, m.oldTuple, rel) && e.newRow == None)
  }

  /** Some column sent with this name: then one of them is the last. */
  lemma {:induction false} SomeLastSent(t: seq<Column>, rel: Relation, i: nat) returns (k: nat)
    requires i < |t| && i < |rel.columns| && t[i].kind != 'u'
    ensures i <= k < |rel.columns| && rel.columns[k].name == rel.columns[i].name && LastSent(t, rel, k)
    decreases |t| - i
  {
    if j :| i < j < |t| && j < |rel.columns| && rel.columns[j].name == rel.columns[i].name && t[j].kind != 'u' {
      k := SomeLastSent(t, rel, j);
    } else {
      k := i;
    }
  }

  lemma DecodedShows(t: Tuple, rel: Relation)
    ensures Shows(DecodedTuple(t, rel), t, rel)
  {
    if t.Some? {
      var n := Shorter(|t.value|, |rel.columns|);
      var row := DecodedTuple(t, rel).value;
      forall name | name in row
        ensures exists i :: 0 <= i < |rel.columns| && rel.columns[i].name == name && LastSent(t.value, rel, i)
      {
        DecodedPrefixMeaning(t.value, rel.columns, n, name);
        var i :| 0 <= i < n && rel.columns[i].name == name && t.value[i].kind != 'u';
        var k := SomeLastSent(t.value, rel, i);
      }
      forall i | 0 <= i < |rel.columns| && LastSent(t.value, rel, i)
        ensures rel.columns[i].name in row && row[rel.columns[i].name] == DecodeCell(t.value[i], rel.columns[i])
      {
        DecodedPrefixMeaning(t.value, rel.columns, n, rel.columns[i].name);
        assert Decides(t.value, rel.columns, n, i, rel.columns[i].name);
      }
    }
  }

  /** A change of a table the handler knows is told; of any other it is an error. */
  lemma EventTells(h: State, projectID: string, lsn: Lsn, m: Message)
    requires m.IsChange()
    ensures var r := EventOf(h, projectID, lsn, m);
      && (r.Ok? <==> m.relId in h.relations)
      && (r.Ok? ==> Tells(r.value, projectID, lsn, h.xid, h.commitTime, h.relations[m.relId], m))
  {
    if m.relId in h.relations {
      var rel := h.relations[m.relId];
      match m {
        case InsertMessage(_, t) => DecodedShows(t, rel);
        case UpdateMessage(_, o, t) => DecodedShows(o, rel); DecodedShows(t, rel);
        case DeleteMessage(_, o) => DecodedShows(o, rel);
      }
    }
    hide Shows, DecodedTuple;
  }

  class Handler {
    var relations: map<nat, Relation>
    var currentTxID: nat
    var currentTxTS: int

    function Memory(): State
      reads this
    {
      State(relations, currentTxID, currentTxTS)
    }

    constructor ()
      ensures Memory() == FRESH
    {
      relations, currentTxID, currentTxTS := map[], 0, 0;
    }

    method HandleRelationMessage(id: nat, rel: Relation)
      modifies this
      ensures Memory() == Observe(old(Memory()), RelationMessage(id, rel))
      ensures relations == old(relations)[id := rel] && currentTxID == old(currentTxID) && currentTxTS == old(currentTxTS)
    {
      relations := relations[id := rel];
    }

    method HandleBeginMessage(xid: nat, commitTime: int)
      modifies this
      ensures Memory() == Observe(old(Memory()), BeginMessage(xid, commitTime))
      ensures currentTxID == xid && currentTxTS == commitTime && relations == old(relations)
    {
      currentTxID := xid;
      currentTxTS := commitTime;
    }

    method HandleInsertMessage(relId: nat, tuple: Tuple, projectID: string, lsn: Lsn)
      returns (r: Result<CdcEvent, HandlerError>)
      ensures r == EventOf(Memory(), projectID, lsn, InsertMessage(relId, tuple))
      ensures r.Ok? <==> relId in relations
      ensures r.Ok? ==> Tells(r.value, projectID, lsn, currentTxID, currentTxTS, relations[relId], InsertMessage(relId, tuple))
    {
      EventTells(Memory(), projectID, lsn, InsertMessage(relId, tuple));
      if relId !in relations {
        return Err(UnknownRelation(relId));
      }
      var rel := relations[relId];
      var newRow := DecodeTuple(tuple, rel);
      var id := BuildEventID(projectID, lsn, currentTxID);
      r := Ok(CdcEvent(id, projectID, rel.name, "INSERT", currentTxTS, None, newRow));
    }

    method HandleUpdateMessage(relId: nat, oldTuple: Tuple, newTuple: Tuple, projectID: string, lsn: Lsn)
      returns (r: Result<CdcEvent, HandlerError>)
      ensures r == EventOf(Memory(), projectID, lsn, UpdateMessage(relId, oldTuple, newTuple))
      ensures r.Ok? <==> relId in relations
      ensures r.Ok? ==> Tells(r.value, projectID, lsn, currentTxID, currentTxTS, relations[relId], UpdateMessage(relId, oldTuple, newTuple))
    {
      EventTells(Memory(), projectID, lsn, UpdateMessage(relId, oldTuple, newTuple));
      if relId !in relations {
        return Err(UnknownRelation(relId));
      }
      var rel := relations[relId];
      var oldRow: Row := None;
      if oldTuple.Some? {
        oldRow := DecodeTuple(oldTuple, rel);
      }
      var newRow := DecodeTuple(newTuple, rel);
      var id := BuildEventID(projectID, lsn, currentTxID);
      r := Ok(CdcEvent(id, projectID, rel.name, "UPDATE", currentTxTS, oldRow, newRow));
    }

    method HandleDeleteMessage(relId: nat, oldTuple: Tuple, projectID: string, lsn: Lsn)
      returns (r: Result<CdcEvent, HandlerError>)
      ensures r == EventOf(Memory(), projectID, lsn, DeleteMessage(relId, oldTuple))
      ensures r.Ok? <==> relId in relations
      ensures r.Ok? ==> Tells(r.value, projectID, lsn, currentTxID, currentTxTS, relations[relId], DeleteMessage(relId, oldTuple))
    {
      EventTells(Memory(), projectID, lsn, DeleteMessage(relId, oldTuple));
      if relId !in relations {
        return Err(UnknownRelation(relId));
      }
      var rel := relations[relId];
      var oldRow: Row := None;
      if oldTuple.Some? {
        oldRow := DecodeTuple(oldTuple, rel);
      }
      var id := BuildEventID(projectID, lsn, currentTxID);
      r := Ok(CdcEvent(id, projectID, rel.name, "DELETE", currentTxTS, oldRow, None));
    }

    static method DecodeTuple(tuple: Tuple, rel: Relation) returns (row: Row)
      ensures row == DecodedTuple(tuple, rel)
    {
      if tuple.None? {
        return None;
      }
      var cols := tuple.value;
      var cells: map<string, Cell> := map[];
      for i := 0 to |cols|
        invariant cells == DecodedPrefix(cols, rel.columns, Shorter(i, |rel.columns|))
      {
        if i >= |rel.columns| {
          break;
        }
        var meta := rel.columns[i];
        var col := cols[i];
        if col.kind == 'n' {
          cells := cells[meta.name := Null];
        } else if col.kind == 'u' {
          continue;
        } else if col.kind == 't' {
          cells := cells[meta.name := Typed(col.data, meta.typeOid)];
        } else {
          cells := cells[meta.name := Verbatim(col.data)];
        }
      }
      row := Some(cells);
    }
  }
}
