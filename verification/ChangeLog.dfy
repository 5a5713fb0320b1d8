/** What the ideal stream tells its subscribers, read off the change log itself. */
module ChangeLog {
  import opened Wrappers
  import opened EventIdentity
  import opened Pgoutput
  import opened CdcHandler
  import opened JetStream
  import opened Replication
  import opened CdcProtocol
  import Subjects
  import Text

  /** Frame `b` opens the transaction of frame `k`. */
  ghost predicate Opens(w: Wal, b: nat, k: nat) {
    && b < k < |w| && w[b].x.msg.BeginMessage? && w[b].commitEnd == w[k].commitEnd
    && forall j :: b < j <= k ==> !w[j].x.msg.BeginMessage?
  }

  /** Frame `r` is the last before `k` in its transaction, opened by `b`, to describe this table. */
  ghost predicate Introduces(w: Wal, b: nat, r: nat, k: nat, id: nat) {
    && b < r < k < |w| && w[r].x.msg.RelationMessage? && w[r].x.msg.id == id
    && forall j :: r < j < k ==> !(w[j].x.msg.RelationMessage? && w[j].x.msg.id == id)
  }

  lemma SameTransaction(w: Wal, k: nat)
    requires 0 < k <= |w| && !w[k - 1].x.msg.BeginMessage?
    ensures TxnMemory(w, k).xid == TxnMemory(w, k - 1).xid && TxnMemory(w, k).commitTime == TxnMemory(w, k - 1).commitTime
  {
  }

  lemma FrameBefore(w: Wal, k: nat)
    requires WellFormed(w) && k < |w| && !w[k].x.msg.BeginMessage?
    ensures k > 0 && w[k - 1].commitEnd == w[k].commitEnd
  {
  }

  lemma BeginSets(w: Wal, b: nat)
    requires b < |w| && w[b].x.msg.BeginMessage?
    ensures TxnMemory(w, b + 1) == State(map[], w[b].x.msg.xid, w[b].x.msg.commitTime)
  {
  }

  lemma {:induction false} Opening(w: Wal, k: nat) returns (b: nat)
    requires WellFormed(w) && k < |w| && !w[k].x.msg.BeginMessage?
    ensures Opens(w, b, k)
    ensures TxnMemory(w, k).xid == w[b].x.msg.xid && TxnMemory(w, k).commitTime == w[b].x.msg.commitTime
    decreases k
  {
    assert k > 0 && w[k - 1].commitEnd == w[k].commitEnd by {
      FrameBefore(w, k);
    }
    if w[k - 1].x.msg.BeginMessage? {
      b := k - 1;
      BeginSets(w, b);
    } else {
      b := Opening(w, k - 1);
      SameTransaction(w, k);
    }
  }

  lemma {:induction false} Introduction(w: Wal, b: nat, k: nat, id: nat) returns (r: nat)
    requires k < |w| && b < k && w[b].x.msg.BeginMessage? && (forall j :: b < j < k ==> !w[j].x.msg.BeginMessage?)
    requires id in TxnMemory(w, k).relations
    ensures Introduces(w, b, r, k, id) && TxnMemory(w, k).relations[id] == w[r].x.msg.rel
    decreases k
  {
    var m := w[k - 1].x.msg;
    BeginSets(w, b);
    if m.RelationMessage? && m.id == id {
      r := k - 1;
    } else {
      r := Introduction(w, b, k - 1, id);
    }
  }

  /** The word between prefix and project in the subject of a change. */
  function Verb(m: Message): string
    requires m.IsChange()
  {
    match m
    case InsertMessage(_, _) => ".insert.project-"
    case UpdateMessage(_, _, _) => ".update.project-"
    case DeleteMessage(_, _) => ".delete.project-"
  }

  lemma OperationWords()
    ensures Subjects.OperationToSubject("INSERT") == "insert"
    ensures Subjects.OperationToSubject("UPDATE") == "update"
    ensures Subjects.OperationToSubject("DELETE") == "delete"
  {
    assert Text.Upper("INSERT") == "INSERT";
    assert Text.Upper("UPDATE") == "UPDATE";
    assert Text.Upper("DELETE") == "DELETE";
    assert "UPDATE"[0] != "INSERT"[0] && "DELETE"[0] != "INSERT"[0] && "DELETE"[0] != "UPDATE"[0];
  }

  /**
   Every change has its own place in the ideal stream, in log order. The message there is on the
   subject of the change's kind, project and table, has the event's ID as its key, and tells the
   change: with the transaction and time of the Begin before it, and the table as its transaction
   last described it.
   */
  lemma IdealTells(cfg: Config, w: Wal, k: nat) returns (b: nat, r: nat)
    requires WellFormed(w) && k < |w| && w[k].x.msg.IsChange()
    ensures Opens(w, b, k) && Introduces(w, b, r, k, w[k].x.msg.relId)
    ensures |Ideal(cfg, w, k)| < |Ideal(cfg, w, |w|)|
    ensures var m := Ideal(cfg, w, |w|)[|Ideal(cfg, w, k)|];
      var begin, rel := w[b].x.msg, w[r].x.msg.rel;
      && m.subject == cfg.subjectPrefix + Verb(w[k].x.msg) + cfg.projectID + "." + rel.name
      && m.msgId == m.data.eventID
      && Tells(m.data, cfg.projectID, w[k].x.walStart, begin.xid, begin.commitTime, rel, w[k].x.msg)
  {
    var msg := w[k].x.msg;
    b := Opening(w, k);
    r := Introduction(w, b, k, msg.relId);
    IdealAt(cfg, w, k, |w|);
    MessageTells(cfg, w, k);
    hide *;
  }

  lemma MessageTells(cfg: Config, w: Wal, k: nat)
    requires k < |w| && w[k].x.msg.IsChange() && w[k].x.msg.relId in TxnMemory(w, k).relations
    ensures var m, t := IdealMessage(cfg, w, k), TxnMemory(w, k);
      var rel := t.relations[w[k].x.msg.relId];
      && m.subject == cfg.subjectPrefix + Verb(w[k].x.msg) + cfg.projectID + "." + rel.name
      && m.msgId == m.data.eventID
      && Tells(m.data, cfg.projectID, w[k].x.walStart, t.xid, t.commitTime, rel, w[k].x.msg)
  {
    var msg, t := w[k].x.msg, TxnMemory(w, k);
    EventTells(t, cfg.projectID, w[k].x.walStart, msg);
    OperationWords();
    hide Tells, EventOf, TxnMemory, Subjects.OperationToSubject;
    var m, rel := IdealMessage(cfg, w, k), t.relations[msg.relId];
    TellsWords(m.data, cfg.projectID, w[k].x.walStart, t.xid, t.commitTime, rel, msg);
    SubjectText(cfg, m.data, msg);
  }

  lemma SubjectText(cfg: Config, e: CdcEvent, m: Message)
    requires m.IsChange()
    requires e.operation == if m.InsertMessage? then "INSERT" else if m.UpdateMessage? then "UPDATE" else "DELETE"
    ensures SubjectFor(cfg, e) == cfg.subjectPrefix + Verb(m) + cfg.projectID + "." + e.table
  {
    OperationWords();
    VerbIs(m);
    hide Subjects.OperationToSubject, Verb;
    ComposedAround(cfg.subjectPrefix, Subjects.OperationToSubject(e.operation), cfg.projectID, e.table);
  }

  lemma VerbIs(m: Message)
    requires m.IsChange()
    ensures Verb(m) == "." + (if m.InsertMessage? then "insert" else if m.UpdateMessage? then "update" else "delete") + ".project-"
  {
  }

  lemma ComposedAround(prefix: string, op: string, projectID: string, name: string)
    ensures Subjects.Compose(prefix, op, projectID, name) == prefix + ("." + op + ".project-") + projectID + "." + name
  {
    assert prefix + "." + op + ".project-" == prefix + ("." + op + ".project-");
  }

  lemma TellsWords(e: CdcEvent, projectID: string, lsn: Lsn, xid: nat, commitTime: int, rel: Relation, m: Message)
    requires m.IsChange() && Tells(e, projectID, lsn, xid, commitTime, rel, m)
    ensures e.table == rel.name
    ensures e.operation == if m.InsertMessage? then "INSERT" else if m.UpdateMessage? then "UPDATE" else "DELETE"
  {
    hide Shows;
  }

  ghost function ChangesBefore(w: Wal, k: nat): set<nat>
    requires k <= |w|
  {
    set j: nat | j < k && w[j].x.msg.IsChange()
  }

  /** The ideal stream has one message for each change, placed by how many changes come before it. */
  lemma {:induction false} IdealCounts(cfg: Config, w: Wal, k: nat)
    requires WellFormed(w) && k <= |w|
    ensures |Ideal(cfg, w, k)| == |ChangesBefore(w, k)|
    decreases k
  {
    hide WellFormed, IdealMessage;
    if k == 0 {
      assert ChangesBefore(w, 0) == {};
    } else {
      IdealCounts(cfg, w, k - 1);
      assert ChangesBefore(w, k) == ChangesBefore(w, k - 1) + if w[k - 1].x.msg.IsChange() then {k - 1} else {};
    }
  }

  /**
   Whatever crashes, delays and answers a run meets, the message at any place of its stream tells the
   change that has as many changes before it.
   */
  lemma StoredTells(cfg: Config, w: Wal, cp: Lsn, actions: seq<Action>, i: nat) returns (k: nat, b: nat, r: nat)
    requires WellFormed(w) && AllAfter(w, cp)
    requires DistinctChanges(w, Frontier(cfg, w)) && PositionsInOrder(w, Frontier(cfg, w))
    requires Exec(cfg, w, cp, START, actions).Some? && i < |Exec(cfg, w, cp, START, actions).value.stream|
    ensures k < |w| && w[k].x.msg.IsChange() && |ChangesBefore(w, k)| == i
    ensures Opens(w, b, k) && Introduces(w, b, r, k, w[k].x.msg.relId)
    ensures var m := Exec(cfg, w, cp, START, actions).value.stream[i];
      var begin, rel := w[b].x.msg, w[r].x.msg.rel;
      && m.subject == cfg.subjectPrefix + Verb(w[k].x.msg) + cfg.projectID + "." + rel.name
      && m.msgId == m.data.eventID
      && Tells(m.data, cfg.projectID, w[k].x.walStart, begin.xid, begin.commitTime, rel, w[k].x.msg)
  {
    hide *;
    StreamStaysBelowFrontier(cfg, w, cp, actions);
    var n := Frontier(cfg, w);
    k := IdealFrom(cfg, w, n, i);
    IdealCounts(cfg, w, k);
    b, r := IdealTells(cfg, w, k);
    IdealGrows(cfg, w, n, |w|);
  }
}
