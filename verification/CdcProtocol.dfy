/**
 The delivery protocol as a whole: a replication slot, a pod that may be killed at any moment and
 restarted from the slot's confirmed position, a deduplicating stream, and status updates that may
 be lost, delayed or reordered. What the pod does in a turn is `Replication.Take`.
 */
module CdcProtocol {
  import opened Wrappers
  import opened EventIdentity
  import opened Pgoutput
  import opened CdcHandler
  import opened JetStream
  import opened EventEncoding
  import opened Replication
  import opened Text
  import Subjects

  /** One frame of the change log, with the commit end position of its transaction. */
  datatype Entry = Entry(x: XLogData, commitEnd: Lsn)

  type Wal = seq<Entry>

  /**
   The handler's memory just before frame `k`, for a handler that has seen only the transaction
   that frame belongs to: a Begin wipes the relation cache.
   */
  function TxnMemory(w: Wal, k: nat): State
    requires k <= |w|
  {
    if k == 0 then FRESH
    else
      var m := w[k - 1].x.msg;
      if m.BeginMessage? then State(map[], m.xid, m.commitTime) else Observe(TxnMemory(w, k - 1), m)
  }

  /**
   What a pgoutput slot promises: transactions whole and in commit order, each opened by Begin; a
   change is preceded, in its own transaction, by the Relation message it needs (a connection that
   already has that Relation may omit it); every message parses.
   */
  ghost predicate WellFormed(w: Wal) {
    && (forall i :: 0 < i < |w| ==> w[i - 1].commitEnd <= w[i].commitEnd)
    && (w != [] ==> w[0].x.msg.BeginMessage?)
    && (forall i :: 0 < i < |w| ==> (w[i].x.msg.BeginMessage? <==> w[i - 1].commitEnd < w[i].commitEnd))
    && (forall i :: 0 <= i < |w| && w[i].x.msg.IsChange() ==>
          w[i].x.msg.relId in TxnMemory(w, i).relations)
    && (forall i :: 0 <= i < |w| ==> !w[i].x.msg.Unparsable?)
  }

  /** The message a change stands for, decided by the change log alone. */
  function IdealMessage(cfg: Config, w: Wal, k: nat): StoredMsg
    requires k < |w| && w[k].x.msg.IsChange()
    requires w[k].x.msg.relId in TxnMemory(w, k).relations
  {
    MessageFor(cfg, EventOf(TxnMemory(w, k), cfg.projectID, w[k].x.walStart, w[k].x.msg).value)
  }

  /** The ideal stream contents for the first `k` frames: one message per change, in commit order. */
  ghost function Ideal(cfg: Config, w: Wal, k: nat): seq<StoredMsg>
    requires WellFormed(w) && k <= |w|
  {
    if k == 0 then []
    else if w[k - 1].x.msg.IsChange() then Ideal(cfg, w, k - 1) + [IdealMessage(cfg, w, k - 1)]
    else Ideal(cfg, w, k - 1)
  }

  /** Frame `k` is a change whose event the publisher cannot send, whatever the broker answers. */
  ghost predicate Blocks(cfg: Config, w: Wal, k: nat)
    requires k < |w|
  {
    && w[k].x.msg.IsChange() && w[k].x.msg.relId in TxnMemory(w, k).relations
    && !Sendable(cfg, IdealMessage(cfg, w, k).data)
  }

  ghost function FirstBlocked(cfg: Config, w: Wal, i: nat): (n: nat)
    requires i <= |w|
    ensures i <= n <= |w| && (n < |w| ==> Blocks(cfg, w, n))
    ensures forall k :: i <= k < n ==> !Blocks(cfg, w, k)
    decreases |w| - i
  {
    hide Sendable, IdealMessage, TxnMemory, EventOf;
    if i == |w| || Blocks(cfg, w, i) then i else FirstBlocked(cfg, w, i + 1)
  }

  /** How far a pod can get: to the first change that cannot be sent, or to the end of the log. */
  ghost function Frontier(cfg: Config, w: Wal): (n: nat)
    ensures n <= |w| && (n < |w| ==> Blocks(cfg, w, n))
    ensures forall k :: 0 <= k < n ==> !Blocks(cfg, w, k)
  {
    FirstBlocked(cfg, w, 0)
  }

  /** Every change of the log can be sent. */
  ghost predicate AllSendable(cfg: Config, w: Wal) {
    forall k :: 0 <= k < |w| ==> !Blocks(cfg, w, k)
  }

  lemma FrontierAtEnd(cfg: Config, w: Wal)
    ensures Frontier(cfg, w) == |w| <==> AllSendable(cfg, w)
  {
    hide Blocks;
  }

  // The system

  datatype Pod = Down | Connecting(startLSN: Lsn) | Streaming(loop: Loop, cursor: nat)

  /** `sent` holds every flush position any pod has reported; the server may yet receive it. */
  datatype System = System(slot: Option<Lsn>, stream: seq<StoredMsg>, pod: Pod, sent: set<Lsn>)

  const START: System := System(None, [], Down, {})

  datatype Action =
    | Boot                         // connect; read the slot or create it
    | StartReplication(now: int)
    | Step(turn: Turn)             // one turn of the streaming loop
    | OmitRelation                 // the server does not repeat a Relation this connection has
    | Crash
    | Confirm(pos: Lsn)            // some status update reaches the slot

  /** The server skips exactly the transactions whose commit end is at or below the position. */
  function FirstAfter(w: Wal, pos: Lsn): (i: nat)
    ensures i <= |w|
  {
    if w == [] || w[0].commitEnd > pos then 0 else 1 + FirstAfter(w[1..], pos)
  }

  function AfterTurn(s: System, l: Loop, stream: seq<StoredMsg>, cursor: nat): System {
    System(s.slot, stream, Streaming(l, cursor), s.sent + set r | r in l.reports)
  }

  function Next(cfg: Config, w: Wal, consistentPoint: Lsn, s: System, a: Action): Option<System> {
    match a
    case Boot =>
      if !s.pod.Down? then None
      else if s.slot.None? then Some(s.(slot := Some(consistentPoint), pod := Connecting(consistentPoint)))
      else Some(s.(pod := Connecting(s.slot.value)))
    case StartReplication(now) =>
      if !s.pod.Connecting? || s.slot.None? then None
      else
        var from := Later(s.pod.startLSN, s.slot.value);
        Some(s.(pod := Streaming(Initial(cfg, s.pod.startLSN, now), FirstAfter(w, from))))
    case Step(t) =>
      if !s.pod.Streaming? then None
      else
        var c := s.pod.cursor;
        if t.received.XLog? && !(c < |w| && t.received.x == w[c].x) then None
        else
          var taken := Take(cfg, s.pod.loop, s.stream, t);
          Some(AfterTurn(s, taken.0, taken.1, if t.received.XLog? then c + 1 else c))
    case OmitRelation =>
      if !s.pod.Streaming? || s.pod.cursor >= |w| then None
      else
        var m := w[s.pod.cursor].x.msg;
        var known := s.pod.loop.mem.relations;
        if m.RelationMessage? && m.id in known && known[m.id] == m.rel
        then Some(s.(pod := s.pod.(cursor := s.pod.cursor + 1)))
        else None
    case Crash => Some(s.(pod := Down))
    case Confirm(pos) =>
      if pos in s.sent && s.slot.Some? then Some(s.(slot := Some(pos))) else None
  }

  function Exec(cfg: Config, w: Wal, cp: Lsn, s: System, actions: seq<Action>): Option<System>
    decreases |actions|
  {
    if actions == [] then Some(s)
    else
      var n := Next(cfg, w, cp, s, actions[0]);
      if n.None? then None else Exec(cfg, w, cp, n.value, actions[1..])
  }

  // What delivery promises

  /** All changes of transactions committed at or below `pos` are in the first `n` ideal messages. */
  ghost predicate Covered(cfg: Config, w: Wal, pos: Lsn, n: nat)
    requires WellFormed(w)
  {
    forall k :: 0 <= k < |w| && w[k].x.msg.IsChange() && w[k].commitEnd <= pos ==> |Ideal(cfg, w, k)| < n
  }

  /**
   Exactly-once, in order, without loss: the stream is a prefix of the ideal change log; it holds
   every change of every transaction the slot has confirmed; and it holds everything the running
   pod has consumed.
   */
  ghost predicate Safe(cfg: Config, w: Wal, s: System)
    requires WellFormed(w)
  {
    && s.stream <= Ideal(cfg, w, |w|)
    && (s.slot.Some? ==> Covered(cfg, w, s.slot.value, |s.stream|))
    && (s.pod.Streaming? && s.pod.loop.exit == Running && s.pod.cursor <= |w| ==>
          Ideal(cfg, w, s.pod.cursor) <= s.stream)
  }

  ghost predicate EveryRunSafe(cfg: Config, w: Wal, cp: Lsn)
    requires WellFormed(w)
  {
    forall actions :: Exec(cfg, w, cp, START, actions).Some? ==>
      Safe(cfg, w, Exec(cfg, w, cp, START, actions).value)
  }

  /** The log is what commits after the slot's consistent point. */
  ghost predicate AllAfter(w: Wal, cp: Lsn) {
    forall k :: 0 <= k < |w| ==> cp < w[k].commitEnd
  }

  /** No two changes of one transaction before frame `n` start at the same WAL position. */
  ghost predicate DistinctChanges(w: Wal, n: nat)
    requires n <= |w|
  {
    forall a, b :: 0 <= a < b < n && w[a].x.msg.IsChange() && w[b].x.msg.IsChange() ==>
      w[a].x.walStart != w[b].x.walStart || TxnMemory(w, a).xid != TxnMemory(w, b).xid
  }

  /** No frame ends, by the client's reckoning, at or past the commit of a later change up to frame `n`. */
  ghost predicate PositionsInOrder(w: Wal, n: nat)
    requires n <= |w|
  {
    forall k, e :: 0 <= k < e < |w| && e <= n && w[e].x.msg.IsChange() ==> NewPos(w[k].x) < w[e].commitEnd
  }

  // Facts about the ideal log

  lemma {:induction false} IdealGrows(cfg: Config, w: Wal, i: nat, j: nat)
    requires WellFormed(w) && i <= j <= |w|
    ensures Ideal(cfg, w, i) <= Ideal(cfg, w, j)
    decreases j
  {
    if i < j {
      IdealGrows(cfg, w, i, j - 1);
    }
  }

  lemma IdealAt(cfg: Config, w: Wal, k: nat, j: nat)
    requires WellFormed(w) && k < j <= |w| && w[k].x.msg.IsChange()
    ensures |Ideal(cfg, w, k)| < |Ideal(cfg, w, j)|
    ensures Ideal(cfg, w, j)[|Ideal(cfg, w, k)|] == IdealMessage(cfg, w, k)
  {
    IdealGrows(cfg, w, k + 1, j);
    assert Ideal(cfg, w, k + 1)[|Ideal(cfg, w, k)|] == IdealMessage(cfg, w, k);
  }

  /** Each position of the ideal log belongs to some change. */
  lemma {:induction false} IdealFrom(cfg: Config, w: Wal, j: nat, i: nat) returns (k: nat)
    requires WellFormed(w) && j <= |w| && i < |Ideal(cfg, w, j)|
    ensures k < j && w[k].x.msg.IsChange() && |Ideal(cfg, w, k)| == i
    decreases j
  {
    if i < |Ideal(cfg, w, j - 1)| {
      k := IdealFrom(cfg, w, j - 1, i);
    } else {
      k := j - 1;
    }
  }

  lemma IdealIds(cfg: Config, w: Wal, k: nat)
    requires WellFormed(w) && k < |w| && w[k].x.msg.IsChange()
    ensures IdealMessage(cfg, w, k).msgId
            == BuildEventID(cfg.projectID, w[k].x.walStart, TxnMemory(w, k).xid)
  {
  }

  /** With distinct changes, the ideal log never repeats a deduplication key. */
  lemma IdealIdsUnique(cfg: Config, w: Wal, n: nat)
    requires WellFormed(w) && n <= |w| && DistinctChanges(w, n)
    ensures UniqueIds(Ideal(cfg, w, n))
  {
    var all := Ideal(cfg, w, n);
    forall i, j | 0 <= i < j < |all|
      ensures all[i].msgId != all[j].msgId
    {
      var a := IdealFrom(cfg, w, n, i);
      var b := IdealFrom(cfg, w, n, j);
      IdealAt(cfg, w, a, n);
      IdealAt(cfg, w, b, n);
      if b <= a {
        IdealGrows(cfg, w, b, a);
      }
      IdealIds(cfg, w, a);
      IdealIds(cfg, w, b);
      BuildEventIDInjective(cfg.projectID, w[a].x.walStart, TxnMemory(w, a).xid,
                            cfg.projectID, w[b].x.walStart, TxnMemory(w, b).xid);
    }
  }

  /** If everything below the resume point is covered, the stream holds the ideal log up to it. */
  lemma {:induction false} CoveredPrefix(cfg: Config, w: Wal, pos: Lsn, n: nat, c: nat)
    requires WellFormed(w) && c <= |w|
    requires forall k :: 0 <= k < c ==> w[k].commitEnd <= pos
    requires Covered(cfg, w, pos, n)
    ensures |Ideal(cfg, w, c)| <= n
    decreases c
  {
    if c > 0 {
      CoveredPrefix(cfg, w, pos, n, c - 1);
    }
  }

  lemma {:induction false} FirstAfterSplits(w: Wal, pos: Lsn)
    requires forall i :: 0 < i < |w| ==> w[i - 1].commitEnd <= w[i].commitEnd
    ensures forall k :: 0 <= k < FirstAfter(w, pos) ==> w[k].commitEnd <= pos
    ensures FirstAfter(w, pos) < |w| ==> w[FirstAfter(w, pos)].commitEnd > pos
  {
    if w != [] && w[0].commitEnd <= pos {
      FirstAfterSplits(w[1..], pos);
    }
  }

  // The invariant

  /**
   The connection's handler knows at least what a handler fed only the current transaction knows,
   and the same transaction header. At a Begin nothing is owed: Begin supplies the header.
   */
  ghost predicate Agrees(w: Wal, c: nat, h: State)
    requires c <= |w|
  {
    || c == |w|
    || w[c].x.msg.BeginMessage?
    || (var t := TxnMemory(w, c);
        && h.xid == t.xid && h.commitTime == t.commitTime
        && forall id :: id in t.relations ==> id in h.relations && h.relations[id] == t.relations[id])
  }

  ghost predicate Invariant(cfg: Config, w: Wal, cp: Lsn, s: System)
    requires WellFormed(w)
  {
    && s.stream <= Ideal(cfg, w, Frontier(cfg, w))
    && (s.slot.Some? ==> Covered(cfg, w, s.slot.value, |s.stream|))
    && AllCovered(cfg, w, s.sent, |s.stream|)
    && (s.pod.Connecting? ==> s.slot.Some? && Covered(cfg, w, s.pod.startLSN, |s.stream|))
    && (s.pod.Streaming? ==>
          && s.slot.Some?
          && (forall r :: r in s.pod.loop.reports ==> r in s.sent)
          && (s.pod.loop.exit == Running ==> RunningInvariant(cfg, w, s.stream, s.pod.loop, s.pod.cursor)))
  }

  ghost predicate RunningInvariant(cfg: Config, w: Wal, stream: seq<StoredMsg>, l: Loop, c: nat)
    requires WellFormed(w)
  {
    && c <= Frontier(cfg, w)
    && l.flushed == l.pos
    && Covered(cfg, w, l.flushed, |stream|)
    && |Ideal(cfg, w, c)| <= |stream|
    && Agrees(w, c, l.mem)
  }

  ghost predicate AllCovered(cfg: Config, w: Wal, ps: set<Lsn>, n: nat)
    requires WellFormed(w)
  {
    forall p :: p in ps ==> Covered(cfg, w, p, n)
  }

  lemma CoveredMore(cfg: Config, w: Wal, pos: Lsn, n: nat, m: nat)
    requires WellFormed(w) && Covered(cfg, w, pos, n) && n <= m
    ensures Covered(cfg, w, pos, m)
  {
  }

  /** Agreement survives every frame: this is why a replay rebuilds the same events. */
  lemma AgreesNext(w: Wal, c: nat, h: State)
    requires WellFormed(w) && c < |w| && Agrees(w, c, h)
    ensures !w[c].x.msg.IsChange() ==> Agrees(w, c + 1, Observe(h, w[c].x.msg))
    ensures w[c].x.msg.IsChange() ==> Agrees(w, c + 1, h)
    ensures w[c].x.msg.RelationMessage? && w[c].x.msg.id in h.relations && h.relations[w[c].x.msg.id] == w[c].x.msg.rel
            ==> Agrees(w, c + 1, h)
  {
    var m := w[c].x.msg;
    if m.BeginMessage? {
      assert TxnMemory(w, c + 1) == State(map[], m.xid, m.commitTime);
    } else {
      assert TxnMemory(w, c + 1) == Observe(TxnMemory(w, c), m);
    }
  }

  /** The event a connection builds for a change is the ideal one. */
  lemma SameEvent(cfg: Config, w: Wal, c: nat, h: State)
    requires WellFormed(w) && c < |w| && w[c].x.msg.IsChange() && Agrees(w, c, h)
    ensures EventOf(h, cfg.projectID, w[c].x.walStart, w[c].x.msg)
            == EventOf(TxnMemory(w, c), cfg.projectID, w[c].x.walStart, w[c].x.msg)
  {
  }

  /** Handling a change publishes the ideal message, or fails at once if it cannot be sent. */
  lemma HandleChange(cfg: Config, w: Wal, c: nat, mem: State, log: seq<StoredMsg>, o: PublishOutcome)
    requires WellFormed(w) && c < |w| && w[c].x.msg.IsChange() && Agrees(w, c, mem)
    ensures Handle(cfg, mem, log, w[c].x, o)
            == if Blocks(cfg, w, c) then Handled(mem, log, false)
               else Handled(mem, Published(log, IdealMessage(cfg, w, c), o), o.Acknowledged?)
  {
    SameEvent(cfg, w, c, mem);
    hide EventOf, Sendable, Agrees, TxnMemory, Published;
  }

  lemma HandleOther(cfg: Config, w: Wal, c: nat, mem: State, log: seq<StoredMsg>, o: PublishOutcome)
    requires WellFormed(w) && c < |w| && !w[c].x.msg.IsChange()
    ensures Handle(cfg, mem, log, w[c].x, o) == Handled(Observe(mem, w[c].x.msg), log, true)
  {
  }

  /** Publishing the next change either finds it in the stream or extends the prefix by it. */
  lemma StoreNext(cfg: Config, w: Wal, n: nat, c: nat, stream: seq<StoredMsg>)
    requires WellFormed(w) && n <= |w| && DistinctChanges(w, n) && c < n && w[c].x.msg.IsChange()
    requires stream <= Ideal(cfg, w, n) && |Ideal(cfg, w, c)| <= |stream|
    ensures var after := Store(stream, IdealMessage(cfg, w, c));
      after <= Ideal(cfg, w, n) && |Ideal(cfg, w, c + 1)| <= |after|
  {
    IdealAt(cfg, w, c, n);
    IdealIdsUnique(cfg, w, n);
    assert |Ideal(cfg, w, c + 1)| == |Ideal(cfg, w, c)| + 1;
    hide *;
    StoreInPrefix(stream, Ideal(cfg, w, n), |Ideal(cfg, w, c)|, IdealMessage(cfg, w, c));
  }

  /** Storing entry `i` of a log without repeated keys into a prefix that reaches it gives a prefix. */
  lemma StoreInPrefix(stream: seq<StoredMsg>, all: seq<StoredMsg>, i: nat, m: StoredMsg)
    requires stream <= all && i <= |stream| && i < |all| && all[i] == m && UniqueIds(all)
    ensures Store(stream, m) <= all && i + 1 <= |Store(stream, m)|
  {
    if i < |stream| {
      assert stream[i] == m;
    } else {
      forall j | 0 <= j < |stream|
        ensures stream[j].msgId != m.msgId
      {
        assert stream[j] == all[j];
      }
      assert Store(stream, m) == stream + [m];
    }
  }

  /** A position below the commits of the changes after frame `c` up to `n` is covered once `c` is stored. */
  lemma PositionCovered(cfg: Config, w: Wal, n: nat, c: nat, pos: Lsn, m: nat)
    requires WellFormed(w) && c < n <= |w| && |Ideal(cfg, w, c + 1)| <= m
    requires n < |w| ==> w[n].x.msg.IsChange()
    requires forall e :: c < e < |w| && e <= n && w[e].x.msg.IsChange() ==> pos < w[e].commitEnd
    ensures Covered(cfg, w, pos, m)
  {
    forall k | 0 <= k < |w| && w[k].x.msg.IsChange() && w[k].commitEnd <= pos
      ensures |Ideal(cfg, w, k)| < m
    {
      if k > n {
        CommitsAscend(w, n, k);
      }
      assert k <= c;
      IdealAt(cfg, w, k, c + 1);
    }
  }

  lemma {:induction false} CommitsAscend(w: Wal, i: nat, j: nat)
    requires WellFormed(w) && i <= j < |w|
    ensures w[i].commitEnd <= w[j].commitEnd
    decreases j
  {
    if i < j {
      CommitsAscend(w, i, j - 1);
    }
  }

  /** A covered position lies before the commit of the change the pod cannot get past. */
  lemma CoveredBeforeFrontier(cfg: Config, w: Wal, pos: Lsn, m: nat)
    requires WellFormed(w) && Covered(cfg, w, pos, m) && m <= |Ideal(cfg, w, Frontier(cfg, w))|
    ensures Frontier(cfg, w) < |w| ==> pos < w[Frontier(cfg, w)].commitEnd
    ensures FirstAfter(w, pos) <= Frontier(cfg, w)
  {
    hide Ideal;
    var n := Frontier(cfg, w);
    FirstAfterSplits(w, pos);
    if n < |w| {
      assert w[n].x.msg.IsChange();
      assert pos < w[n].commitEnd;
    }
  }

  lemma HandleKeeps(cfg: Config, w: Wal, c: nat, l: Loop, stream: seq<StoredMsg>, o: PublishOutcome)
    requires WellFormed(w) && DistinctChanges(w, Frontier(cfg, w)) && c < |w|
    requires stream <= Ideal(cfg, w, Frontier(cfg, w))
    requires RunningInvariant(cfg, w, stream, l, c)
    ensures var h := Handle(cfg, l.mem, stream, w[c].x, o);
      && h.log <= Ideal(cfg, w, Frontier(cfg, w)) && |stream| <= |h.log|
      && (h.ok ==> c < Frontier(cfg, w) && |Ideal(cfg, w, c + 1)| <= |h.log| && Agrees(w, c + 1, h.mem))
      && (o.Acknowledged? && c < Frontier(cfg, w) ==> h.ok)
  {
    hide Frontier, Agrees, IdealMessage, Sendable, TxnMemory, Store, DistinctChanges, Handle;
    AgreesNext(w, c, l.mem);
    if w[c].x.msg.IsChange() {
      HandleChange(cfg, w, c, l.mem, stream, o);
      if c < Frontier(cfg, w) {
        StoreNext(cfg, w, Frontier(cfg, w), c, stream);
      }
    } else {
      HandleOther(cfg, w, c, l.mem, stream, o);
    }
  }

  lemma FrameKeeps(cfg: Config, w: Wal, l: Loop, c: nat, stream: seq<StoredMsg>, o: PublishOutcome)
    requires WellFormed(w) && DistinctChanges(w, Frontier(cfg, w)) && PositionsInOrder(w, Frontier(cfg, w)) && c < |w|
    requires stream <= Ideal(cfg, w, Frontier(cfg, w)) && RunningInvariant(cfg, w, stream, l, c)
    ensures var h := Handle(cfg, l.mem, stream, w[c].x, o);
      && h.log <= Ideal(cfg, w, Frontier(cfg, w)) && |stream| <= |h.log|
      && (h.ok ==> c < Frontier(cfg, w) && |Ideal(cfg, w, c + 1)| <= |h.log| && Agrees(w, c + 1, h.mem)
                   && Covered(cfg, w, Later(l.pos, NewPos(w[c].x)), |h.log|))
  {
    HandleKeeps(cfg, w, c, l, stream, o);
    hide Handle, Frontier, NewPos;
    var h := Handle(cfg, l.mem, stream, w[c].x, o);
    CoveredMore(cfg, w, l.pos, |stream|, |h.log|);
    if h.ok {
      PositionCovered(cfg, w, Frontier(cfg, w), c, NewPos(w[c].x), |h.log|);
    }
  }

  /** One turn of a running loop: the stream stays a prefix and every report is covered. */
  lemma TurnKeeps(cfg: Config, w: Wal, l: Loop, c: nat, stream: seq<StoredMsg>, t: Turn)
    requires WellFormed(w) && DistinctChanges(w, Frontier(cfg, w)) && PositionsInOrder(w, Frontier(cfg, w))
    requires stream <= Ideal(cfg, w, Frontier(cfg, w)) && RunningInvariant(cfg, w, stream, l, c)
    requires t.received.XLog? ==> c < |w| && t.received.x == w[c].x
    requires l.exit == Running
    ensures var (l', stream') := Take(cfg, l, stream, t);
      && |stream| <= |stream'| && stream' <= Ideal(cfg, w, Frontier(cfg, w))
      && (l'.exit == Running ==> RunningInvariant(cfg, w, stream', l', if t.received.XLog? then c + 1 else c))
      && (forall r :: r in l'.reports ==> r in l.reports || Covered(cfg, w, r, |stream'|))
  {
    hide Take;
    TurnReports(cfg, l, stream, t);
    TurnShape(cfg, l, stream, t);
    var (l', stream') := Take(cfg, l, stream, t);
    if !t.cancelled && t.received.XLog? {
      FrameKeeps(cfg, w, l, c, stream, t.received.outcome);
    }
    CoveredMore(cfg, w, l.flushed, |stream|, |stream'|);
    forall r | r in l'.reports && r !in l.reports
      ensures Covered(cfg, w, r, |stream'|)
    {
      assert r == l.flushed || (r == l'.flushed && l'.exit == Running);
    }
  }

  lemma AfterTurnKeeps(cfg: Config, w: Wal, cp: Lsn, s: System, l: Loop, stream: seq<StoredMsg>, c: nat)
    requires WellFormed(w) && Invariant(cfg, w, cp, s) && s.pod.Streaming?
    requires |s.stream| <= |stream| && stream <= Ideal(cfg, w, Frontier(cfg, w))
    requires l.exit == Running ==> RunningInvariant(cfg, w, stream, l, c)
    requires forall r :: r in l.reports ==> r in s.pod.loop.reports || Covered(cfg, w, r, |stream|)
    ensures Invariant(cfg, w, cp, AfterTurn(s, l, stream, c))
  {
    CoveredMore(cfg, w, s.slot.value, |s.stream|, |stream|);
    forall r | r in s.sent || r in l.reports
      ensures Covered(cfg, w, r, |stream|)
    {
      if r in s.sent {
        CoveredMore(cfg, w, r, |s.stream|, |stream|);
      }
    }
  }

  lemma StepKeeps(cfg: Config, w: Wal, cp: Lsn, s: System, t: Turn)
    requires WellFormed(w) && DistinctChanges(w, Frontier(cfg, w)) && PositionsInOrder(w, Frontier(cfg, w))
    requires Invariant(cfg, w, cp, s) && Next(cfg, w, cp, s, Step(t)).Some?
    ensures Invariant(cfg, w, cp, Next(cfg, w, cp, s, Step(t)).value)
  {
    hide Take, Covered, Ideal, Frontier, Agrees, WellFormed, PositionsInOrder, DistinctChanges;
    var l, c := s.pod.loop, s.pod.cursor;
    TurnShape(cfg, l, s.stream, t);
    if l.exit == Running {
      TurnKeeps(cfg, w, l, c, s.stream, t);
    }
    var taken := Take(cfg, l, s.stream, t);
    AfterTurnKeeps(cfg, w, cp, s, taken.0, taken.1, if t.received.XLog? then c + 1 else c);
  }

  lemma StartKeeps(cfg: Config, w: Wal, cp: Lsn, s: System, now: int)
    requires WellFormed(w)
    requires Invariant(cfg, w, cp, s) && Next(cfg, w, cp, s, StartReplication(now)).Some?
    ensures Invariant(cfg, w, cp, Next(cfg, w, cp, s, StartReplication(now)).value)
  {
    var from := Later(s.pod.startLSN, s.slot.value);
    hide Frontier;
    FirstAfterSplits(w, from);
    CoveredPrefix(cfg, w, from, |s.stream|, FirstAfter(w, from));
    CoveredBeforeFrontier(cfg, w, from, |s.stream|);
    AgreesAtResume(w, from);
  }

  /** Streaming resumes at the beginning of a transaction. */
  lemma AgreesAtResume(w: Wal, pos: Lsn)
    requires WellFormed(w)
    ensures Agrees(w, FirstAfter(w, pos), FRESH)
  {
    FirstAfterSplits(w, pos);
    var i := FirstAfter(w, pos);
    if 0 < i < |w| {
      assert w[i - 1].commitEnd <= pos < w[i].commitEnd;
    }
  }

  lemma BootKeeps(cfg: Config, w: Wal, cp: Lsn, s: System)
    requires WellFormed(w) && AllAfter(w, cp)
    requires Invariant(cfg, w, cp, s) && Next(cfg, w, cp, s, Boot).Some?
    ensures Invariant(cfg, w, cp, Next(cfg, w, cp, s, Boot).value)
  {
    hide Take, Ideal, Frontier;
  }

  lemma OmitKeeps(cfg: Config, w: Wal, cp: Lsn, s: System)
    requires WellFormed(w)
    requires Invariant(cfg, w, cp, s) && Next(cfg, w, cp, s, OmitRelation).Some?
    ensures Invariant(cfg, w, cp, Next(cfg, w, cp, s, OmitRelation).value)
  {
    hide Take, Covered, Frontier, Agrees, WellFormed, TxnMemory, Ideal;
    if s.pod.loop.exit == Running {
      AgreesNext(w, s.pod.cursor, s.pod.loop.mem);
      IdealSkips(cfg, w, s.pod.cursor);
      FrontierIsChange(cfg, w);
    }
  }

  lemma IdealSkips(cfg: Config, w: Wal, c: nat)
    requires WellFormed(w) && c < |w| && !w[c].x.msg.IsChange()
    ensures Ideal(cfg, w, c + 1) == Ideal(cfg, w, c)
  {
  }

  lemma FrontierIsChange(cfg: Config, w: Wal)
    ensures Frontier(cfg, w) < |w| ==> w[Frontier(cfg, w)].x.msg.IsChange()
  {
    hide Frontier;
  }

  lemma NextKeeps(cfg: Config, w: Wal, cp: Lsn, s: System, a: Action)
    requires WellFormed(w) && DistinctChanges(w, Frontier(cfg, w)) && PositionsInOrder(w, Frontier(cfg, w))
    requires AllAfter(w, cp)
    requires Invariant(cfg, w, cp, s) && Next(cfg, w, cp, s, a).Some?
    ensures Invariant(cfg, w, cp, Next(cfg, w, cp, s, a).value)
  {
    hide Take, Covered, Ideal, Observe, TxnMemory, Frontier;
    match a {
      case Step(t) => StepKeeps(cfg, w, cp, s, t);
      case StartReplication(now) => StartKeeps(cfg, w, cp, s, now);
      case OmitRelation => OmitKeeps(cfg, w, cp, s);
      case Boot => BootKeeps(cfg, w, cp, s);
      case Crash =>
      case Confirm(_) =>
    }
  }

  lemma {:induction false} RunKeeps(cfg: Config, w: Wal, cp: Lsn, s: System, actions: seq<Action>)
    requires WellFormed(w) && DistinctChanges(w, Frontier(cfg, w)) && PositionsInOrder(w, Frontier(cfg, w))
    requires AllAfter(w, cp)
    requires Invariant(cfg, w, cp, s) && Exec(cfg, w, cp, s, actions).Some?
    ensures Invariant(cfg, w, cp, Exec(cfg, w, cp, s, actions).value)
    decreases |actions|
  {
    if actions != [] {
      NextKeeps(cfg, w, cp, s, actions[0]);
      RunKeeps(cfg, w, cp, Next(cfg, w, cp, s, actions[0]).value, actions[1..]);
    }
  }

  lemma InvariantIsSafe(cfg: Config, w: Wal, cp: Lsn, s: System)
    requires WellFormed(w) && Invariant(cfg, w, cp, s)
    ensures Safe(cfg, w, s)
  {
    hide Frontier;
    IdealGrows(cfg, w, Frontier(cfg, w), |w|);
    if s.pod.Streaming? && s.pod.loop.exit == Running {
      IdealGrows(cfg, w, s.pod.cursor, |w|);
    }
  }

  // Straight runs: a pod left alone consumes the log

  const STEADY: Turn := Turn(false, Ignored, false, 0, 0, 0)

  function Deliver(x: XLogData): Action {
    Step(STEADY.(received := XLog(x, Acknowledged)))
  }

  ghost predicate Alive(w: Wal, s: System, c: nat) {
    && s.pod.Streaming? && s.slot.Some?
    && s.pod.loop.exit == Running && s.pod.cursor == c && c <= |w|
    && s.pod.loop.flushed == s.pod.loop.pos
    && Agrees(w, c, s.pod.loop.mem)
    && UniqueIds(s.stream)
  }

  lemma StoreKeepsUnique(log: seq<StoredMsg>, m: StoredMsg)
    requires UniqueIds(log)
    ensures UniqueIds(Store(log, m))
  {
  }

  /** An alive pod that is sent the next frame, with the broker answering, handles it. */
  lemma DeliverOne(cfg: Config, w: Wal, cp: Lsn, s: System, c: nat) returns (s': System)
    requires WellFormed(w) && c < Frontier(cfg, w) && Alive(w, s, c)
    ensures Next(cfg, w, cp, s, Deliver(w[c].x)) == Some(s')
    ensures Alive(w, s', c + 1)
    ensures s'.pod.loop.flushed == Later(s.pod.loop.flushed, NewPos(w[c].x))
    ensures |s'.stream| + |Ideal(cfg, w, c)| <= |s.stream| + |Ideal(cfg, w, c + 1)|
  {
    hide Take, NewPos, Later, Agrees, UniqueIds, Frontier, Sendable, IdealMessage, TxnMemory, Handle, Store;
    var t := STEADY.(received := XLog(w[c].x, Acknowledged));
    TurnShape(cfg, s.pod.loop, s.stream, t);
    AgreesNext(w, c, s.pod.loop.mem);
    if w[c].x.msg.IsChange() {
      HandleChange(cfg, w, c, s.pod.loop.mem, s.stream, Acknowledged);
      StoreKeepsUnique(s.stream, IdealMessage(cfg, w, c));
    } else {
      HandleOther(cfg, w, c, s.pod.loop.mem, s.stream, Acknowledged);
    }
    var taken := Take(cfg, s.pod.loop, s.stream, t);
    s' := AfterTurn(s, taken.0, taken.1, c + 1);
  }

  lemma {:induction false} ExecSplit(cfg: Config, w: Wal, cp: Lsn, s: System, first: seq<Action>, second: seq<Action>)
    requires Exec(cfg, w, cp, s, first).Some?
    ensures Exec(cfg, w, cp, s, first + second) == Exec(cfg, w, cp, Exec(cfg, w, cp, s, first).value, second)
    decreases |first|
  {
    hide Next;
    if first == [] {
      assert first + second == second;
    } else {
      assert (first + second)[1..] == first[1..] + second;
      ExecSplit(cfg, w, cp, Next(cfg, w, cp, s, first[0]).value, first[1..], second);
    }
  }

  lemma ExecOne(cfg: Config, w: Wal, cp: Lsn, s: System, a: Action)
    ensures Exec(cfg, w, cp, s, [a]) == Next(cfg, w, cp, s, a)
  {
  }

  /** An alive pod can be driven to any later frame; it publishes no more than the changes between. */
  lemma {:induction false} DeliverUpTo(cfg: Config, w: Wal, cp: Lsn, s: System, c: nat, n: nat)
    returns (actions: seq<Action>, s': System)
    requires WellFormed(w) && c <= n <= Frontier(cfg, w) && Alive(w, s, c)
    ensures Exec(cfg, w, cp, s, actions) == Some(s')
    ensures Alive(w, s', n)
    ensures forall k :: c <= k < n ==> NewPos(w[k].x) <= s'.pod.loop.flushed
    ensures |s'.stream| + |Ideal(cfg, w, c)| <= |s.stream| + |Ideal(cfg, w, n)|
    decreases n
  {
    hide Next, NewPos, Ideal, Frontier;
    if n == c {
      actions, s' := [], s;
    } else {
      var before, mid := DeliverUpTo(cfg, w, cp, s, c, n - 1);
      s' := DeliverOne(cfg, w, cp, mid, n - 1);
      ExecSplit(cfg, w, cp, s, before, [Deliver(w[n - 1].x)]);
      ExecOne(cfg, w, cp, mid, Deliver(w[n - 1].x));
      actions := before + [Deliver(w[n - 1].x)];
    }
  }

  /** The first incarnation starts at the first frame. */
  lemma FirstBoot(cfg: Config, w: Wal, cp: Lsn) returns (s: System)
    requires WellFormed(w) && AllAfter(w, cp)
    ensures Exec(cfg, w, cp, START, [Boot, StartReplication(0)]) == Some(s)
    ensures Alive(w, s, 0) && s.stream == []
  {
    s := System(Some(cp), [], Streaming(Initial(cfg, cp, 0), 0), {});
    var mid := System(Some(cp), [], Connecting(cp), {});
    assert Next(cfg, w, cp, START, Boot) == Some(mid);
    assert Later(cp, cp) == cp && FirstAfter(w, cp) == 0;
    assert Next(cfg, w, cp, mid, StartReplication(0)) == Some(s);
    assert [Boot, StartReplication(0)][1..] == [StartReplication(0)];
    ExecOne(cfg, w, cp, mid, StartReplication(0));
  }

  lemma FirstRun(cfg: Config, w: Wal, cp: Lsn, n: nat) returns (actions: seq<Action>, s: System)
    requires WellFormed(w) && AllAfter(w, cp) && n <= Frontier(cfg, w)
    ensures Exec(cfg, w, cp, START, actions) == Some(s)
    ensures Alive(w, s, n)
    ensures forall k :: 0 <= k < n ==> NewPos(w[k].x) <= s.pod.loop.flushed
    ensures |s.stream| <= |Ideal(cfg, w, n)|
  {
    hide Next, NewPos, Frontier;
    var first := FirstBoot(cfg, w, cp);
    var rest;
    rest, s := DeliverUpTo(cfg, w, cp, first, 0, n);
    ExecSplit(cfg, w, cp, START, [Boot, StartReplication(0)], rest);
    actions := [Boot, StartReplication(0)] + rest;
  }

  /** A keepalive that asks for a reply, and the reply reaching the slot. */
  lemma ConfirmFlushed(cfg: Config, w: Wal, cp: Lsn, s: System, c: nat) returns (actions: seq<Action>, s': System)
    requires Alive(w, s, c)
    ensures Exec(cfg, w, cp, s, actions) == Some(s')
    ensures s'.slot == Some(s.pod.loop.flushed) && s'.stream == s.stream
  {
    var t := STEADY.(received := Keepalive(true));
    var taken := Take(cfg, s.pod.loop, s.stream, t);
    var f := s.pod.loop.flushed;
    assert f in taken.0.reports by {
      var r := Report(s.pod.loop).reports;
      assert r[|r| - 1] == f;
    }
    var mid := AfterTurn(s, taken.0, taken.1, c);
    s' := mid.(slot := Some(f));
    actions := [Step(t), Confirm(f)];
    assert actions[1..] == [Confirm(f)];
    assert Next(cfg, w, cp, s, Step(t)) == Some(mid);
    assert Next(cfg, w, cp, mid, Confirm(f)) == Some(s');
    ExecOne(cfg, w, cp, mid, Confirm(f));
  }

  /** Two changes with one deduplication key: the second never reaches the stream. */
  lemma CollidingChangesLoseOne(cfg: Config, w: Wal, cp: Lsn, a: nat, b: nat) returns (actions: seq<Action>)
    requires WellFormed(w) && AllAfter(w, cp)
    requires a < b < Frontier(cfg, w) && w[a].x.msg.IsChange() && w[b].x.msg.IsChange()
    requires w[a].x.walStart == w[b].x.walStart && TxnMemory(w, a).xid == TxnMemory(w, b).xid
    ensures Exec(cfg, w, cp, START, actions).Some?
    ensures !Safe(cfg, w, Exec(cfg, w, cp, START, actions).value)
  {
    hide Exec, Ideal, IdealMessage, Safe, TxnMemory, BuildEventID, Frontier;
    var s;
    actions, s := FirstRun(cfg, w, cp, b + 1);
    IdealAt(cfg, w, a, b);
    IdealAt(cfg, w, a, b + 1);
    IdealAt(cfg, w, b, b + 1);
    IdealIds(cfg, w, a);
    IdealIds(cfg, w, b);
    RepeatedIdUnsafe(cfg, w, s, b + 1, |Ideal(cfg, w, a)|, |Ideal(cfg, w, b)|);
  }

  /** A running pod whose stream has no repeated key cannot hold an ideal log that has one. */
  lemma RepeatedIdUnsafe(cfg: Config, w: Wal, s: System, n: nat, i: nat, j: nat)
    requires WellFormed(w) && n <= |w| && Alive(w, s, n) && |s.stream| <= |Ideal(cfg, w, n)|
    requires i < j < |Ideal(cfg, w, n)| && Ideal(cfg, w, n)[i].msgId == Ideal(cfg, w, n)[j].msgId
    ensures !Safe(cfg, w, s)
  {
    hide Ideal, Covered;
  }

  /** A frame that ends past the commit of an unsent change lets the server skip that change. */
  lemma EarlyPositionLosesChange(cfg: Config, w: Wal, cp: Lsn, k: nat, e: nat) returns (actions: seq<Action>)
    requires WellFormed(w) && AllAfter(w, cp)
    requires k < e < |w| && e <= Frontier(cfg, w) && w[e].x.msg.IsChange() && NewPos(w[k].x) >= w[e].commitEnd
    ensures Exec(cfg, w, cp, START, actions).Some?
    ensures !Safe(cfg, w, Exec(cfg, w, cp, START, actions).value)
  {
    hide Next, NewPos, Frontier;
    var run, s := FirstRun(cfg, w, cp, k + 1);
    var more, s' := ConfirmFlushed(cfg, w, cp, s, k + 1);
    ExecSplit(cfg, w, cp, START, run, more);
    actions := run + more;
    IdealGrows(cfg, w, k + 1, e);
    assert w[e].commitEnd <= s'.slot.value && |Ideal(cfg, w, e)| >= |s'.stream|;
  }

  /**
   Exactly-once delivery, decided by the change log alone. Over every run with crashes at any point,
   lost, late or reordered status updates, and publishes that store but report an error, delivery
   is safe if and only if, among the frames the pod can get to, no two changes of a transaction
   share a WAL start position and no frame ends at or past the commit of a later change.
   */
  lemma ExactlyOnceIff(cfg: Config, w: Wal, cp: Lsn)
    requires WellFormed(w) && AllAfter(w, cp)
    ensures EveryRunSafe(cfg, w, cp)
            <==> DistinctChanges(w, Frontier(cfg, w)) && PositionsInOrder(w, Frontier(cfg, w))
  {
    hide Exec, Next, Safe, Invariant, NewPos, Frontier;
    var n := Frontier(cfg, w);
    if DistinctChanges(w, n) && PositionsInOrder(w, n) {
      forall actions | Exec(cfg, w, cp, START, actions).Some?
        ensures Safe(cfg, w, Exec(cfg, w, cp, START, actions).value)
      {
        StartIsFine(cfg, w, cp);
        RunKeeps(cfg, w, cp, START, actions);
        InvariantIsSafe(cfg, w, cp, Exec(cfg, w, cp, START, actions).value);
      }
    } else if !DistinctChanges(w, n) {
      var a, b :| 0 <= a < b < n && w[a].x.msg.IsChange() && w[b].x.msg.IsChange()
        && w[a].x.walStart == w[b].x.walStart && TxnMemory(w, a).xid == TxnMemory(w, b).xid;
      var actions := CollidingChangesLoseOne(cfg, w, cp, a, b);
    } else {
      var k, e :| 0 <= k < e < |w| && e <= n && w[e].x.msg.IsChange() && NewPos(w[k].x) >= w[e].commitEnd;
      var actions := EarlyPositionLosesChange(cfg, w, cp, k, e);
    }
  }

  lemma StartIsFine(cfg: Config, w: Wal, cp: Lsn)
    requires WellFormed(w)
    ensures Invariant(cfg, w, cp, START)
  {
  }

  /** No run ever stores anything past the first change that cannot be sent. */
  lemma StreamStaysBelowFrontier(cfg: Config, w: Wal, cp: Lsn, actions: seq<Action>)
    requires WellFormed(w) && AllAfter(w, cp)
    requires DistinctChanges(w, Frontier(cfg, w)) && PositionsInOrder(w, Frontier(cfg, w))
    requires Exec(cfg, w, cp, START, actions).Some?
    ensures Exec(cfg, w, cp, START, actions).value.stream <= Ideal(cfg, w, Frontier(cfg, w))
  {
    StartIsFine(cfg, w, cp);
    RunKeeps(cfg, w, cp, START, actions);
    hide Exec, Frontier, Ideal;
  }

  /** From every reachable state a single undisturbed incarnation stores all that can be sent. */
  lemma DeliveryReachesFrontier(cfg: Config, w: Wal, cp: Lsn, actions: seq<Action>) returns (more: seq<Action>)
    requires WellFormed(w) && AllAfter(w, cp)
    requires DistinctChanges(w, Frontier(cfg, w)) && PositionsInOrder(w, Frontier(cfg, w))
    requires Exec(cfg, w, cp, START, actions).Some?
    ensures Exec(cfg, w, cp, START, actions + more).Some?
    ensures Exec(cfg, w, cp, START, actions + more).value.stream == Ideal(cfg, w, Frontier(cfg, w))
  {
    hide Frontier;
    var s := Exec(cfg, w, cp, START, actions).value;
    StartIsFine(cfg, w, cp);
    RunKeeps(cfg, w, cp, START, actions);
    var slot := if s.slot.Some? then s.slot.value else cp;
    var c := FirstAfter(w, slot);
    var streaming := System(Some(slot), s.stream, Streaming(Initial(cfg, slot, 0), c), s.sent);
    var restart := [Crash, Boot, StartReplication(0)];
    Restarted(cfg, w, cp, s, slot);
    CoveredBeforeFrontier(cfg, w, slot, |s.stream|);
    AgreesAtResume(w, slot);
    StreamIdsUnique(cfg, w, Frontier(cfg, w), s.stream);
    var run, last := DeliverUpTo(cfg, w, cp, streaming, c, Frontier(cfg, w));
    ExecSplit(cfg, w, cp, s, restart, run);
    more := restart + run;
    ExecSplit(cfg, w, cp, START, actions, more);
    RunKeeps(cfg, w, cp, START, actions + more);
  }

  /** Some continuation of the run makes the stream the whole ideal log. */
  ghost predicate CanComplete(cfg: Config, w: Wal, cp: Lsn, actions: seq<Action>)
    requires WellFormed(w)
  {
    exists more :: Completed(cfg, w, Exec(cfg, w, cp, START, actions + more))
  }

  ghost predicate Completed(cfg: Config, w: Wal, s: Option<System>)
    requires WellFormed(w)
  {
    s.Some? && s.value.stream == Ideal(cfg, w, |w|)
  }

  /** Delivery can complete, from any reachable state, if and only if every change can be sent. */
  lemma DeliveryCompletesIff(cfg: Config, w: Wal, cp: Lsn, actions: seq<Action>)
    requires WellFormed(w) && AllAfter(w, cp)
    requires DistinctChanges(w, Frontier(cfg, w)) && PositionsInOrder(w, Frontier(cfg, w))
    requires Exec(cfg, w, cp, START, actions).Some?
    ensures CanComplete(cfg, w, cp, actions) <==> AllSendable(cfg, w)
  {
    hide Exec, Frontier, AllSendable, DistinctChanges, PositionsInOrder, AllAfter, WellFormed;
    FrontierAtEnd(cfg, w);
    var n := Frontier(cfg, w);
    if n == |w| {
      var more := DeliveryReachesFrontier(cfg, w, cp, actions);
      assert Completed(cfg, w, Exec(cfg, w, cp, START, actions + more));
    } else {
      BlockedChangeCounts(cfg, w);
      forall more | Exec(cfg, w, cp, START, actions + more).Some?
        ensures !Completed(cfg, w, Exec(cfg, w, cp, START, actions + more))
      {
        StreamStaysBelowFrontier(cfg, w, cp, actions + more);
      }
    }
  }

  /** The change that cannot be sent is one the ideal log has. */
  lemma BlockedChangeCounts(cfg: Config, w: Wal)
    requires WellFormed(w) && Frontier(cfg, w) < |w|
    ensures |Ideal(cfg, w, Frontier(cfg, w))| < |Ideal(cfg, w, |w|)|
  {
    hide Frontier;
    IdealAt(cfg, w, Frontier(cfg, w), |w|);
  }

  // Logs that block for ever

  /** One transaction inserting one row of one column. */
  function OneInsert(table: string, typeOid: nat, text: string): Wal {
    [Entry(XLogData(100, 0, BeginMessage(7, 0)), 1000),
     Entry(XLogData(100, 0, RelationMessage(1, Relation(table, [ColumnMeta("x", typeOid)]))), 1000),
     Entry(XLogData(200, 10, InsertMessage(1, Some([Column('t', text)]))), 1000),
     Entry(XLogData(300, 0, CommitMessage), 1000)]
  }

  lemma OneInsertFacts(cfg: Config, table: string, typeOid: nat, text: string)
    ensures var w := OneInsert(table, typeOid, text);
      && WellFormed(w) && DistinctChanges(w, |w|) && PositionsInOrder(w, |w|)
      && TxnMemory(w, 2) == State(map[1 := Relation(table, [ColumnMeta("x", typeOid)])], 7, 0)
  {
    var w := OneInsert(table, typeOid, text);
    assert TxnMemory(w, 1) == State(map[], 7, 0);
    assert map[][1 := w[1].x.msg.rel] == map[1 := w[1].x.msg.rel];
  }

  /** The spellings PostgreSQL writes of what is no finite number, and the others Go reads so. */
  predicate NonFinite(text: string) {
    Lower(text) in {"nan", "inf", "+inf", "-inf", "infinity", "+infinity", "-infinity"}
  }

  /** An insert that cannot be sent leaves the stream empty in every run, whatever the broker answers. */
  lemma OneInsertBlocks(cfg: Config, cp: Lsn, table: string, typeOid: nat, text: string, actions: seq<Action>)
    requires cp < 1000
    requires (NonFinite(text) && typeOid in {700, 701, 1700}) || ' ' in table
    ensures var w := OneInsert(table, typeOid, text);
      && WellFormed(w) && AllAfter(w, cp) && DistinctChanges(w, |w|) && PositionsInOrder(w, |w|)
      && (Exec(cfg, w, cp, START, actions).Some? ==> Exec(cfg, w, cp, START, actions).value.stream == [])
  {
    var w := OneInsert(table, typeOid, text);
    OneInsertFacts(cfg, table, typeOid, text);
    NonFiniteIff(text);
    OneInsertUnsendable(cfg, table, typeOid, text);
    assert Frontier(cfg, w) <= 2;
    if Exec(cfg, w, cp, START, actions).Some? {
      StreamStaysBelowFrontier(cfg, w, cp, actions);
      IdealGrows(cfg, w, Frontier(cfg, w), 2);
      assert Ideal(cfg, w, 2) == Ideal(cfg, w, 1) == [];
    }
  }

  lemma OneInsertUnsendable(cfg: Config, table: string, typeOid: nat, text: string)
    requires (NonFiniteText(text) && IsFloatOid(typeOid)) || ' ' in table
    requires WellFormed(OneInsert(table, typeOid, text))
    ensures Blocks(cfg, OneInsert(table, typeOid, text), 2)
  {
    var w := OneInsert(table, typeOid, text);
    OneInsertFacts(cfg, table, typeOid, text);
    var e := IdealMessage(cfg, w, 2).data;
    assert e.table == table;
    hide NonFiniteText, TxnMemory;
    if ' ' in table {
      SpaceInSubject(cfg, e);
    } else {
      var cells := DecodedPrefix([Column('t', text)], [ColumnMeta("x", typeOid)], 1);
      assert DecodedPrefix([Column('t', text)], [ColumnMeta("x", typeOid)], 0) == map[];
      assert e.newRow == Some(cells) && "x" in cells && cells["x"] == Typed(text, typeOid);
    }
  }

  lemma SpaceInSubject(cfg: Config, e: CdcEvent)
    requires ' ' in e.table
    ensures !Publishable(SubjectFor(cfg, e))
  {
    assert !NoSpace(e.table);
    hide Subjects.Compose;
    EventEncoding.ComposeNoSpace(cfg.subjectPrefix, Subjects.OperationToSubject(e.operation), cfg.projectID, e.table);
  }

  /** 'NaN'::float8 is such an insert: it is never delivered, and neither is anything after it. */
  lemma NanNeverDelivered(cfg: Config, cp: Lsn, table: string, actions: seq<Action>)
    requires cp < 1000
    ensures var w := OneInsert(table, 701, "NaN");
      && WellFormed(w) && AllAfter(w, cp) && DistinctChanges(w, |w|) && PositionsInOrder(w, |w|)
      && (Exec(cfg, w, cp, START, actions).Some? ==> Exec(cfg, w, cp, START, actions).value.stream == [])
  {
    assert Lower("NaN") == "nan";
    OneInsertBlocks(cfg, cp, table, 701, "NaN", actions);
  }

  lemma Restarted(cfg: Config, w: Wal, cp: Lsn, s: System, slot: Lsn)
    requires slot == if s.slot.Some? then s.slot.value else cp
    ensures Exec(cfg, w, cp, s, [Crash, Boot, StartReplication(0)])
            == Some(System(Some(slot), s.stream, Streaming(Initial(cfg, slot, 0), FirstAfter(w, slot)), s.sent))
  {
    var down := s.(pod := Down);
    var connecting := System(Some(slot), s.stream, Connecting(slot), s.sent);
    assert Next(cfg, w, cp, s, Crash) == Some(down);
    assert Next(cfg, w, cp, down, Boot) == Some(connecting);
    assert [Crash, Boot, StartReplication(0)][1..] == [Boot, StartReplication(0)];
    assert [Boot, StartReplication(0)][1..] == [StartReplication(0)];
    ExecOne(cfg, w, cp, connecting, StartReplication(0));
  }

  lemma StreamIdsUnique(cfg: Config, w: Wal, n: nat, stream: seq<StoredMsg>)
    requires WellFormed(w) && n <= |w| && DistinctChanges(w, n) && stream <= Ideal(cfg, w, n)
    ensures UniqueIds(stream)
  {
    IdealIdsUnique(cfg, w, n);
    var all := Ideal(cfg, w, n);
    forall i, j | 0 <= i < j < |stream|
      ensures stream[i].msgId != stream[j].msgId
    {
      assert stream[i] == all[i] && stream[j] == all[j];
    }
  }
}
